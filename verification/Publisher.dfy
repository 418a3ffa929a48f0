/** The staged driver (lib/delegation-publish.ts:50-107) over the evidence check of
    lib/delegation-reconcile.ts:40-125, with everybody else acting at each wait. Every write
    of its session meets the journal's discipline, whatever the schedule; and undisturbed,
    one pass finishes the operation. */
module Publisher {
  import opened Identity
  import opened Authority
  import opened Documents
  import opened Journal
  import opened JournalRuns
  import opened Reconcile
  import opened Protocol
  import opened Resumption
  import opened Deployment
  import opened MutationSession
  import opened Outbox
  import opened Planner
  import opened SinglePass

  datatype Stage = CancellationStage | ReplacementStage | CommitStage

  datatype RunResult = Completed(receipt: Receipt) | PendingAt(stage: Stage)

  /** A successful evaluation: when it was made and what it was about. */
  datatype Evaluation = Evaluation(at: nat, about: Case)

  /** What an evaluation for `to` is about, by the documents on the shelf. */
  function CaseAt(shelf: Shelf, forum: ObjectId, agent: Key, id: OperationId, to: Option<Key>): Option<Case> {
    match DocumentAt(shelf, forum, agent, id)
    case Found(doc) =>
      if to.None? then Some(Case(doc, None, [], shelf.registries[id]))
      else if doc.replacement != to then None
      else
        (match PlanAt(shelf, forum, agent, id, to.value)
         case Found(plan) => Some(Case(doc, to, plan.grants, shelf.registries[id]))
         case _ => None)
    case _ => None
  }

  lemma CaseStays(a: Shelf, b: Shelf, forum: ObjectId, agent: Key, id: OperationId, to: Option<Key>)
    requires ShelfKept(a, b) && CaseAt(a, forum, agent, id, to).Some?
    ensures CaseAt(b, forum, agent, id, to) == CaseAt(a, forum, agent, id, to)
  {
    LoadsAgree(a, b, forum, agent, id, if to.Some? then to.value else agent);
    hide ValidDocument, ValidGrants;
  }

  class Reconciler {
    const world: World
    const outbox: BoundOutbox
    const plans: ReplacementOutbox

    constructor (plans: ReplacementOutbox)
      requires plans.world == plans.outbox.world
      ensures this.plans == plans && outbox == plans.outbox && world == plans.world && Wired()
    {
      this.plans, this.outbox, this.world := plans, plans.outbox, plans.world;
    }

    ghost predicate Wired() {
      outbox == plans.outbox && world == plans.world == outbox.world
    }

    function Material(shelf: Shelf, id: OperationId, to: Option<Key>): Option<Case>
    {
      CaseAt(shelf, outbox.forum, outbox.agent, id, to)
    }

    /** Load what the evaluation is about. */
    method Collect(id: OperationId, to: Option<Key>) returns (about: Option<Case>)
      requires Wired() && world.Valid()
      modifies world
      ensures world.Valid() && Follows(old(world.Trail()), world.Trail())
      ensures about.Some? ==> about == Material(world.shelf, id, to)
      ensures old(world.Calm()) ==> world.Still() && (Material(world.shelf, id, to).Some? ==> about.Some?)
    {
      hide LegalRun, ValidDocument, ValidGrants, Orderly, FaithfulBytes;
      var saved := outbox.Load(id);
      if !saved.Found? {
        return None;
      }
      label Loaded:
      var alive := world.Await();
      LoadsAgree(old@Loaded(world.shelf), world.shelf, outbox.forum, outbox.agent, id, outbox.agent);
      if !alive || id !in world.shelf.registries {
        return None;
      }
      var registry := world.shelf.registries[id];
      if to.None? {
        return Some(Case(saved.value, None, [], registry));
      }
      if saved.value.replacement != to {
        return None;
      }
      label Planning:
      var plan := plans.Load(id, to.value);
      LoadsAgree(old@Planning(world.shelf), world.shelf, outbox.forum, outbox.agent, id, to.value);
      return if plan.Found? then Some(Case(saved.value, to, plan.value.grants, registry)) else None;
    }

    /** One evaluation. When it succeeds, its verdict holds of the rows of some version that
        was current during the call, at the second that is still the current one. */
    method Evaluate(mode: Mode, id: OperationId, to: Option<Key>) returns (r: Option<Evaluation>, ghost seen: nat)
      requires Wired() && world.Valid()
      modifies world
      ensures world.Valid() && Follows(old(world.Trail()), world.Trail())
      ensures r.Some? ==>
                && old(world.etag) <= seen <= world.etag && r.value.at == world.clock
                && Material(world.shelf, id, to) == Some(r.value.about)
                && Verdict(world.cfg, mode, r.value.about, world.log[seen].rows, r.value.at) == None
      ensures old(world.Calm()) ==> world.Still()
      ensures old(world.Calm()) && Material(world.shelf, id, to).Some? ==>
                (r.Some? <==> Verdict(world.cfg, mode, Material(world.shelf, id, to).value, world.state.rows,
                                      world.clock) == None)
    {
      hide LegalRun, Verdict, CaseAt;
      var about := Collect(id, to);
      if about.None? {
        return None, 0;
      }
      label Collected:
      var at := world.clock;
      var alive := world.Await();
      if !alive {
        return None, 0;
      }
      seen := world.etag;
      var rows := world.state.rows;
      var failure := Reconcile.Evaluate(world.cfg, mode, about.value, rows, at);
      if failure.Some? {
        return None, seen;
      }
      label Evaluated:
      var latest := Collect(id, to);
      CaseStays(old@Collected(world.shelf), world.shelf, outbox.forum, outbox.agent, id, to);
      assert world.log[seen] == old@Evaluated(world.log[seen]);
      if latest != about || world.clock != at {
        return None, seen;
      }
      return Some(Evaluation(at, about.value)), seen;
    }
  }

  // ------------------------------------------------------------ evidence makes writes legal

  /** The document a version's operation is bound to. */
  ghost predicate BoundTo(s: State, doc: CancellationOperation) {
    s.operation.Some? && s.operation.value.cancellationDigest == Some(OfCancellations(doc)) && doc.fence.Fence?
  }

  ghost predicate PlanBoundTo(s: State, plan: GrantPlan) {
    s.operation.Some? && s.operation.value.grantDigest == Some(OfGrants(plan))
  }

  lemma CancelIsLegal(cfg: Config, s: State, doc: CancellationOperation, c: Command, at: nat)
    requires BoundTo(s, doc) && c.Publish? && c.phase == Cancelling && c.row in doc.cancellations
    requires Verdict(cfg, CancellationPreflight, Case(doc, None, [], doc.fence.destinations), s.rows, at) == None
    ensures Legal(cfg, s, c, at)
  {
    hide Verdict;
  }

  lemma GrantIsLegal(cfg: Config, s: State, doc: CancellationOperation, plan: GrantPlan, c: Command, at: nat)
    requires BoundTo(s, doc) && PlanBoundTo(s, plan)
    requires c.Begin? || (c.Publish? && c.phase == Replacing && c.row in plan.grants)
    requires Verdict(cfg, ReplacementPreflight, Case(doc, doc.replacement, plan.grants, doc.fence.destinations), s.rows,
                     at) == None
    ensures Legal(cfg, s, c, at)
  {
    hide Verdict;
  }

  lemma CommitIsLegal(cfg: Config, s: State, doc: CancellationOperation, plan: GrantPlan, c: Command, at: nat)
    requires BoundTo(s, doc) && PlanBoundTo(s, plan) && c.Commit? && c.evidence.evaluatedAt == at
    requires Verdict(cfg, Reconciling, Case(doc, doc.replacement, plan.grants, doc.fence.destinations), s.rows, at) ==
             None
    ensures Legal(cfg, s, c, at)
  {
    hide Verdict;
  }

  lemma PlanIsLegal(cfg: Config, s: State, doc: CancellationOperation, plan: GrantPlan, c: Command, at: nat)
    requires BoundTo(s, doc) && c.BindPlan? && c.digest == OfGrants(plan) && PlanFor(doc, plan) &&
             Intends(doc, s.operation.value)
    ensures Legal(cfg, s, c, at)
  {
    hide PlanFor;
  }

  lemma BindsPlan(s: State, c: Command, plan: GrantPlan)
    requires c.BindPlan? && c.digest == OfGrants(plan)
    ensures !Exec(s, c).Refused? ==> PlanBoundTo(After(s, c), plan)
  {
    hide Parses;
  }

  /** No call of a session changes the digests that are already bound. */
  lemma KeepsBound(s: State, c: Command, doc: CancellationOperation, plan: GrantPlan)
    requires !c.Claim? && !c.Abort?
    ensures BoundTo(s, doc) ==> BoundTo(After(s, c), doc)
    ensures PlanBoundTo(s, plan) ==> PlanBoundTo(After(s, c), plan)
  {
    hide Parses;
  }

  lemma DocumentCase(shelf: Shelf, forum: ObjectId, agent: Key, id: OperationId, to: Key, doc: CancellationOperation)
    requires DocumentAt(shelf, forum, agent, id) == Found(doc) && doc.replacement == Some(to)
    ensures doc.fence.Fence? && doc.agent == agent
    ensures CaseAt(shelf, forum, agent, id, None) == Some(Case(doc, None, [], doc.fence.destinations))
    ensures PlanAt(shelf, forum, agent, id, to).Found? ==>
              CaseAt(shelf, forum, agent, id, Some(to)) ==
                Some(Case(doc, doc.replacement, PlanAt(shelf, forum, agent, id, to).value.grants,
                          doc.fence.destinations))
  {
    hide ValidDocument, ValidGrants;
  }

  // ------------------------------------------------------------ an undisturbed pass

  /** All that a pass can see: versions, time, shelf, and its own session. */
  datatype Scene = Scene(log: seq<State>, clock: nat, shelf: Shelf, calm: bool, etag: nat, live: bool)

  /** The scene after a call of the session on its newest version. */
  ghost function Acted(scene: Scene, c: Command): Scene
    requires scene.log != []
  {
    match Exec(Newest(scene), c)
    case Written(n) => scene.(log := scene.log + [n], etag := scene.etag + 1)
    case _ => scene
  }

  ghost function Newest(scene: Scene): State
    requires scene.log != []
  {
    scene.log[|scene.log| - 1]
  }

  datatype Scope = Scope(cfg: Config, forum: ObjectId, agent: Key, signer: Signer)

  /** The plan that the driver would prepare for version `s`, right now. */
  predicate Prospect(scope: Scope, job: Job, s: State) {
    && job.doc.fence.Fence? && s.operation.Some? && s.operation.value.grantDigest == None
    && StatesLeft(s.rows, job.to) && ValidGrants(job.plan.grants)
    && job.plan == GrantPlan(job.id, PlanBinding(job.doc, job.doc.fence.destinations),
                             DirectRows(scope.signer, s.rows, s.destinations, job.to, true, job.at))
  }

  /** The plan of the job is on the shelf. */
  predicate Stocked(scope: Scope, shelf: Shelf, job: Job) {
    PlanAt(shelf, scope.forum, scope.agent, job.id, job.to) == Found(job.plan)
  }

  predicate PlanReady(scope: Scope, shelf: Shelf, job: Job, s: State) {
    Stocked(scope, shelf, job) ||
    (PlanAt(shelf, scope.forum, scope.agent, job.id, job.to).Absent? && Prospect(scope, job, s))
  }

  /** Nobody else acts, the document is on the shelf, the plan is there or about to be
      prepared, and as far as evidence goes the operation can be finished. */
  ghost predicate Smooth(scope: Scope, scene: Scene, job: Job) {
    && scene.calm && scene.live && |scene.log| == scene.etag + 1 && job.at == scene.clock
    && DocumentAt(scene.shelf, scope.forum, scope.agent, job.id) == Found(job.doc)
    && PlanReady(scope, scene.shelf, job, Newest(scene))
    && OnTrack(scene.log[0], scope.cfg, job, Newest(scene))
  }

  ghost predicate AtCancel(scope: Scope, scene: Scene, job: Job, i: nat) {
    Smooth(scope, scene, job) && CancelReady(scene.log[0], scope.cfg, job, Newest(scene), i)
  }

  ghost predicate AtGrant(scope: Scope, scene: Scene, job: Job, i: nat) {
    Smooth(scope, scene, job) && Stocked(scope, scene.shelf, job) &&
      GrantReady(scene.log[0], scope.cfg, job, Newest(scene), i)
  }

  ghost predicate Canceled(scope: Scope, scene: Scene, job: Job) {
    Smooth(scope, scene, job) && Missing(job.doc.cancellations, Newest(scene).rows) == []
  }

  ghost predicate Supplied(scope: Scope, scene: Scene, job: Job) {
    Canceled(scope, scene, job) && Stocked(scope, scene.shelf, job)
  }

  ghost predicate Planned(scope: Scope, scene: Scene, job: Job) {
    Supplied(scope, scene, job) && Newest(scene).operation.value.grantDigest.Some?
  }

  ghost predicate Granted(scope: Scope, scene: Scene, job: Job) {
    Planned(scope, scene, job) && Missing(job.plan.grants, Newest(scene).rows) == []
  }

  /** Room for the checks of a batch: what its last one will count. */
  ghost predicate Affords(scene: Scene, job: Job) {
    scene.log != [] && CancelBudget(job, Newest(scene))
  }

  ghost predicate AffordsGrants(scene: Scene, job: Job) {
    scene.log != [] && GrantBudget(job, Newest(scene))
  }

  /** Room for the checks of a batch, unless nothing of it is missing. */
  ghost predicate FitsCancels(scene: Scene, job: Job) {
    scene.log != [] && CancelFits(job, Newest(scene))
  }

  ghost predicate FitsGrants(scene: Scene, job: Job) {
    scene.log != [] && GrantFits(job, Newest(scene))
  }

  /** The rows that a finished operation will hold. */
  ghost function Goal(scene: Scene, job: Job): set<Row> {
    if scene.log == [] then {} else Target(job, Newest(scene))
  }

  /** What an evaluation finds on the newest version. */
  ghost predicate Finds(scope: Scope, scene: Scene, job: Job, mode: Mode, to: Option<Key>) {
    && scene.log != [] && CaseAt(scene.shelf, scope.forum, scope.agent, job.id, to).Some?
    && Verdict(scope.cfg, mode, CaseAt(scene.shelf, scope.forum, scope.agent, job.id, to).value, Newest(scene).rows,
               scene.clock) == None
  }

  ghost predicate Comparable(scope: Scope, scene: Scene, job: Job, to: Option<Key>) {
    CaseAt(scene.shelf, scope.forum, scope.agent, job.id, to).Some?
  }

  lemma SmoothCases(scope: Scope, scene: Scene, job: Job)
    requires Smooth(scope, scene, job)
    ensures CaseAt(scene.shelf, scope.forum, scope.agent, job.id, None) ==
            Some(Case(job.doc, None, [], job.doc.fence.destinations))
    ensures Stocked(scope, scene.shelf, job) ==>
            CaseAt(scene.shelf, scope.forum, scope.agent, job.id, Some(job.to)) == Some(FullCase(job))
  {
    SmoothPrepared(scope, scene, job);
    hide OnTrack, DocumentAt, PlanAt, CaseAt, Prospect;
    DocumentCase(scene.shelf, scope.forum, scope.agent, job.id, job.to, job.doc);
  }

  lemma SmoothPrepared(scope: Scope, scene: Scene, job: Job)
    requires Smooth(scope, scene, job)
    ensures Prepared(job) && |Newest(scene).rows| <= MAX_ROWS && job.doc.cancellations != []
  {
    hide PlanAt, Prospect;
  }

  /** What the evaluations of a smooth scene come to. */
  lemma SmoothFinds(scope: Scope, scene: Scene, job: Job, mode: Mode)
    requires Smooth(scope, scene, job)
    ensures Finds(scope, scene, job, mode, None) <==>
              Verdict(scope.cfg, mode, Case(job.doc, None, [], job.doc.fence.destinations), Newest(scene).rows,
                      job.at) == None
    ensures Stocked(scope, scene.shelf, job) ==>
              (Finds(scope, scene, job, mode, Some(job.to)) <==>
                 Verdict(scope.cfg, mode, FullCase(job), Newest(scene).rows, job.at) == None)
  {
    SmoothCases(scope, scene, job);
    hide OnTrack, DocumentAt, PlanReady, Stocked, CaseAt, Verdict;
  }

  /** Cancellations of the old assignee's access do not change the prospect. */
  lemma ProspectStays(scope: Scope, scene: Scene, job: Job, i: nat, n: State)
    requires AtCancel(scope, scene, job, i) && i < |job.doc.cancellations| &&
             PlanReady(scope, scene.shelf, job, Newest(scene))
    requires n == Newest(scene) || AddsRow(Newest(scene), n, job.doc.cancellations[i])
    ensures PlanReady(scope, scene.shelf, job, n)
  {
    var s, row := Newest(scene), job.doc.cancellations[i];
    SoundCandidates(scope.cfg, CancellationPreflight, CancelCase(job), s.rows, job.at);
    assert InScope(row, job.doc.agent, job.doc.fence.destinations,
                   Groups(Elements(s.rows), job.doc.fence.destinations));
    assert Elsewhere([row], job.to);
    hide Sound, Groups, InScope, OnTrack, Verdict, DirectRows, Stocked, PlanAt, ValidGrants;
    DirectRowsElsewhere(scope.signer, s.rows, [row], s.destinations, job.to, true, job.at);
    StatesElsewhere(s.rows, [row], job.to);
  }

  lemma CancelBegins(scope: Scope, scene: Scene, job: Job)
    requires Smooth(scope, scene, job)
    ensures Comparable(scope, scene, job, None)
    ensures if Finds(scope, scene, job, Reconciling, None) then Canceled(scope, scene, job) && FitsCancels(scene, job)
            else AtCancel(scope, scene, job, 0) && (FitsCancels(scene, job) <==> Affords(scene, job))
  {
    SmoothPrepared(scope, scene, job);
    SmoothCases(scope, scene, job);
    hide OnTrack, DocumentAt, PlanReady, CaseAt, Verdict, CancelReady, Missing, CancelBudget;
    CancelStart(scene.log[0], scope.cfg, job, Newest(scene));
  }

  lemma CancelFinds(scope: Scope, scene: Scene, job: Job, i: nat)
    requires AtCancel(scope, scene, job, i)
    ensures Smooth(scope, scene, job) && Comparable(scope, scene, job, None) && job.doc.cancellations != []
    ensures Affords(scene, job) ==> Finds(scope, scene, job, CancellationPreflight, None)
    ensures i == |job.doc.cancellations| - 1 && Finds(scope, scene, job, CancellationPreflight, None) ==>
            Affords(scene, job)
  {
    SmoothPrepared(scope, scene, job);
    SmoothCases(scope, scene, job);
    hide OnTrack, DocumentAt, PlanReady, CaseAt, Verdict, CancelReady, CancelBudget;
    CancelReadyVerdict(scene.log[0], scope.cfg, job, Newest(scene), i);
  }

  lemma CancelActs(scope: Scope, scene: Scene, job: Job, i: nat)
    requires AtCancel(scope, scene, job, i) && i < |job.doc.cancellations| &&
             Finds(scope, scene, job, CancellationPreflight, None)
    ensures var c := Publish(job.actor, job.id, job.to, Cancelling, job.doc.cancellations[i]);
            && !Exec(Newest(scene), c).Refused? && AtCancel(scope, Acted(scene, c), job, i + 1)
            && Goal(Acted(scene, c), job) == Goal(scene, job) &&
               FitsGrants(Acted(scene, c), job) == FitsGrants(scene, job)
            && (i < |job.doc.cancellations| - 1 ==> Affords(Acted(scene, c), job) == Affords(scene, job))
  {
    SmoothFinds(scope, scene, job, CancellationPreflight);
    var s, c := Newest(scene), Publish(job.actor, job.id, job.to, Cancelling, job.doc.cancellations[i]);
    hide OnTrack, DocumentAt, PlanReady, Exec, Target, Verdict, Finds, CancelReady, CancelBudget, GrantFits, Acted,
         Goal, FitsGrants, Affords;
    CancelPublished(scene.log[0], scope.cfg, job, s, i);
    CancelMoves(scope, scene, job, i, s, c);
  }

  /** The scene after a record was published or found published. */
  lemma CancelMoves(scope: Scope, scene: Scene, job: Job, i: nat, s: State, c: Command)
    requires AtCancel(scope, scene, job, i) && i < |job.doc.cancellations| && s == Newest(scene)
    requires c == Publish(job.actor, job.id, job.to, Cancelling, job.doc.cancellations[i]) && !Exec(s, c).Refused?
    requires var n := After(s, c);
             && CancelReady(scene.log[0], scope.cfg, job, n, i + 1) && OnTrack(scene.log[0], scope.cfg, job, n)
             && (n == s || AddsRow(s, n, c.row)) && Target(job, n) == Target(job, s) &&
                GrantFits(job, n) == GrantFits(job, s)
             && (i < |job.doc.cancellations| - 1 ==> CancelBudget(job, n) == CancelBudget(job, s))
    ensures AtCancel(scope, Acted(scene, c), job, i + 1)
    ensures Goal(Acted(scene, c), job) == Goal(scene, job) && FitsGrants(Acted(scene, c), job) == FitsGrants(scene, job)
    ensures i < |job.doc.cancellations| - 1 ==> Affords(Acted(scene, c), job) == Affords(scene, job)
  {
    hide OnTrack, DocumentAt, PlanReady, Exec, Target, Verdict, CancelReady, CancelBudget, GrantFits, AddsRow;
    ProspectStays(scope, scene, job, i, After(s, c));
  }

  /** What an undisturbed attempt at record `i` comes to: it fails only without the budget, the
      last one needs all of it, and otherwise nothing but the record changes. */
  ghost predicate CancelDone(scope: Scope, before: Scene, after: Scene, job: Job, i: nat, ok: bool) {
    && (Affords(before, job) ==> ok) && (ok && i == |job.doc.cancellations| - 1 ==> Affords(before, job))
    && (ok ==>
        AtCancel(scope, after, job, i + 1) && Goal(after, job) == Goal(before, job) &&
        FitsGrants(after, job) == FitsGrants(before, job))
    && (ok && i < |job.doc.cancellations| - 1 ==> Affords(after, job) == Affords(before, job))
  }

  lemma CancelStops(scope: Scope, before: Scene, after: Scene, job: Job, i: nat)
    requires AtCancel(scope, before, job, i) && !Finds(scope, before, job, CancellationPreflight, None)
    ensures CancelDone(scope, before, after, job, i, false)
  {
    hide Finds, AtCancel, Affords;
    CancelFinds(scope, before, job, i);
  }

  lemma CancelGoesOn(scope: Scope, scene: Scene, job: Job, i: nat)
    requires AtCancel(scope, scene, job, i) && i < |job.doc.cancellations| &&
             Finds(scope, scene, job, CancellationPreflight, None)
    ensures var c := Publish(job.actor, job.id, job.to, Cancelling, job.doc.cancellations[i]);
            !Exec(Newest(scene), c).Refused? && CancelDone(scope, scene, Acted(scene, c), job, i, true)
  {
    CancelActs(scope, scene, job, i);
    hide Finds, AtCancel, Affords, Goal, FitsGrants, Exec, Acted;
    CancelFinds(scope, scene, job, i);
  }

  lemma ReadyOnTrack(genesis: State, cfg: Config, job: Job, s: State, i: nat)
    ensures CancelReady(genesis, cfg, job, s, i) ==> OnTrack(genesis, cfg, job, s)
    ensures GrantReady(genesis, cfg, job, s, i) ==> OnTrack(genesis, cfg, job, s)
  {
  }

  lemma CancelEnds(scope: Scope, scene: Scene, job: Job)
    requires AtCancel(scope, scene, job, |job.doc.cancellations|)
    ensures Canceled(scope, scene, job) && Finds(scope, scene, job, Reconciling, None)
  {
    CancelBegins(scope, scene, job);
    CancelEnd(scene.log[0], scope.cfg, job, Newest(scene));
    SmoothPrepared(scope, scene, job);
    SmoothCases(scope, scene, job);
    hide OnTrack, DocumentAt, PlanReady, CaseAt, Verdict, CancelReady, Missing;
    CancelStart(scene.log[0], scope.cfg, job, Newest(scene));
  }

  lemma PlanActs(scope: Scope, scene: Scene, job: Job)
    requires Supplied(scope, scene, job)
    ensures var c := BindPlan(job.actor, job.id, job.to, OfGrants(job.plan));
            && !Exec(Newest(scene), c).Refused? && Planned(scope, Acted(scene, c), job)
            && Goal(Acted(scene, c), job) == Goal(scene, job) &&
               FitsGrants(Acted(scene, c), job) == FitsGrants(scene, job)
  {
    hide OnTrack, DocumentAt, Stocked, Prospect, PlanAt, Missing, Exec, Target;
    BoundKeeps(scene.log[0], scope.cfg, job, Newest(scene));
  }

  lemma GrantBegins(scope: Scope, scene: Scene, job: Job)
    requires Planned(scope, scene, job)
    ensures Comparable(scope, scene, job, Some(job.to))
    ensures if Finds(scope, scene, job, Reconciling, Some(job.to)) then Granted(scope, scene, job) &&
            FitsGrants(scene, job)
            else
              && Missing(job.plan.grants, Newest(scene).rows) != []
              && (FitsGrants(scene, job) <==> AffordsGrants(scene, job))
              && (AffordsGrants(scene, job) ==> Finds(scope, scene, job, ReplacementPreflight, Some(job.to)))
  {
    SmoothCases(scope, scene, job);
    hide OnTrack, DocumentAt, PlanReady, Stocked, CaseAt, Verdict, GrantReady, Missing, Exec, Target, GrantBudget;
    GrantStart(scene.log[0], scope.cfg, job, Newest(scene));
  }

  lemma PlannedIsSmooth(scope: Scope, scene: Scene, job: Job)
    ensures Canceled(scope, scene, job) ==> Smooth(scope, scene, job)
    ensures Supplied(scope, scene, job) ==> Smooth(scope, scene, job) && Canceled(scope, scene, job)
    ensures Planned(scope, scene, job) ==> Smooth(scope, scene, job) && Stocked(scope, scene.shelf, job)
    ensures Granted(scope, scene, job) ==> Smooth(scope, scene, job) && Stocked(scope, scene.shelf, job)
  {
  }

  lemma SuppliedIsStocked(scope: Scope, scene: Scene, job: Job)
    requires Supplied(scope, scene, job)
    ensures Stocked(scope, scene.shelf, job)
  {
  }

  lemma BeginActs(scope: Scope, scene: Scene, job: Job)
    requires Planned(scope, scene, job) && Missing(job.plan.grants, Newest(scene).rows) != []
    ensures var c := Begin(job.actor, job.id, job.to);
            && !Exec(Newest(scene), c).Refused? && AtGrant(scope, Acted(scene, c), job, 0)
            && Goal(Acted(scene, c), job) == Goal(scene, job) &&
               AffordsGrants(Acted(scene, c), job) == AffordsGrants(scene, job)
  {
    hide OnTrack, DocumentAt, Stocked, Prospect, PlanAt, GrantReady, Missing, Exec, Target;
    BegunKeeps(scene.log[0], scope.cfg, job, Newest(scene));
    ReadyOnTrack(scene.log[0], scope.cfg, job, After(Newest(scene), Begin(job.actor, job.id, job.to)), 0);
  }

  lemma GrantFinds(scope: Scope, scene: Scene, job: Job, i: nat)
    requires AtGrant(scope, scene, job, i)
    ensures Smooth(scope, scene, job) && Stocked(scope, scene.shelf, job) && Comparable(scope, scene, job, Some(job.to))
    ensures job.plan.grants != []
    ensures AffordsGrants(scene, job) ==> Finds(scope, scene, job, ReplacementPreflight, Some(job.to))
    ensures i == |job.plan.grants| - 1 && Finds(scope, scene, job, ReplacementPreflight, Some(job.to)) ==>
            AffordsGrants(scene, job)
  {
    SmoothCases(scope, scene, job);
    StockedGrants(scope, scene.shelf, job);
    hide OnTrack, DocumentAt, PlanReady, Stocked, CaseAt, Verdict, GrantReady, GrantBudget;
    GrantReadyVerdict(scene.log[0], scope.cfg, job, Newest(scene), i);
  }

  lemma StockedGrants(scope: Scope, shelf: Shelf, job: Job)
    requires Stocked(scope, shelf, job)
    ensures job.plan.grants != []
  {
    hide DocumentAt;
  }

  lemma GrantActs(scope: Scope, scene: Scene, job: Job, i: nat)
    requires AtGrant(scope, scene, job, i) && i < |job.plan.grants| &&
             Finds(scope, scene, job, ReplacementPreflight, Some(job.to))
    ensures var c := Publish(job.actor, job.id, job.to, Replacing, job.plan.grants[i]);
            && !Exec(Newest(scene), c).Refused? && AtGrant(scope, Acted(scene, c), job, i + 1)
            && Goal(Acted(scene, c), job) == Goal(scene, job)
            && (i < |job.plan.grants| - 1 ==> AffordsGrants(Acted(scene, c), job) == AffordsGrants(scene, job))
  {
    SmoothFinds(scope, scene, job, ReplacementPreflight);
    var s, c := Newest(scene), Publish(job.actor, job.id, job.to, Replacing, job.plan.grants[i]);
    hide OnTrack, DocumentAt, Stocked, Prospect, PlanAt, Exec, Target, Verdict, Finds, GrantReady, GrantBudget, Acted,
         Goal, AffordsGrants;
    GrantPublished(scene.log[0], scope.cfg, job, s, i);
    GrantMoves(scope, scene, job, i, s, c);
  }

  lemma GrantMoves(scope: Scope, scene: Scene, job: Job, i: nat, s: State, c: Command)
    requires AtGrant(scope, scene, job, i) && i < |job.plan.grants| && s == Newest(scene)
    requires c == Publish(job.actor, job.id, job.to, Replacing, job.plan.grants[i]) && !Exec(s, c).Refused?
    requires var n := After(s, c);
             && GrantReady(scene.log[0], scope.cfg, job, n, i + 1) && OnTrack(scene.log[0], scope.cfg, job, n)
             && Target(job, n) == Target(job, s)
             && (i < |job.plan.grants| - 1 ==> GrantBudget(job, n) == GrantBudget(job, s))
    ensures AtGrant(scope, Acted(scene, c), job, i + 1) && Goal(Acted(scene, c), job) == Goal(scene, job)
    ensures i < |job.plan.grants| - 1 ==> AffordsGrants(Acted(scene, c), job) == AffordsGrants(scene, job)
  {
    hide OnTrack, DocumentAt, Prospect, PlanAt, Exec, Target, GrantReady, GrantBudget;
  }

  ghost predicate GrantDone(scope: Scope, before: Scene, after: Scene, job: Job, i: nat, ok: bool) {
    && (AffordsGrants(before, job) ==> ok) && (ok && i == |job.plan.grants| - 1 ==> AffordsGrants(before, job))
    && (ok ==> AtGrant(scope, after, job, i + 1) && Goal(after, job) == Goal(before, job))
    && (ok && i < |job.plan.grants| - 1 ==> AffordsGrants(after, job) == AffordsGrants(before, job))
  }

  lemma GrantStops(scope: Scope, before: Scene, after: Scene, job: Job, i: nat)
    requires AtGrant(scope, before, job, i) && !Finds(scope, before, job, ReplacementPreflight, Some(job.to))
    ensures GrantDone(scope, before, after, job, i, false)
  {
    hide Finds, AtGrant, AffordsGrants;
    GrantFinds(scope, before, job, i);
  }

  lemma GrantGoesOn(scope: Scope, scene: Scene, job: Job, i: nat)
    requires AtGrant(scope, scene, job, i) && i < |job.plan.grants| &&
             Finds(scope, scene, job, ReplacementPreflight, Some(job.to))
    ensures var c := Publish(job.actor, job.id, job.to, Replacing, job.plan.grants[i]);
            !Exec(Newest(scene), c).Refused? && GrantDone(scope, scene, Acted(scene, c), job, i, true)
  {
    GrantActs(scope, scene, job, i);
    hide Finds, AtGrant, AffordsGrants, Goal, Exec, Acted;
    GrantFinds(scope, scene, job, i);
  }

  lemma GrantEnds(scope: Scope, scene: Scene, job: Job)
    requires AtGrant(scope, scene, job, |job.plan.grants|)
    ensures Granted(scope, scene, job)
  {
    GrantEnd(scene.log[0], scope.cfg, job, Newest(scene));
  }

  lemma CommitActs(scope: Scope, scene: Scene, job: Job)
    requires Granted(scope, scene, job)
    ensures Comparable(scope, scene, job, Some(job.to)) && Finds(scope, scene, job, Reconciling, Some(job.to))
    ensures var c := Commit(job.actor, job.id, job.to, Evidence(job.id, job.to, job.at), job.at);
            && Exec(Newest(scene), c).Written? && Done(job, After(Newest(scene), c))
            && Elements(After(Newest(scene), c).rows) == Goal(scene, job)
  {
    SmoothCases(scope, scene, job);
    hide OnTrack, DocumentAt, Stocked, Prospect, PlanAt, CaseAt, Verdict, Exec, Target, Missing;
    GrantStart(scene.log[0], scope.cfg, job, Newest(scene));
    CommitEnd(scene.log[0], scope.cfg, job, Newest(scene));
  }

  // ------------------------------------------------------------ the driver

  class AssignmentPublisher {
    const world: World
    const reconciler: Reconciler
    const outbox: BoundOutbox
    const plans: ReplacementOutbox
    const signer: Signer

    constructor (reconciler: Reconciler, signer: Signer)
      requires reconciler.Wired()
      ensures this.reconciler == reconciler && this.signer == signer && Wired()
    {
      this.reconciler, this.signer := reconciler, signer;
      this.world, this.outbox, this.plans := reconciler.world, reconciler.outbox, reconciler.plans;
    }

    ghost predicate Wired() {
      reconciler.Wired() && world == reconciler.world && outbox == reconciler.outbox && plans == reconciler.plans
    }

    ghost function Within(): Scope {
      Scope(world.cfg, outbox.forum, outbox.agent, signer)
    }

    ghost function SceneOf(s: Session): Scene
      reads s, world
    {
      Scene(world.log, world.clock, world.shelf, world.Calm(), s.etag, s.live)
    }

    predicate About(s: Session, job: Job) {
      job.actor == s.actor && job.id == s.id && job.to == s.to
    }

    /** The session holds a version bound to the one document on the shelf. */
    ghost predicate Opened(s: Session, doc: CancellationOperation)
      reads s, s.world, world
    {
      && s.world == world && s.Valid() && s.live && BoundTo(world.log[s.etag], doc)
      && DocumentAt(world.shelf, outbox.forum, outbox.agent, s.id) == Found(doc)
    }

    /** And the document intends the session's replacement. */
    ghost predicate Held(s: Session, doc: CancellationOperation)
      reads s, s.world, world
    {
      Opened(s, doc) && doc.replacement == Some(s.to)
    }

    /** And to the one plan. */
    ghost predicate HeldPlan(s: Session, doc: CancellationOperation, plan: GrantPlan)
      reads s, s.world, world
    {
      && Held(s, doc) && PlanBoundTo(world.log[s.etag], plan)
      && PlanAt(world.shelf, outbox.forum, outbox.agent, s.id, s.to) == Found(plan)
    }

    lemma HeldFacts(s: Session, doc: CancellationOperation)
      requires Held(s, doc)
      ensures s.world == world && s.Valid() && s.live && s.etag <= world.etag && world.Valid() &&
              BoundTo(world.log[s.etag], doc)
      ensures CaseAt(world.shelf, outbox.forum, outbox.agent, s.id, None) ==
              Some(Case(doc, None, [], doc.fence.destinations))
      ensures PlanAt(world.shelf, outbox.forum, outbox.agent, s.id, s.to).Found? ==>
                CaseAt(world.shelf, outbox.forum, outbox.agent, s.id, Some(s.to)) ==
                  Some(Case(doc, doc.replacement,
                            PlanAt(world.shelf, outbox.forum, outbox.agent, s.id, s.to).value.grants,
                            doc.fence.destinations))
    {
      DocumentCase(world.shelf, outbox.forum, outbox.agent, s.id, s.to, doc);
    }

    lemma HeldPlanFacts(s: Session, doc: CancellationOperation, plan: GrantPlan)
      requires HeldPlan(s, doc, plan)
      ensures Held(s, doc) && PlanBoundTo(world.log[s.etag], plan)
      ensures CaseAt(world.shelf, outbox.forum, outbox.agent, s.id, Some(s.to)) ==
              Some(Case(doc, doc.replacement, plan.grants, doc.fence.destinations))
    {
      HeldFacts(s, doc);
    }

    lemma CalmSession(s: Session, doc: CancellationOperation, job: Job)
      requires Wired() && Held(s, doc) && Smooth(Within(), SceneOf(s), job)
      ensures s.Ahead() && world.state == Newest(SceneOf(s)) && world.clock == job.at
    {
    }

    lemma SameDocument(s: Session, doc: CancellationOperation, job: Job)
      requires Held(s, doc) && About(s, job)
      ensures Smooth(Within(), SceneOf(s), job) ==> job.doc == doc
    {
    }

    lemma SamePlan(s: Session, doc: CancellationOperation, plan: GrantPlan, job: Job)
      requires HeldPlan(s, doc, plan) && About(s, job)
      ensures Held(s, doc)
      ensures Smooth(Within(), SceneOf(s), job) ==> job.doc == doc && job.plan == plan
    {
    }

    /** Evaluate. Undisturbed, nothing changes, and the result is what the scene shows. */
    method Examine(s: Session, ghost doc: CancellationOperation, ghost plan: GrantPlan, ghost job: Job, mode: Mode,
                   to: Option<Key>)
      returns (e: Option<Evaluation>, ghost seen: nat)
      requires Wired() && Held(s, doc) && About(s, job) && (to == None || to == Some(s.to))
      modifies world
      ensures Follows(old(world.Trail()), world.Trail()) && Held(s, doc) &&
              (old(HeldPlan(s, doc, plan)) ==> HeldPlan(s, doc, plan))
      ensures e.Some? ==>
                && s.etag <= seen <= world.etag && e.value.at == world.clock
                && CaseAt(world.shelf, outbox.forum, outbox.agent, s.id, to) == Some(e.value.about)
                && Verdict(world.cfg, mode, e.value.about, world.log[seen].rows, e.value.at) == None
      ensures old(s.Ahead()) && Comparable(Within(), old(SceneOf(s)), job, to) ==>
                SceneOf(s) == old(SceneOf(s)) && (e.Some? <==> Finds(Within(), SceneOf(s), job, mode, to))
    {
      hide LegalRun, Verdict, CaseAt, DocumentAt, PlanAt, Active, BoundTo, PlanBoundTo, Orderly, FaithfulBytes;
      e, seen := reconciler.Evaluate(mode, s.id, to);
      LoadsAgree(old(world.shelf), world.shelf, outbox.forum, outbox.agent, s.id, s.to);
      assert world.log[s.etag] == old(world.log[s.etag]);
    }

    /** Assert that the session is active, then evaluate. */
    method Check(s: Session, ghost doc: CancellationOperation, ghost plan: GrantPlan, ghost job: Job, mode: Mode,
                 to: Option<Key>)
      returns (e: Option<Evaluation>, ghost seen: nat)
      requires Wired() && Held(s, doc) && About(s, job) && (to == None || to == Some(s.to))
      modifies world
      ensures Follows(old(world.Trail()), world.Trail()) && Held(s, doc) &&
              (old(HeldPlan(s, doc, plan)) ==> HeldPlan(s, doc, plan))
      ensures e.Some? ==>
                && s.etag <= seen <= world.etag && e.value.at == world.clock
                && CaseAt(world.shelf, outbox.forum, outbox.agent, s.id, to) == Some(e.value.about)
                && Verdict(world.cfg, mode, e.value.about, world.log[seen].rows, e.value.at) == None
      ensures old(s.Ahead()) && Comparable(Within(), old(SceneOf(s)), job, to) ==>
                SceneOf(s) == old(SceneOf(s)) && (e.Some? <==> Finds(Within(), SceneOf(s), job, mode, to))
    {
      hide LegalRun, Verdict, CaseAt, DocumentAt, PlanAt, Active, BoundTo, PlanBoundTo, Orderly, FaithfulBytes, Finds,
           Comparable;
      var active := Assert(s, doc, plan);
      if !active {
        return None, 0;
      }
      e, seen := Examine(s, doc, plan, job, mode, to);
    }

    method Assert(s: Session, ghost doc: CancellationOperation, ghost plan: GrantPlan) returns (active: bool)
      requires Wired() && Held(s, doc)
      modifies world
      ensures Follows(old(world.Trail()), world.Trail()) && Held(s, doc) &&
              (old(HeldPlan(s, doc, plan)) ==> HeldPlan(s, doc, plan))
      ensures old(s.Ahead()) ==> active && SceneOf(s) == old(SceneOf(s)) && s.Ahead()
    {
      hide LegalRun, DocumentAt, PlanAt, Active, BoundTo, PlanBoundTo, Orderly, FaithfulBytes;
      var current := s.Current();
      LoadsAgree(old(world.shelf), world.shelf, outbox.forum, outbox.agent, s.id, s.to);
      assert world.log[s.etag] == old(world.log[s.etag]);
      return current.Some?;
    }

    /** Publish on a held session, which stays held. */
    method Send(s: Session, ghost doc: CancellationOperation, ghost plan: GrantPlan, phase: Phase, row: Row,
                ghost at: nat, ghost seen: nat)
      returns (ok: bool)
      requires Held(s, doc) && s.etag <= seen <= world.etag && phase in {Cancelling, Replacing}
      requires seen == s.etag ==>
               Legal(world.cfg, world.log[seen], Command.Publish(s.actor, s.id, s.to, phase, row), at)
      modifies s, world
      ensures Follows(old(world.Trail()), world.Trail()) && Held(s, doc) &&
              (old(HeldPlan(s, doc, plan)) ==> HeldPlan(s, doc, plan))
      ensures var c := Command.Publish(s.actor, s.id, s.to, phase, row);
              old(s.Ahead()) && !Exec(old(world.state), c).Refused? ==> ok && SceneOf(s) == Acted(old(SceneOf(s)), c)
    {
      ghost var c := Command.Publish(s.actor, s.id, s.to, phase, row);
      hide LegalRun, Legal, DocumentAt, PlanAt, Active, After, Exec, BoundTo, PlanBoundTo, Orderly, FaithfulBytes;
      KeepsBound(world.log[s.etag], c, doc, plan);
      ok := s.Publish(phase, row, at, seen);
      LoadsAgree(old(world.shelf), world.shelf, outbox.forum, outbox.agent, s.id, s.to);
    }

    /** Publish a cancellation whose preflight succeeded on version `seen`. */
    method PublishCancellation(s: Session, ghost doc: CancellationOperation, row: Row, ghost i: nat, ghost job: Job,
                               ghost at: nat, ghost seen: nat)
      returns (ok: bool)
      requires Wired() && Held(s, doc) && About(s, job) && i < |doc.cancellations| && row == doc.cancellations[i]
      requires s.etag <= seen <= world.etag
      requires seen == s.etag ==>
                 Legal(world.cfg, world.log[seen], Command.Publish(s.actor, s.id, s.to, Cancelling, row), at)
      modifies s, world
      ensures Follows(old(world.Trail()), world.Trail()) && Held(s, doc)
      ensures old(AtCancel(Within(), SceneOf(s), job, i) &&
                  Finds(Within(), SceneOf(s), job, CancellationPreflight, None)) ==>
              ok && CancelDone(Within(), old(SceneOf(s)), SceneOf(s), job, i, ok)
    {
      hide LegalRun, Legal, Verdict, CaseAt, Active, Exec, BoundTo, Orderly, FaithfulBytes, Held, HeldPlan, World.Valid,
           Session.Valid, AtCancel, Acted, Goal, Smooth, SceneOf, Newest, Finds, Comparable, Session.Ahead, World.Calm,
           Follows, World.Trail, CancelDone, Within;
      if AtCancel(Within(), SceneOf(s), job, i) && Finds(Within(), SceneOf(s), job, CancellationPreflight, None) {
        CancelFinds(Within(), SceneOf(s), job, i);
        SameDocument(s, doc, job);
        CalmSession(s, doc, job);
        CancelGoesOn(Within(), SceneOf(s), job, i);
      }
      ok := Send(s, doc, job.plan, Cancelling, row, at, seen);
    }

    /** Preflight again, then publish one cancellation. */
    method CancelOne(s: Session, ghost doc: CancellationOperation, records: seq<Row>, i: nat, ghost job: Job)
      returns (ok: bool)
      requires Wired() && Held(s, doc) && About(s, job) && records == doc.cancellations && i < |records|
      modifies s, world
      ensures Follows(old(world.Trail()), world.Trail()) && Held(s, doc)
      ensures old(AtCancel(Within(), SceneOf(s), job, i)) ==>
              CancelDone(Within(), old(SceneOf(s)), SceneOf(s), job, i, ok)
    {
      ghost var c := Command.Publish(s.actor, s.id, s.to, Cancelling, records[i]);
      hide LegalRun, Legal, Verdict, CaseAt, Active, Exec, BoundTo, Orderly, FaithfulBytes, Held, HeldPlan, World.Valid,
           Session.Valid, AtCancel, Acted, Goal, Smooth, SceneOf, Newest, Finds, Comparable, Session.Ahead, World.Calm,
           Follows, World.Trail, CancelDone, Within;
      ghost var before := SceneOf(s);
      if AtCancel(Within(), SceneOf(s), job, i) {
        CancelFinds(Within(), SceneOf(s), job, i);
        SameDocument(s, doc, job);
        CalmSession(s, doc, job);
      }
      var now, seen := Check(s, doc, job.plan, job, CancellationPreflight, None);
      ghost var between := world.Trail();
      HeldFacts(s, doc);
      if now.None? || now.value.about.saved.cancellations != records {
        if AtCancel(Within(), before, job, i) {
          CancelStops(Within(), before, SceneOf(s), job, i);
        }
        return false;
      }
      if seen == s.etag {
        CancelIsLegal(world.cfg, world.log[seen], doc, c, now.value.at);
      }
      ok := PublishCancellation(s, doc, records[i], i, job, now.value.at, seen);
      FollowsTransitive(old(world.Trail()), between, world.Trail());
    }

    /** Lines 59 to 69: preflight, then publish each cancellation. */
    method CancelAll(s: Session, ghost doc: CancellationOperation, ghost job: Job) returns (ok: bool)
      requires Wired() && Held(s, doc) && About(s, job)
      modifies s, world
      ensures Follows(old(world.Trail()), world.Trail()) && Held(s, doc)
      ensures old(AtCancel(Within(), SceneOf(s), job, 0)) ==>
                && (ok <==> old(Affords(SceneOf(s), job)))
                && (ok ==> AtCancel(Within(), SceneOf(s), job, |job.doc.cancellations|))
                && (ok ==> Goal(SceneOf(s), job) == old(Goal(SceneOf(s), job)))
                && (ok ==> FitsGrants(SceneOf(s), job) == old(FitsGrants(SceneOf(s), job)))
    {
      hide LegalRun, Legal, Verdict, CaseAt, Active, Exec, BoundTo, Orderly, FaithfulBytes, Held, HeldPlan, World.Valid,
           Session.Valid, AtCancel, Acted, Goal, Smooth, SceneOf, Newest, Finds, Comparable, Session.Ahead, World.Calm,
           Follows, World.Trail, Affords, FitsGrants, Within;
      if AtCancel(Within(), SceneOf(s), job, 0) {
        CancelFinds(Within(), SceneOf(s), job, 0);
        SameDocument(s, doc, job);
        CalmSession(s, doc, job);
      }
      var preflight, seen := Examine(s, doc, job.plan, job, CancellationPreflight, None);
      HeldFacts(s, doc);
      if preflight.None? {
        return false;
      }
      var records := preflight.value.about.saved.cancellations;
      for i := 0 to |records|
        invariant Follows(old(world.Trail()), world.Trail()) && Held(s, doc)
        invariant old(AtCancel(Within(), SceneOf(s), job, 0)) ==>
                    && AtCancel(Within(), SceneOf(s), job, i) && Goal(SceneOf(s), job) == old(Goal(SceneOf(s), job))
                    && FitsGrants(SceneOf(s), job) == old(FitsGrants(SceneOf(s), job))
                    && (i < |records| ==> Affords(SceneOf(s), job) == old(Affords(SceneOf(s), job)))
                    && (i == |records| ==> old(Affords(SceneOf(s), job)))
      {
        ghost var before := world.Trail();
        var published := CancelOne(s, doc, records, i, job);
        FollowsTransitive(old(world.Trail()), before, world.Trail());
        if !published {
          return false;
        }
      }
      return true;
    }

    /** Lines 57 to 72: bring the cancellations into the journal and see the old access gone. */
    method CancelPhase(s: Session, ghost doc: CancellationOperation, ghost job: Job) returns (ok: bool)
      requires Wired() && Held(s, doc) && About(s, job)
      modifies s, world
      ensures Follows(old(world.Trail()), world.Trail()) && Held(s, doc)
      ensures old(Smooth(Within(), SceneOf(s), job)) ==>
                && (ok <==> old(FitsCancels(SceneOf(s), job)))
                && (ok ==> Canceled(Within(), SceneOf(s), job) && Goal(SceneOf(s), job) == old(Goal(SceneOf(s), job)))
                && (ok ==> FitsGrants(SceneOf(s), job) == old(FitsGrants(SceneOf(s), job)))
      ensures ok ==> Durable(doc, world.Trail())
    {
      hide LegalRun, Legal, Verdict, CaseAt, Active, Exec, BoundTo, Orderly, FaithfulBytes, Held, HeldPlan, World.Valid,
           Durable, Session.Valid, AtCancel, Acted, Goal, Smooth, Canceled, SceneOf, Newest, Finds, Comparable,
           Session.Ahead, World.Calm, Follows, World.Trail, Affords, FitsCancels, FitsGrants;
      if Smooth(Within(), SceneOf(s), job) {
        SameDocument(s, doc, job);
        CancelBegins(Within(), SceneOf(s), job);
        CalmSession(s, doc, job);
      }
      var canceled, seen := Examine(s, doc, job.plan, job, Reconciling, None);
      if canceled.Some? {
        FoundDurable(s, doc, canceled.value, seen);
        return true;
      }
      ghost var first := world.Trail();
      ok := CancelAll(s, doc, job);
      ghost var second := world.Trail();
      FollowsTransitive(old(world.Trail()), first, second);
      if !ok {
        return false;
      }
      if AtCancel(Within(), SceneOf(s), job, |job.doc.cancellations|) {
        CancelFinds(Within(), SceneOf(s), job, |job.doc.cancellations|);
        CancelEnds(Within(), SceneOf(s), job);
        CalmSession(s, doc, job);
      }
      canceled, seen := Examine(s, doc, job.plan, job, Reconciling, None);
      FollowsTransitive(old(world.Trail()), second, world.Trail());
      if canceled.Some? {
        FoundDurable(s, doc, canceled.value, seen);
      }
      return canceled.Some?;
    }

    /** What a durable check of the cancellations found is there from then on. */
    lemma FoundDurable(s: Session, doc: CancellationOperation, e: Evaluation, seen: nat)
      requires Wired() && Held(s, doc) && seen <= world.etag
      requires CaseAt(world.shelf, outbox.forum, outbox.agent, s.id, None) == Some(e.about)
      requires Verdict(world.cfg, Reconciling, e.about, world.log[seen].rows, e.at) == None
      ensures Durable(doc, world.Trail())
    {
      hide CaseAt, Verdict, LegalRun, Orderly, DocumentAt, PlanAt, BoundTo;
      HeldFacts(s, doc);
      VerdictMeans(world.cfg, Reconciling, e.about, world.log[seen].rows, e.at);
      assert CancellationsPresent(Reconciling, e.about, Elements(world.log[seen].rows));
      RowsStay(world.cfg, world.log, seen, world.etag);
    }

    /** Begin the replacement phase on a held session with a bound plan. */
    method Enter(s: Session, ghost doc: CancellationOperation, ghost plan: GrantPlan, ghost at: nat, ghost seen: nat)
      returns (ok: bool)
      requires HeldPlan(s, doc, plan) && s.etag <= seen <= world.etag
      requires seen == s.etag ==> Legal(world.cfg, world.log[seen], Command.Begin(s.actor, s.id, s.to), at)
      modifies s, world
      ensures Follows(old(world.Trail()), world.Trail()) && HeldPlan(s, doc, plan)
      ensures var c := Command.Begin(s.actor, s.id, s.to);
              old(s.Ahead()) && !Exec(old(world.state), c).Refused? ==> ok && SceneOf(s) == Acted(old(SceneOf(s)), c)
    {
      ghost var c := Command.Begin(s.actor, s.id, s.to);
      hide LegalRun, Legal, DocumentAt, PlanAt, Active, After, Exec, BoundTo, PlanBoundTo, Orderly, FaithfulBytes;
      KeepsBound(world.log[s.etag], c, doc, plan);
      ok := s.Begin(at, seen);
      LoadsAgree(old(world.shelf), world.shelf, outbox.forum, outbox.agent, s.id, s.to);
    }

    /** Publish a grant whose preflight succeeded on version `seen`. */
    method PublishGrant(s: Session, ghost doc: CancellationOperation, plan: GrantPlan, i: nat, ghost job: Job,
                        ghost at: nat, ghost seen: nat)
      returns (ok: bool)
      requires Wired() && HeldPlan(s, doc, plan) && About(s, job) && i < |plan.grants| && s.etag <= seen <= world.etag
      requires seen == s.etag ==>
                 Legal(world.cfg, world.log[seen],
                       Command.Publish(s.actor, s.id, s.to, Replacing, plan.grants[i]), at)
      modifies s, world
      ensures Follows(old(world.Trail()), world.Trail()) && HeldPlan(s, doc, plan)
      ensures old(AtGrant(Within(), SceneOf(s), job, i) &&
                  Finds(Within(), SceneOf(s), job, ReplacementPreflight, Some(s.to))) ==>
              ok && GrantDone(Within(), old(SceneOf(s)), SceneOf(s), job, i, ok)
    {
      hide LegalRun, Legal, Verdict, CaseAt, Active, Exec, BoundTo, PlanBoundTo, Orderly, FaithfulBytes, Held, HeldPlan,
           World.Valid, Session.Valid, AtGrant, Acted, Goal, Smooth, SceneOf, Newest, Finds, Comparable, Session.Ahead,
           World.Calm, Follows, World.Trail, GrantDone, Stocked, Within;
      HeldPlanFacts(s, doc, plan);
      if AtGrant(Within(), SceneOf(s), job, i) &&
         Finds(Within(), SceneOf(s), job, ReplacementPreflight, Some(s.to)) {
        GrantFinds(Within(), SceneOf(s), job, i);
        SamePlan(s, doc, plan, job);
        CalmSession(s, doc, job);
        GrantGoesOn(Within(), SceneOf(s), job, i);
      }
      ok := Send(s, doc, plan, Replacing, plan.grants[i], at, seen);
    }

    /** Preflight again, then publish one grant. */
    method GrantOne(s: Session, ghost doc: CancellationOperation, plan: GrantPlan, i: nat, ghost job: Job)
      returns (ok: bool)
      requires Wired() && HeldPlan(s, doc, plan) && About(s, job) && i < |plan.grants|
      modifies s, world
      ensures Follows(old(world.Trail()), world.Trail()) && HeldPlan(s, doc, plan)
      ensures old(AtGrant(Within(), SceneOf(s), job, i)) ==>
              GrantDone(Within(), old(SceneOf(s)), SceneOf(s), job, i, ok)
    {
      ghost var c := Command.Publish(s.actor, s.id, s.to, Replacing, plan.grants[i]);
      hide LegalRun, Legal, Verdict, CaseAt, Active, Exec, BoundTo, PlanBoundTo, Orderly, FaithfulBytes, Held, HeldPlan,
           World.Valid, Session.Valid, AtGrant, Acted, Goal, Smooth, SceneOf, Newest, Finds, Comparable, Session.Ahead,
           World.Calm, Follows, World.Trail, GrantDone, Stocked, Within;
      ghost var before := SceneOf(s);
      HeldPlanFacts(s, doc, plan);
      if AtGrant(Within(), SceneOf(s), job, i) {
        GrantFinds(Within(), SceneOf(s), job, i);
        SamePlan(s, doc, plan, job);
        CalmSession(s, doc, job);
      }
      var now, seen := Check(s, doc, plan, job, ReplacementPreflight, Some(s.to));
      ghost var between := world.Trail();
      HeldPlanFacts(s, doc, plan);
      if now.None? || now.value.about.grants != plan.grants {
        if AtGrant(Within(), before, job, i) {
          GrantStops(Within(), before, SceneOf(s), job, i);
        }
        return false;
      }
      if seen == s.etag {
        GrantIsLegal(world.cfg, world.log[seen], doc, plan, c, now.value.at);
      }
      ok := PublishGrant(s, doc, plan, i, job, now.value.at, seen);
      FollowsTransitive(old(world.Trail()), between, world.Trail());
    }

    /** Lines 85 to 93: enter the replacement phase and publish each grant. */
    method GrantAll(s: Session, ghost doc: CancellationOperation, plan: GrantPlan, ghost job: Job) returns (ok: bool)
      requires Wired() && HeldPlan(s, doc, plan) && About(s, job)
      modifies s, world
      ensures Follows(old(world.Trail()), world.Trail()) && HeldPlan(s, doc, plan)
      ensures old(AtGrant(Within(), SceneOf(s), job, 0)) ==>
                && (ok <==> old(AffordsGrants(SceneOf(s), job)))
                && (ok ==> Granted(Within(), SceneOf(s), job) && Goal(SceneOf(s), job) == old(Goal(SceneOf(s), job)))
    {
      hide LegalRun, Legal, Verdict, CaseAt, Active, Exec, BoundTo, PlanBoundTo, Orderly, FaithfulBytes, Held, HeldPlan,
           World.Valid, Session.Valid, AtGrant, Granted, Acted, Goal, Smooth, SceneOf, Newest, Finds, Comparable,
           Session.Ahead, World.Calm, Follows, World.Trail, AffordsGrants, Stocked;
      FollowsReflexive(world.Trail());
      if AtGrant(Within(), SceneOf(s), job, 0) {
        GrantFinds(Within(), SceneOf(s), job, 0);
        SamePlan(s, doc, plan, job);
      }
      for i := 0 to |plan.grants|
        invariant Follows(old(world.Trail()), world.Trail()) && HeldPlan(s, doc, plan)
        invariant old(AtGrant(Within(), SceneOf(s), job, 0)) ==>
                    && AtGrant(Within(), SceneOf(s), job, i) && Goal(SceneOf(s), job) == old(Goal(SceneOf(s), job))
                    && (i < |plan.grants| ==> AffordsGrants(SceneOf(s), job) == old(AffordsGrants(SceneOf(s), job)))
                    && (i == |plan.grants| ==> old(AffordsGrants(SceneOf(s), job)))
      {
        ghost var before := world.Trail();
        var published := GrantOne(s, doc, plan, i, job);
        FollowsTransitive(old(world.Trail()), before, world.Trail());
        if !published {
          return false;
        }
      }
      if AtGrant(Within(), SceneOf(s), job, |plan.grants|) && job.plan == plan {
        GrantEnds(Within(), SceneOf(s), job);
      }
      return true;
    }

    /** Lines 81 to 85: preflight, then enter the irreversible phase. */
    method OpenReplacement(s: Session, ghost doc: CancellationOperation, plan: GrantPlan, ghost job: Job)
      returns (ok: bool)
      requires Wired() && HeldPlan(s, doc, plan) && About(s, job)
      modifies s, world
      ensures Follows(old(world.Trail()), world.Trail()) && HeldPlan(s, doc, plan)
      ensures old(Planned(Within(), SceneOf(s), job) &&
                  !Finds(Within(), SceneOf(s), job, Reconciling, Some(job.to))) ==>
                && (old(AffordsGrants(SceneOf(s), job)) ==> ok)
                && (ok ==> AtGrant(Within(), SceneOf(s), job, 0) && Goal(SceneOf(s), job) == old(Goal(SceneOf(s), job)))
                && (ok ==> AffordsGrants(SceneOf(s), job) == old(AffordsGrants(SceneOf(s), job)))
    {
      ghost var c := Command.Begin(s.actor, s.id, s.to);
      hide LegalRun, Legal, Verdict, CaseAt, Active, Exec, BoundTo, PlanBoundTo, Orderly, FaithfulBytes, Held, HeldPlan,
           World.Valid, Session.Valid, AtGrant, Planned, Acted, Goal, Smooth, SceneOf, Newest, Finds, Comparable,
           Session.Ahead, World.Calm, Follows, World.Trail, Missing, AffordsGrants, FitsGrants, Stocked, Within;
      HeldPlanFacts(s, doc, plan);
      if Planned(Within(), SceneOf(s), job) {
        PlannedIsSmooth(Within(), SceneOf(s), job);
        GrantBegins(Within(), SceneOf(s), job);
        SamePlan(s, doc, plan, job);
        CalmSession(s, doc, job);
      }
      var preflight, seen := Examine(s, doc, plan, job, ReplacementPreflight, Some(s.to));
      ghost var between := world.Trail();
      HeldPlanFacts(s, doc, plan);
      if preflight.None? || preflight.value.about.grants != plan.grants {
        return false;
      }
      if seen == s.etag {
        GrantIsLegal(world.cfg, world.log[seen], doc, plan, c, preflight.value.at);
      }
      if Planned(Within(), SceneOf(s), job) && !Finds(Within(), SceneOf(s), job, Reconciling, Some(job.to)) {
        PlannedIsSmooth(Within(), SceneOf(s), job);
        GrantBegins(Within(), SceneOf(s), job);
        CalmSession(s, doc, job);
        BeginActs(Within(), SceneOf(s), job);
      }
      ok := Enter(s, doc, plan, preflight.value.at, seen);
      FollowsTransitive(old(world.Trail()), between, world.Trail());
    }

    /** Lines 79 to 94: unless the plan is already effective, publish it. */
    method GrantPhase(s: Session, ghost doc: CancellationOperation, plan: GrantPlan, ghost job: Job) returns (ok: bool)
      requires Wired() && HeldPlan(s, doc, plan) && About(s, job)
      modifies s, world
      ensures Follows(old(world.Trail()), world.Trail()) && HeldPlan(s, doc, plan)
      ensures old(Planned(Within(), SceneOf(s), job)) ==>
                && (ok <==> old(FitsGrants(SceneOf(s), job)))
                && (ok ==> Granted(Within(), SceneOf(s), job) && Goal(SceneOf(s), job) == old(Goal(SceneOf(s), job)))
    {
      hide LegalRun, Verdict, CaseAt, Active, BoundTo, PlanBoundTo, Orderly, FaithfulBytes, Held, HeldPlan, World.Valid,
           Session.Valid, AtGrant, Granted, Planned, Goal, Smooth, SceneOf, Newest, Finds, Comparable, Session.Ahead,
           World.Calm, Follows, World.Trail, Missing, AffordsGrants, FitsGrants, Stocked, Within;
      HeldPlanFacts(s, doc, plan);
      if Planned(Within(), SceneOf(s), job) {
        PlannedIsSmooth(Within(), SceneOf(s), job);
        GrantBegins(Within(), SceneOf(s), job);
        CalmSession(s, doc, job);
      }
      var access, seen := Examine(s, doc, plan, job, Reconciling, Some(s.to));
      ghost var first := world.Trail();
      if access.Some? {
        return true;
      }
      ok := OpenReplacement(s, doc, plan, job);
      ghost var second := world.Trail();
      FollowsTransitive(old(world.Trail()), first, second);
      if !ok {
        return false;
      }
      ok := GrantAll(s, doc, plan, job);
      FollowsTransitive(old(world.Trail()), second, world.Trail());
    }

    /** Bind the plan on a held session. */
    method Bind(s: Session, ghost doc: CancellationOperation, plan: GrantPlan) returns (ok: bool)
      requires Wired() && Held(s, doc) && PlanAt(world.shelf, outbox.forum, outbox.agent, s.id, s.to) == Found(plan)
      requires Legal(world.cfg, world.log[s.etag], Command.BindPlan(s.actor, s.id, s.to, OfGrants(plan)), 0)
      modifies s, world
      ensures Follows(old(world.Trail()), world.Trail()) && Held(s, doc) && (ok ==> HeldPlan(s, doc, plan))
      ensures var c := Command.BindPlan(s.actor, s.id, s.to, OfGrants(plan));
              old(s.Ahead()) && !Exec(old(world.state), c).Refused? ==> ok && SceneOf(s) == Acted(old(SceneOf(s)), c)
    {
      ghost var c := Command.BindPlan(s.actor, s.id, s.to, OfGrants(plan));
      hide LegalRun, Legal, DocumentAt, PlanAt, Active, After, Exec, BoundTo, PlanBoundTo, Orderly, FaithfulBytes;
      KeepsBound(world.log[s.etag], c, doc, plan);
      BindsPlan(world.log[s.etag], c, plan);
      ok := s.BindPlan(OfGrants(plan), 0);
      LoadsAgree(old(world.shelf), world.shelf, outbox.forum, outbox.agent, s.id, s.to);
    }

    lemma HeldPlanLegal(s: Session, doc: CancellationOperation, plan: GrantPlan)
      requires Held(s, doc) && PlanAt(world.shelf, outbox.forum, outbox.agent, s.id, s.to) == Found(plan)
      ensures Legal(world.cfg, world.log[s.etag], Command.BindPlan(s.actor, s.id, s.to, OfGrants(plan)), 0)
    {
      FoundIsPlanned(world.shelf, outbox.forum, outbox.agent, s.id, s.to);
      PlanIsLegal(world.cfg, world.log[s.etag], doc, plan, Command.BindPlan(s.actor, s.id, s.to, OfGrants(plan)), 0);
    }

    lemma SmoothPlan(s: Session, doc: CancellationOperation, plan: GrantPlan, job: Job)
      requires Held(s, doc) && About(s, job) && PlanAt(world.shelf, outbox.forum, outbox.agent, s.id, s.to) ==
               Found(plan)
      ensures Smooth(Within(), SceneOf(s), job) ==> job.doc == doc
      ensures Smooth(Within(), SceneOf(s), job) && Stocked(Within(), world.shelf, job) ==> job.plan == plan
    {
      hide OnTrack;
    }

    lemma ShelfOfScene(s: Session)
      ensures SceneOf(s).shelf == world.shelf && SceneOf(s).log == world.log
    {
    }

    /** Line 78: bind the plan that the shelf holds. */
    method BindPhase(s: Session, ghost doc: CancellationOperation, plan: GrantPlan, ghost job: Job) returns (ok: bool)
      requires Wired() && Held(s, doc) && About(s, job) &&
               PlanAt(world.shelf, outbox.forum, outbox.agent, s.id, s.to) == Found(plan)
      modifies s, world
      ensures Follows(old(world.Trail()), world.Trail()) && Held(s, doc) && (ok ==> HeldPlan(s, doc, plan))
      ensures old(Supplied(Within(), SceneOf(s), job)) ==>
                && ok && Planned(Within(), SceneOf(s), job) && Goal(SceneOf(s), job) == old(Goal(SceneOf(s), job))
                && FitsGrants(SceneOf(s), job) == old(FitsGrants(SceneOf(s), job))
    {
      hide LegalRun, Legal, Active, Exec, BoundTo, PlanBoundTo, PlanAt, Orderly, FaithfulBytes, Held, HeldPlan,
           World.Valid, Session.Valid, Planned, Supplied, Canceled, Acted, Goal, Smooth, SceneOf, Newest, Session.Ahead,
           World.Calm, Follows, World.Trail, FitsGrants;
      HeldPlanLegal(s, doc, plan);
      if Supplied(Within(), SceneOf(s), job) {
        SuppliedIsStocked(Within(), SceneOf(s), job);
        ShelfOfScene(s);
        PlannedIsSmooth(Within(), SceneOf(s), job);
        SmoothPlan(s, doc, plan, job);
        CalmSession(s, doc, job);
        PlanActs(Within(), SceneOf(s), job);
      }
      ok := Bind(s, doc, plan);
    }

    method LoadPlan(s: Session, ghost doc: CancellationOperation) returns (r: Load<GrantPlan>)
      requires Wired() && Held(s, doc)
      modifies world
      ensures Follows(old(world.Trail()), world.Trail()) && Held(s, doc)
      ensures r.Found? ==> r == PlanAt(world.shelf, outbox.forum, outbox.agent, s.id, s.to)
      ensures old(s.Ahead()) ==>
              r == PlanAt(world.shelf, outbox.forum, outbox.agent, s.id, s.to) && SceneOf(s) == old(SceneOf(s))
    {
      hide LegalRun, DocumentAt, PlanAt, Active, BoundTo, Orderly, FaithfulBytes;
      r := plans.Load(s.id, s.to);
      LoadsAgree(old(world.shelf), world.shelf, outbox.forum, outbox.agent, s.id, s.to);
      assert world.log[s.etag] == old(world.log[s.etag]);
    }

    /** The grants that would be planned for the newest version. */
    function GrantsNow(to: Key): seq<Row>
      reads world
    {
      DirectRows(signer, world.state.rows, world.state.destinations, to, true, world.clock)
    }

    /** Lines 137 to 143 of the runtime: grant what the old assignee was meant to have, on top
        of the rows of some version. Undisturbed, the plan is the one for the newest version. */
    method PrepareReplacement(id: OperationId, to: Key) returns (ok: bool, ghost seen: nat)
      requires Wired() && world.Valid()
      modifies world
      ensures world.Valid() && Follows(old(world.Trail()), world.Trail())
      ensures ok ==>
                && old(world.etag) <= seen <= world.etag && world.log[seen].operation.Some?
                && world.log[seen].operation.value.grantDigest == None
                && PlanAt(world.shelf, outbox.forum, outbox.agent, id, to).Found?
                && DirectPlan(PlanAt(world.shelf, outbox.forum, outbox.agent, id, to).value.grants,
                              world.log[seen].rows, world.log[seen].destinations, to, true)
      ensures old(world.Calm()) ==> world.ShelfOnly()
      ensures old(world.Calm() && world.state.operation.Some? && world.state.operation.value.grantDigest == None
                  && StatesLeft(world.state.rows, to) && plans.Plannable(world.shelf, id, to, GrantsNow(to))) ==>
                && ok && world.shelf ==
                   old(world.shelf).(plans :=
                                     old(world.shelf).plans[id :=
                                                            old(plans.PlanRequest(world.shelf, id, to, GrantsNow(to)))])
    {
      hide LegalRun, Orderly, FaithfulBytes, Follows, StatesLeft, DirectPlan, ReplacementOutbox.Plannable,
           ReplacementOutbox.PlanRequest, DirectRows;
      var alive := world.Await();
      ghost var first := world.Trail();
      var state := world.state;
      seen := world.etag;
      if !alive || state.operation.None? || state.operation.value.grantDigest.Some? {
        return false, seen;
      }
      var grants := PlanDirect(world, signer, state.rows, state.destinations, to, true);
      ghost var second := world.Trail();
      FollowsTransitive(old(world.Trail()), first, second);
      if grants.None? {
        return false, seen;
      }
      var plan := plans.Prepare(id, to, grants.value);
      FollowsTransitive(old(world.Trail()), second, world.Trail());
      FollowsTransitive(first, second, world.Trail());
      EarlierVersion(first, world.Trail(), seen);
      return plan.Some?, seen;
    }

    /** What the shelf holds after a smooth scene's plan was prepared. */
    ghost predicate Restocked(before: Scene, after: Scene, job: Job) {
      after == before.(shelf := after.shelf) && Stocked(Within(), after.shelf, job)
      && DocumentAt(after.shelf, outbox.forum, outbox.agent, job.id) == DocumentAt(before.shelf, outbox.forum,
         outbox.agent, job.id)
    }

    lemma ProspectIsPlannable(s: Session, doc: CancellationOperation, job: Job)
      requires Wired() && Held(s, doc) && About(s, job) && Canceled(Within(), SceneOf(s), job) &&
               !Stocked(Within(), world.shelf, job)
      ensures world.state.operation.Some? && world.state.operation.value.grantDigest == None &&
              StatesLeft(world.state.rows, s.to)
      ensures plans.Plannable(world.shelf, s.id, s.to, GrantsNow(s.to)) &&
              plans.PlanRequest(world.shelf, s.id, s.to, GrantsNow(s.to)) == job.plan
      ensures world.Calm() && s.Ahead() && GrantsNow(s.to) == job.plan.grants
    {
      hide DirectRows, ValidGrants, Missing, RowsReady, JournalRoom, Inv, LegalRun;
      CalmSession(s, doc, job);
      forall g | g in job.plan.grants ensures g.Direct? && g.accessor == s.to &&
             g.target in job.doc.fence.destinations {
        assert Candidate(g, job.doc.replacement, job.doc.fence.destinations);
      }
    }

    lemma PreparedIsStocked(before: Shelf, after: Shelf, job: Job)
      requires plans.Plannable(before, job.id, job.to, job.plan.grants) && Wired()
      requires plans.PlanRequest(before, job.id, job.to, job.plan.grants) == job.plan
      requires after == before.(plans := before.plans[job.id := job.plan])
      ensures Stocked(Within(), after, job)
      ensures DocumentAt(after, outbox.forum, outbox.agent, job.id) == DocumentAt(before, outbox.forum, outbox.agent,
              job.id)
    {
      hide ValidDocument, ValidGrants;
    }

    method PreparePlan(s: Session, ghost doc: CancellationOperation, ghost job: Job) returns (ok: bool)
      requires Wired() && Held(s, doc) && About(s, job)
      modifies world
      ensures Follows(old(world.Trail()), world.Trail()) && Held(s, doc)
      ensures old(Canceled(Within(), SceneOf(s), job) && !Stocked(Within(), world.shelf, job)) ==>
                ok && Restocked(old(SceneOf(s)), SceneOf(s), job)
    {
      hide LegalRun, DocumentAt, PlanAt, Active, BoundTo, Orderly, FaithfulBytes, Canceled, Stocked, DirectRows,
           StatesLeft, DirectPlan, ReplacementOutbox.Plannable, ReplacementOutbox.PlanRequest;
      ghost var due := Canceled(Within(), SceneOf(s), job) && !Stocked(Within(), world.shelf, job);
      if due {
        ProspectIsPlannable(s, doc, job);
      }
      ghost var seen;
      ok, seen := PrepareReplacement(s.id, s.to);
      if due {
        PreparedIsStocked(old(world.shelf), world.shelf, job);
      }
      LoadsAgree(old(world.shelf), world.shelf, outbox.forum, outbox.agent, s.id, s.to);
      assert world.log[s.etag] == old(world.log[s.etag]);
    }

    lemma RestockedIsSupplied(before: Scene, after: Scene, job: Job)
      requires Canceled(Within(), before, job) && Restocked(before, after, job)
      ensures Supplied(Within(), after, job) && Goal(after, job) == Goal(before, job) &&
              FitsGrants(after, job) == FitsGrants(before, job)
    {
      hide OnTrack, DocumentAt, PlanAt, Missing, Target;
    }

    lemma StockedIsRestocked(before: Scene, job: Job)
      requires Canceled(Within(), before, job) && Stocked(Within(), before.shelf, job)
      ensures Restocked(before, before, job)
    {
    }

    lemma UnstockedIsAbsent(s: Session, job: Job)
      requires Canceled(Within(), SceneOf(s), job) && About(s, job)
      ensures if Stocked(Within(), world.shelf, job) then PlanAt(world.shelf, outbox.forum, outbox.agent, s.id, s.to) ==
              Found(job.plan)
              else PlanAt(world.shelf, outbox.forum, outbox.agent, s.id, s.to).Absent?
    {
      hide OnTrack, Missing;
    }

    /** Lines 74 to 77: the plan on the shelf, prepared now if there is none. */
    method ObtainPlan(s: Session, ghost doc: CancellationOperation, ghost job: Job) returns (plan: Option<GrantPlan>)
      requires Wired() && Held(s, doc) && About(s, job)
      modifies world
      ensures Follows(old(world.Trail()), world.Trail()) && Held(s, doc)
      ensures plan.Some? ==> PlanAt(world.shelf, outbox.forum, outbox.agent, s.id, s.to) == Found(plan.value)
      ensures old(Canceled(Within(), SceneOf(s), job)) ==>
                && plan == Some(job.plan) && Supplied(Within(), SceneOf(s), job)
                && Goal(SceneOf(s), job) == old(Goal(SceneOf(s), job)) &&
                   FitsGrants(SceneOf(s), job) == old(FitsGrants(SceneOf(s), job))
    {
      hide LegalRun, DocumentAt, PlanAt, Active, BoundTo, Orderly, FaithfulBytes, Held, World.Valid, Session.Valid,
           Canceled, Supplied, Smooth, SceneOf, Session.Ahead, Follows, World.Trail, Stocked, Restocked, Goal,
           FitsGrants;
      ghost var before := SceneOf(s);
      ghost var due := Canceled(Within(), before, job);
      if due {
        PlannedIsSmooth(Within(), SceneOf(s), job);
        CalmSession(s, doc, job);
      }
      var active := Assert(s, doc, job.plan);
      if !active {
        return None;
      }
      ghost var first := world.Trail();
      var saved := LoadPlan(s, doc);
      ghost var second := world.Trail();
      FollowsTransitive(old(world.Trail()), first, second);
      if due {
        UnstockedIsAbsent(s, job);
      }
      if saved.Broken? {
        return None;
      }
      if due && saved.Found? {
        ShelfOfScene(s);
        StockedIsRestocked(before, job);
      }
      if saved.Absent? {
        var prepared := PreparePlan(s, doc, job);
        ghost var third := world.Trail();
        FollowsTransitive(old(world.Trail()), second, third);
        if !prepared {
          return None;
        }
      }
      ghost var fourth := world.Trail();
      if due {
        RestockedIsSupplied(before, SceneOf(s), job);
        PlannedIsSmooth(Within(), SceneOf(s), job);
        CalmSession(s, doc, job);
        SuppliedIsStocked(Within(), SceneOf(s), job);
        ShelfOfScene(s);
      }
      saved := LoadPlan(s, doc);
      FollowsTransitive(old(world.Trail()), fourth, world.Trail());
      if due {
        ShelfOfScene(s);
        UnstockedIsAbsent(s, job);
      }
      return if saved.Found? then Some(saved.value) else None;
    }

    lemma CommitLegal(s: State, doc: CancellationOperation, plan: GrantPlan, e: Evaluation, evidence: Evidence,
                      actor: Key, id: OperationId, to: Key)
      requires BoundTo(s, doc) && PlanBoundTo(s, plan) && evidence.evaluatedAt == e.at
      requires e.about == Case(doc, doc.replacement, plan.grants, doc.fence.destinations)
      requires Verdict(world.cfg, Reconciling, e.about, s.rows, e.at) == None
      ensures forall now :: Legal(world.cfg, s, Command.Commit(actor, id, to, evidence, now), e.at)
    {
      hide Verdict;
      forall now ensures Legal(world.cfg, s, Command.Commit(actor, id, to, evidence, now), e.at) {
        CommitIsLegal(world.cfg, s, doc, plan, Command.Commit(actor, id, to, evidence, now), e.at);
      }
    }

    /** Lines 95 to 105: the final check, and the commit of exactly what it saw. */
    method CommitPhase(s: Session, ghost doc: CancellationOperation, ghost plan: GrantPlan, ghost job: Job)
      returns (receipt: Option<Receipt>)
      requires Wired() && HeldPlan(s, doc, plan) && About(s, job)
      modifies s, world
      ensures world.Valid() && Follows(old(world.Trail()), world.Trail())
      ensures receipt.Some? ==> HasReceipt(world.state, s.id, receipt.value)
      ensures old(Granted(Within(), SceneOf(s), job)) ==>
                receipt.Some? && Done(job, world.state) && Elements(world.state.rows) == old(Goal(SceneOf(s), job))
    {
      hide LegalRun, Legal, Verdict, CaseAt, Active, Exec, BoundTo, PlanBoundTo, Orderly, FaithfulBytes, Held, HeldPlan,
           World.Valid, Session.Valid, Session.Ahead, World.Calm, Granted, Acted, Goal, Smooth, SceneOf, Newest, Finds,
           Comparable, Follows, World.Trail, Done, HasReceipt;
      HeldPlanFacts(s, doc, plan);
      if Granted(Within(), SceneOf(s), job) {
        PlannedIsSmooth(Within(), SceneOf(s), job);
        CommitActs(Within(), SceneOf(s), job);
        CalmSession(s, doc, job);
      }
      var access, seen := Check(s, doc, plan, job, Reconciling, Some(s.to));
      ghost var between := world.Trail();
      HeldPlanFacts(s, doc, plan);
      HeldFacts(s, doc);
      if access.None? {
        return None;
      }
      var evidence := Evidence(s.id, s.to, access.value.at);
      if seen == s.etag {
        CommitLegal(world.log[seen], doc, plan, access.value, evidence, s.actor, s.id, s.to);
      }
      if Granted(Within(), SceneOf(s), job) {
        PlannedIsSmooth(Within(), SceneOf(s), job);
        CalmSession(s, doc, job);
        CommitActs(Within(), SceneOf(s), job);
      }
      receipt := Finish(s, doc, evidence, seen);
      FollowsTransitive(old(world.Trail()), between, world.Trail());
    }

    method Finish(s: Session, ghost doc: CancellationOperation, evidence: Evidence, ghost seen: nat)
      returns (receipt: Option<Receipt>)
      requires Held(s, doc) && s.etag <= seen <= world.etag
      requires seen == s.etag ==> forall now ::
               Legal(world.cfg, world.log[seen], Command.Commit(s.actor, s.id, s.to, evidence, now),
                     evidence.evaluatedAt)
      modifies s, world
      ensures world.Valid() && Follows(old(world.Trail()), world.Trail())
      ensures receipt.Some? ==> HasReceipt(world.state, s.id, receipt.value)
      ensures var c := Command.Commit(s.actor, s.id, s.to, evidence, old(world.clock));
              old(s.Ahead()) && Exec(old(world.state), c).Written? ==>
                receipt.Some? && world.state == After(old(world.state), c)
    {
      hide LegalRun, Legal, Active, BoundTo, Orderly, FaithfulBytes, DocumentAt;
      receipt := s.Commit(evidence, seen);
      if receipt.Some? {
        ReceiptStays(world.cfg, world.log, s.etag, world.etag, s.id, receipt.value);
      }
    }

    lemma OpenedSmooth(s: Session, doc: CancellationOperation, job: Job)
      requires Wired() && Opened(s, doc) && About(s, job)
      ensures Smooth(Within(), SceneOf(s), job) ==>
              Held(s, doc) && s.Ahead() && FoundFor(world.shelf, outbox.forum, outbox.agent, s.id, s.to)
    {
    }

    /** Lines 55 and 56: the session is active, and the document intends its replacement. */
    method LoadIntent(s: Session, ghost doc: CancellationOperation, ghost job: Job) returns (ok: bool)
      requires Wired() && Opened(s, doc) && About(s, job)
      modifies world
      ensures world.Valid() && Follows(old(world.Trail()), world.Trail()) && (ok ==> Held(s, doc))
      ensures old(Smooth(Within(), SceneOf(s), job)) ==> ok && SceneOf(s) == old(SceneOf(s))
    {
      hide LegalRun, DocumentAt, Active, BoundTo, Orderly, FaithfulBytes, Smooth, ValidDocument;
      OpenedSmooth(s, doc, job);
      var current := s.Current();
      ghost var first := world.Trail();
      if current.None? {
        return false;
      }
      var intent := outbox.LoadReassignment(s.id, s.to);
      FollowsTransitive(old(world.Trail()), first, world.Trail());
      LoadsAgree(old(world.shelf), world.shelf, outbox.forum, outbox.agent, s.id, s.to);
      assert world.log[s.etag] == old(world.log[s.etag]);
      return intent.Some?;
    }

    /** The body of the session: every stage in turn (lines 55 to 105). */
    method Work(s: Session, ghost doc: CancellationOperation, ghost job: Job) returns (result: RunResult)
      requires Wired() && Opened(s, doc) && About(s, job)
      modifies s, world
      ensures world.Valid() && Follows(old(world.Trail()), world.Trail())
      ensures result.Completed? ==> HasReceipt(world.state, s.id, result.receipt) && result.receipt.replacement == s.to
      ensures old(Smooth(Within(), SceneOf(s), job)) ==>
                && (!old(FitsCancels(SceneOf(s), job)) ==> result == PendingAt(CancellationStage))
                && (old(FitsCancels(SceneOf(s), job)) && !old(FitsGrants(SceneOf(s), job)) ==>
                    result == PendingAt(ReplacementStage))
                && (old(FitsCancels(SceneOf(s), job)) && old(FitsGrants(SceneOf(s), job)) ==>
                    && result.Completed? && Done(job, world.state)
                    && Elements(world.state.rows) == old(Goal(SceneOf(s), job)))
      ensures result != PendingAt(CancellationStage) ==> Durable(doc, world.Trail())
    {
      hide LegalRun, BoundTo, PlanBoundTo, Orderly, FaithfulBytes, Opened, Held, HeldPlan, World.Valid, Session.Valid,
           Durable, Session.Ahead, World.Calm, Granted, Planned, Canceled, Goal, Smooth, SceneOf, Follows, World.Trail,
           Done, HasReceipt, PlanAt, DocumentAt, FitsCancels, FitsGrants;
      var ok := LoadIntent(s, doc, job);
      ghost var a := world.Trail();
      if !ok {
        return PendingAt(CancellationStage);
      }
      ok := CancelPhase(s, doc, job);
      HeldFacts(s, doc);
      ghost var b := world.Trail();
      FollowsTransitive(old(world.Trail()), a, b);
      if !ok {
        return PendingAt(CancellationStage);
      }
      result := Replace(s, doc, job);
      FollowsTransitive(old(world.Trail()), b, world.Trail());
      NowDurable(doc, b);
    }

    lemma NowDurable(doc: CancellationOperation, before: Course)
      requires world.Valid() && Durable(doc, before) && Follows(before, world.Trail())
      ensures Durable(doc, world.Trail())
    {
      hide LegalRun, Durable, Follows;
      DurableStays(world.cfg, doc, before, world.Trail());
    }

    /** Lines 73 to 105: plan, bind, grant, commit. */
    method Replace(s: Session, ghost doc: CancellationOperation, ghost job: Job) returns (result: RunResult)
      requires Wired() && Held(s, doc) && About(s, job)
      modifies s, world
      ensures world.Valid() && Follows(old(world.Trail()), world.Trail())
      ensures result.Completed? ==> HasReceipt(world.state, s.id, result.receipt) && result.receipt.replacement == s.to
      ensures old(Canceled(Within(), SceneOf(s), job)) ==>
                && (!old(FitsGrants(SceneOf(s), job)) ==> result == PendingAt(ReplacementStage))
                && (old(FitsGrants(SceneOf(s), job)) ==>
                    && result.Completed? && Done(job, world.state)
                    && Elements(world.state.rows) == old(Goal(SceneOf(s), job)))
      ensures result != PendingAt(CancellationStage)
    {
      hide LegalRun, BoundTo, PlanBoundTo, Orderly, FaithfulBytes, Held, HeldPlan, World.Valid, Session.Valid,
           Session.Ahead, World.Calm, Granted, Planned, Canceled, Supplied, FitsGrants, Goal, Smooth, SceneOf, Follows,
           World.Trail, Done, HasReceipt, PlanAt, DocumentAt, CaseAt;
      var plan := ObtainPlan(s, doc, job);
      HeldFacts(s, doc);
      ghost var a := world.Trail();
      if plan.None? {
        return PendingAt(ReplacementStage);
      }
      var ok := BindPhase(s, doc, plan.value, job);
      HeldFacts(s, doc);
      ghost var b := world.Trail();
      FollowsTransitive(old(world.Trail()), a, b);
      if !ok {
        return PendingAt(ReplacementStage);
      }
      ok := GrantPhase(s, doc, plan.value, job);
      HeldPlanFacts(s, doc, plan.value);
      HeldFacts(s, doc);
      ghost var c := world.Trail();
      FollowsTransitive(old(world.Trail()), b, c);
      if !ok {
        return PendingAt(ReplacementStage);
      }
      var receipt := CommitPhase(s, doc, plan.value, job);
      FollowsTransitive(old(world.Trail()), c, world.Trail());
      if receipt.Some? && Done(job, world.state) {
        DoneReceipt(job, world.state, receipt.value);
      }
      return if receipt.Some? && receipt.value.replacement == s.to then Completed(receipt.value)
             else PendingAt(CommitStage);
    }

    /** Open a session on the version that is current now. */
    method Open(actor: Key, id: OperationId, to: Key, ghost doc: CancellationOperation, ghost job: Job)
      returns (s: Session?)
      requires Wired() && world.Valid() && BoundIn(Within(), world.Trail(), id, doc) && job.actor == actor &&
               job.id == id && job.to == to
      modifies world
      ensures world.Valid() && Follows(old(world.Trail()), world.Trail())
      ensures s != null ==> fresh(s) && Opened(s, doc) && About(s, job) && s.id == id && s.to == to
      ensures old(Smooth(Within(), Outset(), job)) ==> s != null && SceneOf(s) == old(Outset())
    {
      hide LegalRun, Active, Orderly, FaithfulBytes, DocumentAt, PlanAt, BoundIn, BoundTo, Goal, Smooth, Follows;
      if Smooth(Within(), Outset(), job) {
        SmoothActive(Within(), Outset(), job);
      }
      var alive := world.Await();
      if !alive || world.state.owner != actor || !Active(world.state, id, to) {
        return null;
      }
      OpensBound(Within(), old(world.Trail()), world.Trail(), id, to, doc);
      s := new Session(world, actor, id, to, world.etag);
    }

    /** What a session opened right now would see. */
    ghost function Outset(): Scene
      reads world
    {
      Scene(world.log, world.clock, world.shelf, world.Calm(), world.etag, true)
    }

    lemma OutsetFits(job: Job)
      requires world.Valid()
      ensures FitsCancels(Outset(), job) == CancelFits(job, world.state)
      ensures FitsGrants(Outset(), job) == GrantFits(job, world.state)
      ensures Goal(Outset(), job) == Target(job, world.state)
    {
      hide LegalRun, CancelFits, GrantFits, Target;
    }

    /** Resume an operation. Whatever the others do, every write is legal for the version it
        extends, a returned receipt is the durable one, and a call that gets beyond the first stage
        leaves every cancellation durable. Undisturbed, one call completes
        the operation if and only if every check of the pass has room, and then with the rows
        it started from and both plans, and nothing else. The plan need not exist before. */
    method Resume(actor: Key, id: OperationId, to: Key, ghost doc: CancellationOperation, ghost job: Job)
      returns (result: RunResult)
      requires Wired() && world.Valid() && BoundIn(Within(), world.Trail(), id, doc) && job.actor == actor &&
               job.id == id && job.to == to
      modifies world
      ensures world.Valid() && Follows(old(world.Trail()), world.Trail())
      ensures result.Completed? ==> HasReceipt(world.state, id, result.receipt) && result.receipt.replacement == to
      ensures old(Smooth(Within(), Outset(), job)) ==>
                && (!CancelFits(job, old(world.state)) ==> result == PendingAt(CancellationStage))
                && (CancelFits(job, old(world.state)) && !GrantFits(job, old(world.state)) ==>
                    result == PendingAt(ReplacementStage))
                && (Ample(job, old(world.state)) ==>
                    && result.Completed? && Done(job, world.state)
                    && Elements(world.state.rows) == Target(job, old(world.state)))
      ensures result != PendingAt(CancellationStage) ==> Durable(doc, world.Trail())
    {
      hide LegalRun, CancelFits, GrantFits, Durable, Active, Orderly, FaithfulBytes, Smooth, Goal, Opened, BoundIn,
           Done, HasReceipt, World.Valid, Follows, World.Trail, SceneOf, Target, FitsCancels, FitsGrants, Within,
           Outset;
      OutsetFits(job);
      var s := Open(actor, id, to, doc, job);
      ghost var first := world.Trail();
      if s == null {
        return PendingAt(CancellationStage);
      }
      result := Work(s, doc, job);
      FollowsTransitive(old(world.Trail()), first, world.Trail());
      s.live := false;
    }
  }

  /** All cancellations of the document are in the newest version. */
  ghost predicate Durable(doc: CancellationOperation, c: Course) {
    c.etag < |c.log| && forall r | r in doc.cancellations :: r in c.log[c.etag].rows
  }

  lemma DurableStays(cfg: Config, doc: CancellationOperation, a: Course, b: Course)
    requires Durable(doc, a) && Follows(a, b) && LegalRun(cfg, b.log) && b.etag + 1 == |b.log|
    ensures Durable(doc, b)
  {
    hide LegalRun;
    RowsStay(cfg, b.log, a.etag, b.etag);
    forall r | r in doc.cancellations ensures r in b.log[b.etag].rows {
      assert r in Elements(b.log[a.etag].rows);
    }
  }

  lemma RowsStay(cfg: Config, log: seq<State>, i: nat, j: nat)
    requires LegalRun(cfg, log) && i <= j < |log|
    ensures Elements(log[i].rows) <= Elements(log[j].rows)
  {
    LegalRunIsRun(cfg, log);
    RunSince(log, i, j);
    MoreRows(log[i].rows, log[j].rows);
  }

  lemma EarlierVersion(a: Course, b: Course, i: nat)
    requires Follows(a, b) && i < |a.log|
    ensures i < |b.log| && b.log[i] == a.log[i]
  {
  }

  lemma DoneReceipt(job: Job, s: State, receipt: Receipt)
    requires Done(job, s) && HasReceipt(s, job.id, receipt)
    ensures receipt.replacement == job.to
  {
  }

  lemma SmoothActive(scope: Scope, scene: Scene, job: Job)
    requires Smooth(scope, scene, job)
    ensures scene.calm && |scene.log| == scene.etag + 1
    ensures Newest(scene).owner == job.actor && Active(Newest(scene), job.id, job.to)
  {
  }

  /** An earlier version of this operation was bound to the document on the shelf, as the
      runtime makes sure before it runs the publisher. */
  ghost predicate BoundIn(scope: Scope, c: Course, id: OperationId, doc: CancellationOperation) {
    && DocumentAt(c.shelf, scope.forum, scope.agent, id) == Found(doc)
    && exists b :: 0 <= b < |c.log| && BoundTo(c.log[b], doc) && c.log[b].operation.value.id == id
  }

  lemma BoundStays(scope: Scope, a: Course, b: Course, id: OperationId, doc: CancellationOperation)
    requires Follows(a, b) && BoundIn(scope, a, id, doc)
    ensures BoundIn(scope, b, id, doc)
  {
    LoadsAgree(a.shelf, b.shelf, scope.forum, scope.agent, id, scope.agent);
    hide DocumentAt, PlanAt, BoundTo;
    var i :| 0 <= i < |a.log| && BoundTo(a.log[i], doc) && a.log[i].operation.value.id == id;
    assert b.log[i] == a.log[i];
  }

  /** An operation that was bound once is bound alike wherever it is active later. */
  lemma OpensBound(scope: Scope, a: Course, c: Course, id: OperationId, to: Key, doc: CancellationOperation)
    requires LegalRun(scope.cfg, c.log) && BoundIn(scope, a, id, doc) && Follows(a, c)
    requires Active(c.log[|c.log| - 1], id, to)
    ensures BoundTo(c.log[|c.log| - 1], doc) && DocumentAt(c.shelf, scope.forum, scope.agent, id) == Found(doc)
  {
    hide DocumentAt;
    LegalRunIsRun(scope.cfg, c.log);
    BoundStays(scope, a, c, id, doc);
    var b :| 0 <= b < |c.log| && BoundTo(c.log[b], doc) && c.log[b].operation.value.id == id;
    var i := |c.log| - 1;
    assert SameOperation(c.log[b], c.log[i]);
    OperationAdvances(c.log, b, i);
  }

  lemma ReceiptStays(cfg: Config, log: seq<State>, i: nat, j: nat, id: OperationId, receipt: Receipt)
    requires LegalRun(cfg, log) && i <= j < |log| && HasReceipt(log[i], id, receipt)
    ensures HasReceipt(log[j], id, receipt)
  {
    LegalRunIsRun(cfg, log);
    RunSince(log, i, j);
  }
}
