/** The server-side runtime (lib/delegation-runtime.ts): it authenticates, prepares an
    operation, binds it, runs the publisher, and fences ordinary child writes. */
module Runtime {
  import opened Identity
  import opened Authority
  import Refresh
  import opened Documents
  import opened Journal
  import opened JournalRuns
  import opened Protocol
  import opened Resumption
  import opened Deployment
  import opened JournalClient
  import opened MutationSession
  import opened Outbox
  import opened Planner
  import opened PlannerSound
  import opened SinglePass
  import opened Publisher
  import opened Launch

  const MAX_ATTEMPTS := 3

  /** What one attempt at an authority check came to; an expired one is tried again. */
  datatype CheckVerdict = CheckPassed | CheckExpired | CheckDenied

  /** What the runtime found when it bound an operation to its frozen registry. */
  datatype Binding = Binding(state: State, op: Operation)

  /** The versions a binding was read from. */
  ghost predicate ReadAt(c: Course, b: Binding, seen: nat) {
    && seen < |c.log| && c.log[seen] == b.state && b.state.operation == Some(b.op)
  }

  /** A registry frozen for the operation that lists exactly its destinations. */
  predicate FrozenFor(shelf: Shelf, b: Binding) {
    b.op.id.Hex? && b.op.id in shelf.registries && shelf.registries[b.op.id] == SortedSet(b.state.destinations)
  }

  lemma FrozenStays(a: Course, c: Course, b: Binding, seen: nat)
    requires Follows(a, c)
    ensures ReadAt(a, b, seen) ==> ReadAt(c, b, seen)
    ensures FrozenFor(a.shelf, b) ==> FrozenFor(c.shelf, b)
  {
  }

  lemma FoundCovers(shelf: Shelf, b: Binding, forum: ObjectId)
    requires FrozenFor(shelf, b) && DocumentAt(shelf, forum, b.op.previous, b.op.id).Found?
    ensures CoversDestinations(DocumentAt(shelf, forum, b.op.previous, b.op.id).value, b.state.destinations)
  {
    hide ValidDocument;
  }

  /** The version that a document was planned on, and the memberships it cancels. */
  datatype PlannedOn = PlannedOn(seen: nat, souls: seq<Soul>)

  function SoulsOf(plan: Option<PlannedOn>): seq<Soul> {
    if plan.Some? then plan.value.souls else []
  }

  ghost predicate OfPlanner(cfg: Config, signer: Signer, log: seq<State>, agent: Key, id: OperationId,
                            doc: CancellationOperation, plan: PlannedOn) {
    plan.seen < |log| && CancellationPlan(cfg, signer, log[plan.seen], agent, id, doc.cancellations, plan.souls)
  }

  lemma PlannerFacts(cfg: Config, signer: Signer, c: Course, b: Binding, seen: nat, doc: CancellationOperation,
                     plan: PlannedOn)
    requires ReadAt(c, b, seen) && plan.seen == seen
    requires CancellationPlan(cfg, signer, b.state, b.op.previous, b.op.id, doc.cancellations, plan.souls)
    ensures OfPlanner(cfg, signer, c.log, b.op.previous, b.op.id, doc, plan)
  {
  }

  lemma PlannerStays(cfg: Config, signer: Signer, a: Course, c: Course, agent: Key, id: OperationId,
                     doc: CancellationOperation, plan: PlannedOn)
    requires Follows(a, c) && OfPlanner(cfg, signer, a.log, agent, id, doc, plan)
    ensures OfPlanner(cfg, signer, c.log, agent, id, doc, plan)
  {
    hide CancellationPlan;
    assert c.log[plan.seen] == a.log[plan.seen];
  }

  /** Nothing has been prepared, and the owner's evidence is in order. */
  ghost predicate NothingSaved(cfg: Config, signer: Signer, b: Binding, shelf: Shelf, to: Key, at: nat) {
    && b.op.cancellationDigest == None && b.op.id !in shelf.documents &&
       Launchable(cfg, signer, b.state, b.op.id, to, at)
    && DocumentAt(shelf, b.state.forum, b.op.previous, b.op.id).Absent?
  }

  /** Nothing is in the way of a binding. */
  predicate Bindable(s: State, shelf: Shelf, id: OperationId, to: Key) {
    && Active(s, id, to) && id.Hex?
    && if id in shelf.registries then shelf.registries[id] == SortedSet(s.destinations)
       else s.operation.value.cancellationDigest == None
  }

  function Registered(shelf: Shelf, id: OperationId, registry: seq<ObjectId>): Shelf {
    shelf.(registries := shelf.registries[id := registry])
  }

  /** May this writer dispatch this child, by the rows of one version? */
  predicate MayWriteChild(cfg: Config, rows: seq<Row>, record: DrawerRecord, at: nat) {
    var all := Elements(rows);
    && Admits(cfg, all, at) && |rows| <= MAX_ROWS
    && PrincipalOf(record.id) == record.agent && Owned(all, record.id)
    && CanDirect(cfg, all, false, record.id, record.writer, at)
    && (record.writer == record.agent || CanDirect(cfg, all, true, record.id, record.writer, at))
    && (record.target.Some? ==> CanDirect(cfg, all, false, record.target.value, record.writer, at))
  }

  /** Who may write a child: the agent on an object of its own, or a writer with grants both to
      see it and to post there; and whoever names a target must own it or have a grant to see it. */
  lemma MayWriteMeans(cfg: Config, rows: seq<Row>, record: DrawerRecord, at: nat)
    ensures MayWriteChild(cfg, rows, record, at) <==>
              var all := Elements(rows);
              && |rows| <= 1024 && Admits(cfg, all, at)
              && Owned(all, record.id) && PrincipalOf(record.id) == record.agent
              && (record.writer != record.agent ==>
                    InForce(cfg, all, true, record.id, record.writer, at) &&
                    InForce(cfg, all, false, record.id, record.writer, at))
              && (record.target.Some? ==>
                    Owned(all, record.target.value) &&
                    (PrincipalOf(record.target.value) == record.writer ||
                     InForce(cfg, all, false, record.target.value, record.writer, at)))
  {
    var all := Elements(rows);
    hide Admits, Elements, InForce, CanDirect;
    DirectIsInForce(cfg, all, false, record.id, record.writer, at);
    DirectIsInForce(cfg, all, true, record.id, record.writer, at);
    if record.target.Some? {
      DirectIsInForce(cfg, all, false, record.target.value, record.writer, at);
    }
  }

  /** The rows of one version, with those to be admitted, make the owner own the destination. */
  predicate MayAdmit(cfg: Config, held: seq<Row>, rows: seq<Row>, destination: ObjectId, owner: Key, at: nat) {
    var all := Elements(held + rows);
    |held + rows| <= MAX_ROWS && Admits(cfg, all, at) && Owned(all, destination) && PrincipalOf(destination) == owner
  }

  /** The authority of the version was consulted: the sender owns the forum. */
  predicate OwnsForum(cfg: Config, s: State, actor: Key, at: nat) {
    && actor == s.owner && |s.rows| <= MAX_ROWS && Admits(cfg, Elements(s.rows), at)
    && Owned(Elements(s.rows), s.forum) && PrincipalOf(s.forum) == actor
  }

  /** Between two points of a course some version, with the rows of a later one that were read
      along, made the actor the verified owner of the forum at some second. */
  ghost predicate Vouched(cfg: Config, a: Course, b: Course, actor: Key) {
    exists v: nat, w: nat, at: nat ::
      a.etag <= v <= w <= b.etag < |b.log| && a.clock <= at <= b.clock &&
      OwnsForum(cfg, b.log[v].(rows := b.log[w].rows), actor, at)
  }

  lemma VouchedStays(cfg: Config, a: Course, b: Course, c: Course, actor: Key)
    requires Vouched(cfg, a, b, actor) && Follows(b, c) && c.etag < |c.log|
    ensures Vouched(cfg, a, c, actor)
  {
    hide OwnsForum;
    var v: nat, w: nat, at: nat :| a.etag <= v <= w <= b.etag < |b.log| && a.clock <= at <= b.clock &&
                                   OwnsForum(cfg, b.log[v].(rows := b.log[w].rows), actor, at);
    assert c.log[v] == b.log[v] && c.log[w] == b.log[w];
  }

  lemma VouchedNow(cfg: Config, a: Course, b: Course, v: nat, actor: Key)
    requires a.etag <= v <= b.etag < |b.log| && a.clock <= b.clock
    requires OwnsForum(cfg, b.log[v].(rows := b.log[b.etag].rows), actor, b.clock)
    ensures Vouched(cfg, a, b, actor)
  {
    hide OwnsForum;
  }

  /** What a calm call on a version with these receipts answers: to its verified owner the receipt
      that the operation has, unless it is for another replacement; to nobody else anything.
      Neither changes anything. */
  ghost predicate Recalled(calm: bool, owns: bool, receipts: map<OperationId, Receipt>, id: OperationId, to: Key,
                           result: RunResult, still: bool) {
    && (calm && !owns ==> still && !result.Completed?)
    && (calm && owns && id in receipts ==>
          && still
          && (receipts[id].replacement == to ==> result == Completed(receipts[id]))
          && (receipts[id].replacement != to ==> !result.Completed?))
  }

  class DelegationRuntime {
    const world: World
    const journal: AssignmentJournal
    const signer: Signer
    /** Key history and signature checks, which consult neither rows nor journal. */
    const writerKey: (Key, nat, nat) -> bool
    const signed: Child -> bool

    constructor (world: World, signer: Signer, writerKey: (Key, nat, nat) -> bool, signed: Child -> bool)
      requires world.planned
      ensures this.world == world && this.signer == signer && this.writerKey == writerKey && this.signed == signed &&
              Wired()
    {
      this.world, this.signer, this.writerKey, this.signed := world, signer, writerKey, signed;
      this.journal := new AssignmentJournal(world);
    }

    ghost predicate Wired() {
      journal.world == world && world.planned
    }

    /** Read the journal as its verified owner. */
    method Owner(actor: Key) returns (r: Option<State>, ghost seen: nat)
      requires world.Valid()
      modifies world
      ensures world.Valid() && Follows(old(world.Trail()), world.Trail())
      ensures r.Some? ==>
              seen < |world.log| && world.log[seen] == r.value && old(world.etag) <= seen && r.value.owner == actor
      ensures r.Some? ==> exists w ::
                && seen <= w <= world.etag < |world.log|
                && OwnsForum(world.cfg, world.log[seen].(rows := world.log[w].rows), actor, world.clock)
      ensures r.Some? ==> Vouched(world.cfg, old(world.Trail()), world.Trail(), actor)
      ensures old(world.Calm()) ==>
                world.Still() &&
                  r == if OwnsForum(world.cfg, world.state, actor, world.clock) then Some(world.state) else None
    {
      hide LegalRun, Orderly, FaithfulBytes, Follows, OwnsForum, Vouched, Admits, Owned;
      OwnsForumMeans(world.cfg, world.state, actor, world.clock);
      seen := 0;
      FollowsReflexive(world.Trail());
      for attempt := 0 to MAX_ATTEMPTS
        invariant world.Valid() && Follows(old(world.Trail()), world.Trail())
        invariant old(world.Calm()) ==> world.Still() && attempt == 0
      {
        ghost var first := world.Trail();
        var alive := world.Await();
        ghost var second := world.Trail();
        FollowsTransitive(old(world.Trail()), first, second);
        if !alive {
          return None, 0;
        }
        seen := world.etag;
        Monotone(old(world.Trail()), second);
        var state, at := world.state, world.clock;
        if actor != state.owner {
          return None, 0;
        }
        alive := world.Await();
        var rows := world.state.rows;
        ghost var third := world.Trail();
        FollowsTransitive(old(world.Trail()), second, third);
        Monotone(second, third);
        if !alive {
          return None, 0;
        }
        if world.clock == at {
          assert old(world.Calm()) ==> state.(rows := rows) == world.state;
          OwnsForumMeans(world.cfg, state.(rows := rows), actor, at);
          var graph := Refresh.Refresh(world.cfg, rows, at);
          if graph.None? {
            return None, 0;
          }
          OwnerAgrees(world.cfg, Elements(rows), at, graph.value, state.forum);
          if !graph.value.HasOwner(state.forum) || PrincipalOf(state.forum) != actor {
            return None, 0;
          }
          VouchedNow(world.cfg, old(world.Trail()), world.Trail(), seen, actor);
          return Some(state), seen;
        }
      }
      return None, 0;
    }

    /** Bind an active operation to a registry frozen on exactly its destinations. */
    method Bindings(id: OperationId, to: Key) returns (b: Option<Binding>, ghost seen: nat)
      requires world.Valid()
      modifies world
      ensures world.Valid() && Follows(old(world.Trail()), world.Trail())
      ensures b.Some? ==>
              ReadAt(world.Trail(), b.value, seen) && FrozenFor(world.shelf, b.value) && b.value.op.id == id &&
              b.value.op.replacement == to
      ensures old(world.Calm()) ==> world.ShelfOnly()
      ensures old(world.Calm()) && Bindable(world.state, old(world.shelf), id, to) ==>
                && b == Some(Binding(world.state, world.state.operation.value))
                && world.shelf == Registered(old(world.shelf), id, SortedSet(world.state.destinations))
    {
      hide LegalRun, FaithfulBytes, Follows, SortedSet;
      var alive := world.Await();
      ghost var first := world.Trail();
      if !alive {
        return None, 0;
      }
      var state := world.state;
      seen := world.etag;
      if !Active(state, id, to) || !id.Hex? {
        return None, 0;
      }
      var found := Binding(state, state.operation.value);
      alive := world.Await();
      ghost var second := world.Trail();
      FollowsTransitive(old(world.Trail()), first, second);
      FrozenStays(first, second, found, seen);
      if !alive {
        return None, 0;
      }
      if id !in world.shelf.registries {
        if found.op.cancellationDigest.Some? {
          return None, 0;
        }
        world.Create(Freeze(id, SortedSet(state.destinations)));
      }
      ghost var third := world.Trail();
      FollowsReflexive(second);
      FollowsTransitive(old(world.Trail()), second, third);
      FrozenStays(second, third, found, seen);
      alive := world.Await();
      ghost var fourth := world.Trail();
      FollowsTransitive(old(world.Trail()), third, fourth);
      FrozenStays(third, fourth, found, seen);
      if !alive || id !in world.shelf.registries || world.shelf.registries[id] != SortedSet(state.destinations) {
        return None, 0;
      }
      return Some(found), seen;
    }

    /** Bind a found document; on success some version holds exactly its digest. */
    method BindFound(actor: Key, b: Binding, ghost seen: nat, outbox: BoundOutbox, doc: CancellationOperation)
      returns (ok: bool)
      requires Wired() && world.Valid() && ReadAt(world.Trail(), b, seen) && FrozenFor(world.shelf, b)
      requires outbox.world == world && outbox.forum == b.state.forum && outbox.agent == b.op.previous
      requires DocumentAt(world.shelf, outbox.forum, outbox.agent, b.op.id) == Found(doc)
      modifies world
      ensures world.Valid() && Follows(old(world.Trail()), world.Trail())
      ensures ok ==> BoundIn(Scope(world.cfg, outbox.forum, outbox.agent, signer), world.Trail(), b.op.id, doc)
      ensures old(world.Calm()) ==>
                var outcome := Exec(old(world.state),
                                    Command.BindCancellations(actor, b.op.id, b.op.replacement, OfCancellations(doc)));
                && world.Calm() && world.clock == old(world.clock) && world.shelf == old(world.shelf)
                && world.log == old(world.log) + (if outcome.Written? then [outcome.next] else []) &&
                   ok == !outcome.Refused?
    {
      hide LegalRun, Orderly, FaithfulBytes, ValidDocument, ScopedTo, CoversDestinations, Exec, Attempt;
      FoundIsScoped(world.shelf, b.state.forum, b.op);
      FoundCovers(world.shelf, b, b.state.forum);
      var r, at := journal.BindCancellations(actor, b.op.id, b.op.replacement, OfCancellations(doc), seen);
      LoadsAgree(old(world.shelf), world.shelf, outbox.forum, outbox.agent, b.op.id, b.op.replacement);
      hide DocumentAt, PlanAt, BoundTo;
      if r.Lost? || r.outcome.Refused? {
        return false;
      }
      BindMeans(world.log[at], actor, b.op.id, b.op.replacement, doc);
      return true;
    }

    /** What a session of the driver would find right now. */
    ghost function Now(): Scene
      reads world
    {
      Scene(world.log, world.clock, world.shelf, world.Calm(), world.etag, true)
    }

    /** Nobody else acts, and the job's operation is bound to its document and can be finished. */
    ghost predicate Resumable(job: Job)
      reads world
    {
      && world.state.operation.Some?
      && Smooth(Scope(world.cfg, world.state.forum, world.state.operation.value.previous, signer), Now(), job)
    }

    /** Nobody else acts, and an operation of an owner in good order has just been claimed. */
    ghost predicate Pristine(id: OperationId, to: Key)
      reads world
    {
      world.Calm() && Untouched(world.shelf, id) && Launchable(world.cfg, signer, world.state, id, to, world.clock)
    }

    /** The document of an operation, found or planned now. */
    method ObtainDocument(b: Binding, ghost seen: nat, outbox: BoundOutbox, to: Key)
      returns (saved: Option<CancellationOperation>, ghost plan: Option<PlannedOn>)
      requires world.Valid() && outbox.world == world && outbox.forum == b.state.forum && outbox.agent == b.op.previous
      requires ReadAt(world.Trail(), b, seen) && FrozenFor(world.shelf, b)
      modifies world
      ensures world.Valid() && Follows(old(world.Trail()), world.Trail())
      ensures saved.Some? ==> DocumentAt(world.shelf, outbox.forum, outbox.agent, b.op.id) == Found(saved.value)
      ensures saved.Some? && plan.Some? ==>
                plan.value.seen == seen &&
                CancellationPlan(world.cfg, signer, b.state, b.op.previous, b.op.id, saved.value.cancellations,
                                 plan.value.souls)
      ensures old(world.Calm()) ==> world.ShelfOnly()
      ensures old(world.Calm() && NothingSaved(world.cfg, signer, b, world.shelf, to, world.clock)) ==>
                plan.Some? && Saved(Undertaking(signer, b.state, b.op.id, to, plan.value.souls, world.clock), saved,
                                    old(world.shelf))
      ensures old(world.Calm() && DocumentAt(world.shelf, outbox.forum, outbox.agent, b.op.id).Found?) ==>
                world.Still() && saved.Some?
    {
      hide LegalRun, Orderly, FaithfulBytes, Follows, DocumentAt, FrozenFor, ReadAt, Launchable, CancellationPlan,
           Undertaking.Sound;
      plan := None;
      var existing := outbox.Load(b.op.id);
      ghost var first := world.Trail();
      FrozenStays(old(world.Trail()), first, b, seen);
      if existing.Broken? {
        return None, plan;
      }
      if existing.Found? {
        return Some(existing.value), plan;
      }
      if b.op.cancellationDigest.Some? {
        return None, plan;
      }
      ghost var souls;
      saved, souls := PlanCancellations(b, seen, outbox, to);
      FollowsTransitive(old(world.Trail()), first, world.Trail());
      plan := Some(PlannedOn(seen, souls));
    }

    /** The undertaking's document is the one that was saved. */
    ghost predicate Saved(u: Undertaking, saved: Option<CancellationOperation>, before: Shelf)
      reads world
    {
      && u.Sound(world.cfg) && saved == Some(u.Document())
      && world.shelf == before.(documents := before.documents[u.id := u.Document()])
    }

    /** Undisturbed, a fresh claim is planned. */
    twostate predicate PlannedNow(id: OperationId, to: Key, new b: Binding, new saved: CancellationOperation,
                                  new plan: Option<PlannedOn>)
      reads world
    {
      old(Pristine(id, to)) ==>
        && plan.Some? && b.state == world.state && world.state.operation == Some(b.op)
        && Stored(Undertaking(signer, world.state, id, to, plan.value.souls, world.clock), saved)
    }

    /** The undertaking is on the shelf, and nothing else has changed. */
    twostate predicate Stored(new u: Undertaking, new saved: CancellationOperation)
      reads world
    {
      && u.Sound(world.cfg) && Claimed(u) && saved == u.Document() && world.ShelfOnly()
      && world.shelf.registries == old(world.shelf).registries[u.id := u.Registry()]
      && world.shelf.documents == old(world.shelf).documents[u.id := u.Document()] &&
         world.shelf.plans == old(world.shelf).plans
    }

    /** Undisturbed, an operation that is bound already is found so. */
    twostate predicate FoundNow(known: Job, new b: Binding, new saved: CancellationOperation)
      reads world
    {
      old(Resumable(known)) && known.id == b.op.id && known.to == b.op.replacement ==>
        world.Still() && b.state == world.state && world.state.operation == Some(b.op) && saved == known.doc
    }

    /** The operation's binding and its document. */
    method Locate(id: OperationId, to: Key, ghost known: Job)
      returns (r: Option<(Binding, BoundOutbox, CancellationOperation)>, ghost seen: nat, ghost plan: Option<PlannedOn>)
      requires world.Valid()
      modifies world
      ensures world.Valid() && Follows(old(world.Trail()), world.Trail())
      ensures r.Some? ==> Located(r.value.0, r.value.1, r.value.2, seen, id, to) && fresh(r.value.1)
      ensures r.Some? && plan.Some? ==>
              OfPlanner(world.cfg, signer, world.log, r.value.0.op.previous, id, r.value.2, plan.value)
      ensures old(Pristine(id, to)) ==> r.Some?
      ensures old(Resumable(known)) && known.id == id && known.to == to ==> r.Some?
      ensures r.Some? ==> PlannedNow(id, to, r.value.0, r.value.2, plan) && FoundNow(known, r.value.0, r.value.2)
    {
      hide LegalRun, Orderly, FaithfulBytes, Follows, DocumentAt, FrozenFor, ReadAt, Launchable, Smooth, Exec,
           CancellationPlan, OfPlanner, Undertaking.Sound, SortedSet, Active, Bindable, Undertaking.Document, Now,
           Pristine, Resumable, World.Valid;
      if Pristine(id, to) {
        PristineNow(id, to);
      }
      if Resumable(known) {
        ResumableNow(known);
      }
      plan := None;
      var b;
      b, seen := Bindings(id, to);
      ghost var first := world.Trail();
      if b.None? {
        return None, seen, plan;
      }
      var outbox := new BoundOutbox(world, b.value.state.forum, b.value.op.previous);
      var saved;
      saved, plan := ObtainDocument(b.value, seen, outbox, to);
      FollowsTransitive(old(world.Trail()), first, world.Trail());
      FrozenStays(first, world.Trail(), b.value, seen);
      if saved.None? {
        return None, seen, plan;
      }
      if plan.Some? {
        PlannerFacts(world.cfg, signer, world.Trail(), b.value, seen, saved.value, plan.value);
      }
      return Some((b.value, outbox, saved.value)), seen, plan;
    }

    /** A binding that was read from a version, and the one document of its operation. */
    ghost predicate Located(b: Binding, outbox: BoundOutbox, doc: CancellationOperation, seen: nat, id: OperationId,
                            to: Key)
      reads world
    {
      && ReadAt(world.Trail(), b, seen) && FrozenFor(world.shelf, b) && b.op.id == id && b.op.replacement == to
      && outbox.world == world && outbox.forum == b.state.forum && outbox.agent == b.op.previous
      && DocumentAt(world.shelf, outbox.forum, outbox.agent, id) == Found(doc)
    }

    /** From a pristine version a fresh claim is planned and bound. */
    ghost predicate FromScratch(pristine: bool, u: Undertaking, before: Course, r: Option<BoundOutbox>,
                                doc: CancellationOperation, plan: Option<PlannedOn>)
      reads world
    {
      pristine ==> r.Some? && plan.Some? && doc == u.Document() && Launched(u, r.value, before)
    }

    /** From a resumable version the operation is found as it is. */
    ghost predicate FromBound(resumable: bool, known: Job, s: State, scene: Scene, r: Option<BoundOutbox>,
                              doc: CancellationOperation)
      reads world
    {
      resumable ==>
        && r.Some? && doc == known.doc && world.state == s && Now() == scene
        && r.value.forum == s.forum && s.operation.Some? && r.value.agent == s.operation.value.previous
    }

    predicate IsFor(job: Job, actor: Key, id: OperationId, to: Key) {
      job.actor == actor && job.id == id && job.to == to
    }

    /** A document for the operation, found or planned now, and bound in the journal. When it
        was planned now, `plan` says on which version and for which memberships. */
    method PrepareCancellations(actor: Key, id: OperationId, to: Key, ghost known: Job)
      returns (r: Option<BoundOutbox>, ghost doc: CancellationOperation, ghost plan: Option<PlannedOn>)
      requires Wired() && world.Valid()
      modifies world
      ensures world.Valid() && Follows(old(world.Trail()), world.Trail())
      ensures r.Some? ==> r.value.world == world && fresh(r.value)
      ensures r.Some? ==> BoundIn(Scope(world.cfg, r.value.forum, r.value.agent, signer), world.Trail(), id, doc)
      ensures r.Some? && plan.Some? ==> OfPlanner(world.cfg, signer, world.log, r.value.agent, id, doc, plan.value)
      ensures FromScratch(old(Pristine(id, to)) && actor == old(world.state).owner,
                          Undertaking(signer, old(world.state), id, to, SoulsOf(plan), old(world.clock)),
                          old(world.Trail()), r, doc, plan)
      ensures FromBound(old(Resumable(known)) && IsFor(known, actor, id, to), known, old(world.state), old(Now()), r,
                        doc)
    {
      hide LegalRun, Orderly, FaithfulBytes, BoundIn, Follows, DocumentAt, FrozenFor, ReadAt, Launchable, Smooth, Exec,
           OfPlanner, Undertaking.Sound, SortedSet, Undertaking.Document, Claimed, World.Calm;
      if Pristine(id, to) {
        PristineFacts(world.cfg, signer, world.log, world.shelf, id, to, world.clock);
      }
      if Resumable(known) {
        ResumableNow(known);
      }
      doc := *;
      var found;
      ghost var seen;
      found, seen, plan := Locate(id, to, known);
      ghost var first := world.Trail();
      if found.None? {
        return None, doc, plan;
      }
      var b, outbox, saved := found.value.0, found.value.1, found.value.2;
      doc := saved;
      if old(Pristine(id, to)) {
        BindWritten(world.log[0], Undertaking(signer, world.state, id, to, plan.value.souls, world.clock));
      }
      var ok := BindFound(actor, b, seen, outbox, saved);
      FollowsTransitive(old(world.Trail()), first, world.Trail());
      if plan.Some? {
        PlannerStays(world.cfg, signer, first, world.Trail(), outbox.agent, id, doc, plan.value);
      }
      return if ok then Some(outbox) else None, doc, plan;
    }

    lemma NowFacts()
      requires world.Valid()
      ensures Newest(Now()) == world.state && Now().shelf == world.shelf && Now().calm == world.Calm()
    {
      hide LegalRun;
    }

    /** Everything an undertaking needs is prepared, and nothing else has changed. */
    ghost predicate Launched(u: Undertaking, outbox: BoundOutbox, before: Course)
      reads world
    {
      && u.Sound(world.cfg) && Claimed(u) && outbox.forum == u.s.forum && outbox.agent == u.s.assignee
      && world.Calm() && world.clock == before.clock && world.log == before.log + [Bound(u)]
      && world.shelf.registries == before.shelf.registries[u.id := u.Registry()]
      && world.shelf.documents == before.shelf.documents[u.id := u.Document()] &&
         world.shelf.plans == before.shelf.plans
    }

    /** Plan what the old assignee loses, and create the document: it holds the withdrawals and
        membership cancellations planned on the version that was bound. */
    method PlanCancellations(b: Binding, ghost seen: nat, outbox: BoundOutbox, to: Key)
      returns (saved: Option<CancellationOperation>, ghost souls: seq<Soul>)
      requires world.Valid() && outbox.world == world && outbox.forum == b.state.forum && outbox.agent == b.op.previous
      requires ReadAt(world.Trail(), b, seen) && FrozenFor(world.shelf, b)
      modifies world
      ensures world.Valid() && Follows(old(world.Trail()), world.Trail())
      ensures saved.Some? ==>
                && DocumentAt(world.shelf, outbox.forum, outbox.agent, b.op.id) == Found(saved.value)
                && CancellationPlan(world.cfg, signer, b.state, b.op.previous, b.op.id, saved.value.cancellations,
                                    souls)
      ensures old(world.Calm()) ==> world.ShelfOnly()
      ensures old(world.Calm() && b.op.id !in world.shelf.documents &&
                  Launchable(world.cfg, signer, b.state, b.op.id, to, world.clock)) ==>
                var u := Undertaking(signer, b.state, b.op.id, to, souls, world.clock);
                && u.Sound(world.cfg) && saved == Some(u.Document())
                && world.shelf == old(world.shelf).(documents := old(world.shelf).documents[b.op.id := u.Document()])
    {
      hide LegalRun, Orderly, FaithfulBytes, ValidDocument, Follows, DocumentAt, DirectPlan, Planner.Covers,
           CancellationPlan, Launchable, DirectRows, GroupRows, StatesLeft, OwnsGroups, Admits, Undertaking.Sound,
           CancelsMembership, World.Calm, SortedSet, Undertaking.Document, BoundOutbox.RequestAt, WellFormed;
      souls := [];
      PlannedSize(world.cfg, world.log, seen, b, world.shelf);
      ghost var launch := world.Calm() && b.op.id !in world.shelf.documents &&
                Launchable(world.cfg, signer, b.state, b.op.id, to, world.clock);
      if launch {
        LaunchFacts(world.cfg, signer, b, to, world.clock);
      }
      var direct := PlanDirect(world, signer, b.state.rows, b.state.destinations, b.op.previous, false);
      ghost var first := world.Trail();
      if direct.None? {
        return None, souls;
      }
      var groups;
      groups, souls := PlanGroups(world, signer, b.state.rows, b.state.destinations, b.op.previous, b.state.owner,
                                  b.op.id);
      ghost var second := world.Trail();
      FollowsTransitive(old(world.Trail()), first, second);
      if groups.None? {
        return None, souls;
      }
      FrozenStays(old(world.Trail()), second, b, seen);
      PlanTogether(world.cfg, signer, b, direct.value, groups.value, souls);
      if launch {
        LaunchDocument(Undertaking(signer, b.state, b.op.id, to, souls, world.clock), world.cfg, world.shelf, outbox);
      }
      saved := outbox.PrepareReassignment(b.op.id, to, direct.value + groups.value);
      FollowsTransitive(old(world.Trail()), second, world.Trail());
    }

    /** How an undisturbed run ends: it completes if and only if every check of the pass has room,
        and then with the rows of version `s` and both plans; else it says which batch has none. */
    ghost predicate Finished(job: Job, s: State, result: RunResult)
      reads world
    {
      && (result.Completed? <==> Ample(job, s))
      && (!CancelFits(job, s) ==> result == PendingAt(CancellationStage))
      && (CancelFits(job, s) && !GrantFits(job, s) ==> result == PendingAt(ReplacementStage))
      && (result.Completed? ==> Done(job, world.state) && Elements(world.state.rows) == Target(job, s))
    }

    /** How an undisturbed undertaking ends, by number of rows, destinations and memberships. */
    ghost predicate Undertook(u: Undertaking, result: RunResult)
      reads world
    {
      && u.Sound(world.cfg)
      && (result == PendingAt(CancellationStage) <==>
            |u.s.rows| + 4 * |u.s.destinations| + 2 * |u.souls| - 1 > MAX_ROWS)
      && (result.Completed? <==> |u.s.rows| + 6 * |u.s.destinations| + |u.souls| - 1 <= MAX_ROWS)
      && (result.Completed? ==>
          Done(u.Job(), world.state) && Elements(world.state.rows) == Elements(u.s.rows) + u.Rows())
    }

    lemma FinishedUndertaking(u: Undertaking, result: RunResult)
      requires u.Sound(world.cfg) && Claimed(u) && Finished(u.Job(), Bound(u), result)
      ensures Undertook(u, result)
    {
      hide Undertaking.Sound, Undertaking.Withdrawn, Undertaking.Groups, Undertaking.Granted, Undertaking.Registry,
           CancelFits, GrantFits, Done, Claimed;
      BoundRoom(u, world.cfg);
      BoundTarget(u);
    }

    /** How a call ends that finds a fresh claim, or an operation that can be finished. */
    ghost predicate Ends(pristine: bool, resumable: bool, known: Job, u: Undertaking, result: RunResult)
      reads world
    {
      (pristine ==> Undertook(u, result)) && (resumable ==> Finished(known, u.s, result))
    }

    /** What the publisher would open on. */
    lemma LaunchedScene(u: Undertaking, outbox: BoundOutbox, before: Course)
      requires world.Valid() && Launched(u, outbox, before) && before.log != [] && Inv(before.log[0], u.s)
      requires u.signer == signer && u.at == before.clock && u.id !in before.shelf.plans
      ensures u.Sound(world.cfg) && Claimed(u)
      ensures Smooth(Scope(world.cfg, outbox.forum, outbox.agent, signer), Now(), u.Job()) && world.state == Bound(u)
    {
      hide Undertaking.Sound, Undertaking.Document, Undertaking.Registry, Smooth, LegalRun, Claimed;
      LaunchIsSmooth(u, world.cfg, world.log, world.shelf);
    }

    ghost predicate ScratchReady(pristine: bool, u: Undertaking, r: Option<BoundOutbox>, job: Job)
      reads world
    {
      pristine ==>
        && u.Sound(world.cfg) && Claimed(u) && r.Some? && job == u.Job() && world.state == Bound(u)
        && Smooth(Scope(world.cfg, r.value.forum, r.value.agent, signer), Now(), job)
    }

    ghost predicate BoundReady(resumable: bool, known: Job, s: State, r: Option<BoundOutbox>, job: Job)
      reads world
    {
      resumable ==>
        && r.Some? && job == known && world.state == s
        && Smooth(Scope(world.cfg, r.value.forum, r.value.agent, signer), Now(), job)
    }

    lemma LaunchedIsReady(pristine: bool, u: Undertaking, before: Course, r: Option<BoundOutbox>,
                          doc: CancellationOperation, plan: Option<PlannedOn>)
      requires world.Valid() && FromScratch(pristine, u, before, r, doc, plan)
      requires pristine ==> before.log != [] && Inv(before.log[0], u.s) && u.id !in before.shelf.plans
      requires u.signer == signer && u.at == before.clock
      ensures ScratchReady(pristine, u, r, u.Job())
    {
      hide LegalRun, Smooth, Undertaking.Sound, Undertaking.Document, Undertaking.Registry, Launched, Now, Inv;
      if pristine {
        LaunchedScene(u, r.value, before);
      }
    }

    lemma FoundIsReady(resumable: bool, known: Job, s: State, scene: Scene, r: Option<BoundOutbox>,
                       doc: CancellationOperation)
      requires FromBound(resumable, known, s, scene, r, doc)
      requires resumable ==> s.operation.Some? &&
                             Smooth(Scope(world.cfg, s.forum, s.operation.value.previous, signer), scene, known)
      ensures BoundReady(resumable, known, s, r, known)
    {
      hide Smooth;
    }

    /** Prepare and bind; undisturbed, `job` is what the driver has to do from there. */
    method Ready(actor: Key, id: OperationId, to: Key, ghost known: Job, ghost scratch: bool)
      returns (r: Option<BoundOutbox>, ghost doc: CancellationOperation, ghost job: Job, ghost souls: seq<Soul>)
      requires Wired() && world.Valid()
      modifies world
      ensures world.Valid() && Follows(old(world.Trail()), world.Trail())
      ensures r.Some? ==>
                && r.value.world == world && IsFor(job, actor, id, to)
                && BoundIn(Scope(world.cfg, r.value.forum, r.value.agent, signer), world.Trail(), id, doc)
      ensures scratch ==> ScratchReady(old(Pristine(id, to)) && actor == old(world.state).owner,
                                       Undertaking(signer, old(world.state), id, to, souls, old(world.clock)), r, job)
      ensures !scratch ==> BoundReady(old(Resumable(known)) && IsFor(known, actor, id, to), known, old(world.state), r,
                                      job)
    {
      hide LegalRun, Orderly, FaithfulBytes, BoundIn, Follows, OfPlanner, Smooth, Inv, Pristine, Resumable, Now,
           World.Valid, World.Calm, FromScratch, FromBound, ScratchReady, BoundReady, Undertaking.Document;
      ghost var pristine, resumable := Pristine(id, to), Resumable(known);
      ghost var before, scene, s := world.Trail(), Now(), world.state;
      if pristine {
        PristineHere(id, to);
      }
      if resumable {
        ResumableHere(known);
      }
      ghost var plan;
      r, doc, plan := PrepareCancellations(actor, id, to, known);
      souls := SoulsOf(plan);
      ghost var u := Undertaking(signer, s, id, to, souls, before.clock);
      LaunchedIsReady(pristine && actor == s.owner, u, before, r, doc, plan);
      FoundIsReady(resumable && IsFor(known, actor, id, to), known, s, scene, r, doc);
      job := if scratch then u.Job() else known;
      if !IsFor(job, actor, id, to) {
        job := Job(actor, id, to, doc, GrantPlan(id, PlanBinding(doc, []), []), 0);
        NothingReady(u, known, s, r, job);
      }
    }

    lemma NothingReady(u: Undertaking, known: Job, s: State, r: Option<BoundOutbox>, job: Job)
      ensures ScratchReady(false, u, r, job) && BoundReady(false, known, s, r, job)
    {
    }

    lemma PristineNow(id: OperationId, to: Key)
      requires world.Valid() && Pristine(id, to)
      ensures world.state.operation.Some?
      ensures var (s, op) := (world.state, world.state.operation.value);
              && world.Calm() && Untouched(world.shelf, id) && Bindable(s, world.shelf, id, to)
              && op.id == id && op.replacement == to && op.previous == s.assignee && op.cancellationDigest == None
              && DocumentAt(Registered(world.shelf, id, SortedSet(s.destinations)), s.forum, s.assignee, id).Absent?
              && Launchable(world.cfg, signer, s, id, to, world.clock) && ClaimedOn(s, id, to, world.clock)
    {
      PristineFacts(world.cfg, signer, world.log, world.shelf, id, to, world.clock);
    }

    lemma PristineHere(id: OperationId, to: Key)
      requires world.Valid() && Pristine(id, to)
      ensures world.log != [] && Inv(world.log[0], world.state) && id !in world.shelf.plans && world.Calm()
    {
      PristineFacts(world.cfg, signer, world.log, world.shelf, id, to, world.clock);
    }

    lemma ResumableHere(job: Job)
      requires world.Valid() && Resumable(job)
      ensures !Untouched(world.shelf, job.id) && world.Calm() && world.state.operation.Some?
      ensures Smooth(Scope(world.cfg, world.state.forum, world.state.operation.value.previous, signer), Now(), job)
    {
      hide LegalRun, Smooth;
      ResumableNow(job);
    }

    lemma ResumableNow(job: Job)
      requires world.Valid() && Resumable(job)
      ensures world.state.operation.Some?
      ensures var (s, op) := (world.state, world.state.operation.value);
              && Bindable(s, world.shelf, job.id, job.to) && world.Calm() && s.owner == job.actor
              && op.id == job.id && op.replacement == job.to && job.id in world.shelf.registries
              && Registered(world.shelf, job.id, SortedSet(s.destinations)) == world.shelf
              && DocumentAt(world.shelf, s.forum, op.previous, job.id) == Found(job.doc)
              && Exec(s, Command.BindCancellations(job.actor, job.id, job.to, OfCancellations(job.doc))) == Keep
    {
      hide LegalRun, Smooth, Bindable, Registered, DocumentAt, Exec, Orderly;
      NowFacts();
      var scope := Scope(world.cfg, world.state.forum, world.state.operation.value.previous, signer);
      ResumableFacts(scope, Now(), job, world.planned);
    }

    /** Prepare, bind, and run the driver. */
    method Drive(actor: Key, id: OperationId, to: Key, ghost known: Job)
      returns (result: RunResult, ghost souls: seq<Soul>)
      requires Wired() && world.Valid()
      modifies world
      ensures world.Valid() && Follows(old(world.Trail()), world.Trail())
      ensures result.Completed? ==> HasReceipt(world.state, id, result.receipt) && result.receipt.replacement == to
      ensures Ends(old(Pristine(id, to)) && actor == old(world.state).owner,
                   old(Resumable(known)) && IsFor(known, actor, id, to), known,
                   Undertaking(signer, old(world.state), id, to, souls, old(world.clock)), result)
    {
      hide LegalRun, Orderly, FaithfulBytes, BoundIn, Follows, HasReceipt, Launchable, Smooth, Undertaking.Sound,
           Claimed, Undertaking.Document, Undertaking.Registry, Finished, Undertook, Now;
      var outbox;
      ghost var doc, job;
      ghost var scratch := Pristine(id, to) && actor == world.state.owner;
      if Resumable(known) {
        ResumableHere(known);
      }
      outbox, doc, job, souls := Ready(actor, id, to, known, scratch);
      ghost var first := world.Trail();
      if outbox.None? {
        return PendingAt(CancellationStage), souls;
      }
      result := Publish(actor, id, to, outbox.value, doc, job);
      FollowsTransitive(old(world.Trail()), first, world.Trail());
      if old(Pristine(id, to)) && actor == old(world.state).owner {
        FinishedUndertaking(Undertaking(signer, old(world.state), id, to, souls, old(world.clock)), result);
      }
    }

    /** Wire the publisher, and resume. */
    method Publish(actor: Key, id: OperationId, to: Key, outbox: BoundOutbox, ghost doc: CancellationOperation,
                   ghost job: Job)
      returns (result: RunResult)
      requires world.Valid() && outbox.world == world
      requires BoundIn(Scope(world.cfg, outbox.forum, outbox.agent, signer), world.Trail(), id, doc)
      requires job.actor == actor && job.id == id && job.to == to
      modifies world
      ensures world.Valid() && Follows(old(world.Trail()), world.Trail())
      ensures result.Completed? ==> HasReceipt(world.state, id, result.receipt) && result.receipt.replacement == to
      ensures old(Smooth(Scope(world.cfg, outbox.forum, outbox.agent, signer), Now(), job)) ==>
              Finished(job, old(world.state), result)
    {
      hide LegalRun, Orderly, FaithfulBytes, BoundIn, Follows, HasReceipt, Smooth, CancelFits, GrantFits, Done, Target;
      var plans := new ReplacementOutbox(outbox);
      var reconciler := new Reconciler(plans);
      var publisher := new AssignmentPublisher(reconciler, signer);
      result := publisher.Resume(actor, id, to, doc, job);
    }

    /** The receipt that a version already has. */
    method Recall(state: State, ghost seen: nat, id: OperationId, to: Key) returns (result: RunResult)
      requires world.Valid() && seen < |world.log| && world.log[seen] == state && id in state.receipts
      ensures result.Completed? ==> HasReceipt(world.state, id, result.receipt) && result.receipt.replacement == to
      ensures if state.receipts[id].replacement == to then result == Completed(state.receipts[id])
              else !result.Completed?
    {
      hide LegalRun, HasReceipt;
      SavedReceipt(world.cfg, world.log, seen, id);
      KeptReceipt(world.cfg, world.log, seen, world.etag, id);
      return if state.receipts[id].replacement == to then Completed(state.receipts[id])
             else PendingAt(CancellationStage);
    }

    /** Resume an operation end to end: the receipt it has, or one more run of the driver. Left
        alone, a run completes exactly if it has room, from a fresh claim as well as from
        wherever an earlier one has come to (`known`). */
    method Resume(actor: Key, id: OperationId, to: Key, ghost known: Job)
      returns (result: RunResult, ghost souls: seq<Soul>)
      requires Wired() && world.Valid()
      modifies world
      ensures world.Valid() && Follows(old(world.Trail()), world.Trail())
      ensures result.Completed? ==> HasReceipt(world.state, id, result.receipt) && result.receipt.replacement == to
      ensures result.Completed? ==> Vouched(world.cfg, old(world.Trail()), world.Trail(), actor)
      ensures Recalled(old(world.Calm()), old(OwnsForum(world.cfg, world.state, actor, world.clock)),
                       old(world.state).receipts, id, to, result, world.Still())
      ensures old(OwnsForum(world.cfg, world.state, actor, world.clock)) ==>
                Ends(old(Pristine(id, to)) && actor == old(world.state).owner,
                     old(Resumable(known)) && IsFor(known, actor, id, to), known,
                     Undertaking(signer, old(world.state), id, to, souls, old(world.clock)), result)
    {
      hide LegalRun, Orderly, FaithfulBytes, Follows, HasReceipt, OwnsForum, Launchable, Smooth, Finished, Undertook,
           Vouched, Untouched;
      souls := [];
      NoReceiptYet(id, to, known);
      var state, seen := Owner(actor);
      ghost var first := world.Trail();
      if state.None? {
        return PendingAt(CancellationStage), souls;
      }
      if id in state.value.receipts {
        result := Recall(state.value, seen, id, to);
        return result, souls;
      }
      result, souls := Drive(actor, id, to, known);
      FollowsTransitive(old(world.Trail()), first, world.Trail());
      VouchedStays(world.cfg, old(world.Trail()), first, world.Trail(), actor);
    }

    lemma NoReceiptYet(id: OperationId, to: Key, known: Job)
      requires world.Valid()
      ensures Pristine(id, to) ==> id !in world.state.receipts && world.Calm()
      ensures Resumable(known) ==> known.id !in world.state.receipts && world.Calm()
    {
      hide LegalRun, Smooth, Launchable;
      if Pristine(id, to) {
        PristineFacts(world.cfg, signer, world.log, world.shelf, id, to, world.clock);
        ClaimedHasNoReceipt(world.log[0], world.state, id, to, world.clock);
      }
      if Resumable(known) {
        NowFacts();
        ResumableHasNoReceipt(Scope(world.cfg, world.state.forum, world.state.operation.value.previous, signer), Now(),
                              known);
      }
    }

    /** Nobody else acts, the owner's evidence is in order, and a claim would be accepted. */
    ghost predicate Startable(actor: Key, id: OperationId, to: Key, expected: nat)
      reads world
    {
      && world.Calm() && Untouched(world.shelf, id) && OwnsForum(world.cfg, world.state, actor, world.clock)
      && Exec(world.state, Command.Claim(actor, id, to, expected)).Written?
      && InOrder(world.cfg, signer, world.state, id, to, world.clock)
      && world.state.revision + 5 * |world.state.destinations| + 6 <= MAX_SAFE_INTEGER &&
         world.clock <= MAX_SAFE_INTEGER
    }

    twostate predicate StartEnds(actor: Key, id: OperationId, to: Key, expected: nat, new result: RunResult,
                                 new souls: seq<Soul>)
      reads world
    {
      old(Startable(actor, id, to, expected)) ==>
        var claimed := Exec(old(world.state), Command.Claim(actor, id, to, expected));
        claimed.Written? && Undertook(Undertaking(signer, claimed.next, id, to, souls, old(world.clock)), result)
    }

    /** Nobody else acts, the owner's evidence is in order, there is no receipt yet, and the claim is
        answered so. */
    ghost predicate Claiming(actor: Key, id: OperationId, to: Key, expected: nat, answer: Outcome)
      reads world
    {
      && world.Calm() && OwnsForum(world.cfg, world.state, actor, world.clock) && id !in world.state.receipts
      && Exec(world.state, Command.Claim(actor, id, to, expected)) == answer
    }

    /** The claim is there, or it was refused or lost. */
    method MakeClaim(actor: Key, id: OperationId, to: Key, expected: nat) returns (ok: bool)
      requires Wired() && world.Valid()
      modifies world
      ensures world.Valid() && Follows(old(world.Trail()), world.Trail())
      ensures old(world.Calm()) ==>
                && world.Calm() && world.clock == old(world.clock) && world.shelf == old(world.shelf)
                && match Exec(old(world.state), Command.Claim(actor, id, to, expected))
                   case Refused(_) => !ok && world.Still()
                   case Keep => ok && world.Still()
                   case Written(next) => ok && world.state == next && world.log == old(world.log) + [next]
    {
      hide LegalRun, Orderly, FaithfulBytes, Follows, Exec;
      var r, at := journal.Claim(actor, id, to, expected);
      assert old(world.log) + [] == old(world.log);
      return r.Replied? && !r.outcome.Refused?;
    }

    /** Claim first, unless the operation is already complete. Left alone, with the evidence in
        order, an accepted claim completes if and only if the rows, six for each destination and
        one for each membership to cancel, less one, are at most what a refresh takes. A refused
        claim changes nothing, and a claim that was made before is resumed. */
    method Start(actor: Key, id: OperationId, to: Key, expected: nat, ghost known: Job)
      returns (result: RunResult, ghost souls: seq<Soul>)
      requires Wired() && world.Valid()
      modifies world
      ensures world.Valid() && Follows(old(world.Trail()), world.Trail())
      ensures result.Completed? ==> HasReceipt(world.state, id, result.receipt) && result.receipt.replacement == to
      ensures result.Completed? ==> Vouched(world.cfg, old(world.Trail()), world.Trail(), actor)
      ensures Recalled(old(world.Calm()), old(OwnsForum(world.cfg, world.state, actor, world.clock)),
                       old(world.state).receipts, id, to, result, world.Still())
      ensures StartEnds(actor, id, to, expected, result, souls)
      ensures forall reason | old(Claiming(actor, id, to, expected, Refused(reason))) ::
                world.Still() && !result.Completed?
      ensures old(Claiming(actor, id, to, expected, Keep)) ==>
                Ends(old(Pristine(id, to)) && actor == old(world.state).owner,
                     old(Resumable(known)) && IsFor(known, actor, id, to), known,
                     Undertaking(signer, old(world.state), id, to, souls, old(world.clock)), result)
    {
      hide LegalRun, Orderly, FaithfulBytes, Follows, HasReceipt, Exec, OwnsForum, InOrder, Undertook, Launchable,
           Untouched, Vouched, Finished, Smooth, Ends;
      souls := [];
      ghost var startable, repeated := Startable(actor, id, to, expected), Claiming(actor, id, to, expected, Keep);
      if startable {
        StartFacts(world.cfg, signer, world.log, actor, id, to, expected, world.clock);
      }
      var state, seen := Owner(actor);
      ghost var first := world.Trail();
      if state.None? {
        return PendingAt(CancellationStage), souls;
      }
      if id in state.value.receipts {
        result := Recall(state.value, seen, id, to);
        return result, souls;
      }
      var claimed := MakeClaim(actor, id, to, expected);
      ghost var second := world.Trail();
      FollowsTransitive(old(world.Trail()), first, second);
      if !claimed {
        return PendingAt(CancellationStage), souls;
      }
      ghost var pristine, resumable, s := Pristine(id, to), Resumable(known), world.state;
      assert startable ==> pristine && s == Exec(old(world.state), Command.Claim(actor, id, to, expected)).next;
      assert repeated ==> pristine == old(Pristine(id, to)) && resumable == old(Resumable(known));
      result, souls := Resume(actor, id, to, known);
      FollowsTransitive(old(world.Trail()), second, world.Trail());
      FollowsTransitive(first, second, world.Trail());
      VouchedStays(world.cfg, old(world.Trail()), first, world.Trail(), actor);
      if startable {
        PristineEnds(resumable && IsFor(known, actor, id, to), known,
                     Undertaking(signer, s, id, to, souls, old(world.clock)), result);
      }
    }

    lemma PristineEnds(resumable: bool, known: Job, u: Undertaking, result: RunResult)
      requires Ends(true, resumable, known, u, result)
      ensures Undertook(u, result)
    {
    }

    /** The owner of the forum is its verified owner on version `n` of the course too. */
    ghost predicate OwnsAt(c: Course, actor: Key) {
      c.etag < |c.log| && OwnsForum(world.cfg, c.log[c.etag], actor, c.clock)
    }

    /** A client that starts an operation again, for instance because the first answer was lost,
        with anything going on in between. The same receipt comes back; and if nobody else
        acts from then on, nothing is written. After an undisturbed start that completed,
        the second one needs no more. */
    method StartTwice(actor: Key, id: OperationId, to: Key, expected: nat, again: nat)
      returns (first: RunResult, second: RunResult, ghost between: Course)
      requires Wired() && world.Valid()
      modifies world
      ensures world.Valid() && Follows(old(world.Trail()), between) && Follows(between, world.Trail())
      ensures first.Completed? && second.Completed? ==> second == first
      ensures first.Completed? && between.calm && OwnsAt(between, actor) ==> second == first && world.Trail() == between
      ensures old(Startable(actor, id, to, expected)) && first.Completed? ==>
                second == first && world.Trail() == between
    {
      hide LegalRun, Orderly, FaithfulBytes, Follows, Exec, OwnsForum, Startable, Undertook, Vouched, Untouched,
           Finished, Smooth, Launchable, Ends, Claiming;
      ghost var any: Job := *;
      ghost var souls, startable, before := [], Startable(actor, id, to, expected), world.Trail();
      if startable {
        StartableFacts(actor, id, to, expected);
      }
      first, souls := Start(actor, id, to, expected, any);
      ghost var start := world.Trail();
      if startable && first.Completed? {
        StartedOwns(before, actor, id, to, expected, first, souls);
      }
      var _ := world.Await();
      between := world.Trail();
      FollowsTransitive(before, start, between);
      if first.Completed? {
        StillReceipt(start, between, id, first.receipt);
      }
      second, souls := Start(actor, id, to, again, any);
      if first.Completed? {
        StillReceipt(between, world.Trail(), id, first.receipt);
      }
    }

    lemma StillReceipt(a: Course, b: Course, id: OperationId, receipt: Receipt)
      requires LegalRun(world.cfg, b.log) && Follows(a, b) && a.etag + 1 == |a.log| && b.etag + 1 == |b.log|
      requires HasReceipt(a.log[a.etag], id, receipt)
      ensures HasReceipt(b.log[b.etag], id, receipt)
    {
      hide LegalRun;
      ReceiptStays(world.cfg, b.log, a.etag, b.etag, id, receipt);
    }

    lemma StartableFacts(actor: Key, id: OperationId, to: Key, expected: nat)
      requires world.Valid() && Startable(actor, id, to, expected)
      ensures world.Calm() && OwnsForum(world.cfg, world.state, actor, world.clock)
      ensures Exec(world.state, Command.Claim(actor, id, to, expected)).Written?
    {
    }

    /** The verified owner of an undertaking is so still when it is complete. */
    lemma StartedOwns(before: Course, actor: Key, id: OperationId, to: Key, expected: nat, result: RunResult,
                      souls: seq<Soul>)
      requires world.Valid() && Follows(before, world.Trail()) && before.calm && before.etag + 1 == |before.log|
      requires OwnsAt(before, actor) && result.Completed?
      requires var claimed := Exec(before.log[before.etag], Command.Claim(actor, id, to, expected));
               claimed.Written? && Undertook(Undertaking(signer, claimed.next, id, to, souls, before.clock), result)
      ensures OwnsAt(world.Trail(), actor) && world.Calm()
    {
      hide LegalRun, Undertaking.Sound, Undertaking.Rows, Done, Exec, OwnsForum;
      var s, c := before.log[before.etag], Command.Claim(actor, id, to, expected);
      LegalRunIsRun(world.cfg, world.log);
      RunInv(world.log, before.etag);
      RunInv(world.log, world.etag);
      RunSince(world.log, before.etag, world.etag);
      ClaimEffect(world.log[0], s, c);
      StillOwned(Undertaking(signer, Exec(s, c).next, id, to, souls, before.clock), world.cfg, s, world.state, actor);
    }

    /** Give an operation up (lib/delegation-runtime.ts:146). */
    method Abort(actor: Key, id: OperationId) returns (r: Reply, ghost seen: nat)
      requires Wired() && world.Valid()
      modifies world
      ensures world.Valid() && Follows(old(world.Trail()), world.Trail())
      ensures r.Replied? ==> Vouched(world.cfg, old(world.Trail()), world.Trail(), actor)
      ensures r.Replied? ==> old(world.etag) <= seen <= world.etag &&
                             r.outcome == Exec(world.log[seen], Command.Abort(actor, id))
      ensures r.Replied? && r.outcome.Written? ==> seen < world.etag && world.log[seen + 1] == r.outcome.next
      ensures old(world.Calm()) && !old(OwnsForum(world.cfg, world.state, actor, world.clock)) ==>
                r == Lost && world.Still()
      ensures old(world.Calm() && OwnsForum(world.cfg, world.state, actor, world.clock)) ==>
                && r == Replied(Exec(old(world.state), Command.Abort(actor, id)))
                && world.log == old(world.log) + if r.outcome.Written? then [r.outcome.next] else []
    {
      hide LegalRun, Orderly, FaithfulBytes, Follows, OwnsForum, Vouched, Exec;
      var state, _ := Owner(actor);
      ghost var first := world.Trail();
      if state.None? {
        return Lost, world.etag;
      }
      r, seen := journal.Abort(actor, id);
      FollowsTransitive(old(world.Trail()), first, world.Trail());
      Monotone(old(world.Trail()), first);
      VouchedStays(world.cfg, old(world.Trail()), first, world.Trail(), actor);
    }

    /** The access check of a child (lib/identity/forum-child-write.ts:7-16), and of its target. */
    method CheckForumChildWrite(graph: Graph, record: DrawerRecord, ghost all: set<Row>, ghost now: nat)
      returns (allowed: bool)
      requires FaithfulBytes(world.cfg) && Installed(world.cfg, all, now, graph)
      ensures allowed <==>
                && Owned(all, record.id) && PrincipalOf(record.id) == record.agent
                && (record.writer != record.agent ==>
                      InForce(world.cfg, all, true, record.id, record.writer, now) &&
                      InForce(world.cfg, all, false, record.id, record.writer, now))
                && (record.target.Some? ==>
                      Owned(all, record.target.value) &&
                      (PrincipalOf(record.target.value) == record.writer ||
                       InForce(world.cfg, all, false, record.target.value, record.writer, now)))
    {
      hide InForce, CanDirect, Owned, Graph.Direct, Graph.HasOwner, FaithfulBytes, Installed;
      OwnerAgrees(world.cfg, all, now, graph, record.id);
      DirectReads(graph, all, false, record.id, record.writer, now);
      DirectReads(graph, all, true, record.id, record.writer, now);
      if record.target.Some? {
        DirectReads(graph, all, false, record.target.value, record.writer, now);
      }
      if !graph.HasOwner(record.id) || PrincipalOf(record.id) != record.agent {
        return false;
      }
      if !graph.Direct(false, record.id, record.writer) {
        return false;
      }
      if record.writer != record.agent && !graph.Direct(true, record.id, record.writer) {
        return false;
      }
      return record.target.None? || graph.Direct(false, record.target.value, record.writer);
    }

    lemma DirectReads(graph: Graph, all: set<Row>, post: bool, target: ObjectId, accessor: Key, now: nat)
      requires FaithfulBytes(world.cfg) && Installed(world.cfg, all, now, graph)
      ensures graph.Direct(post, target, accessor) <==>
                Owned(all, target) &&
                  (accessor == PrincipalOf(target) || InForce(world.cfg, all, post, target, accessor, now))
    {
      hide FaithfulBytes, Installed, InForce, CanDirect, Graph.Direct, Owned;
      DirectAgrees(world.cfg, all, now, graph, post, target, accessor);
      DirectIsInForce(world.cfg, all, post, target, accessor, now);
    }

    /** Everything that is asked of a child, by the rows of one version at one second. */
    ghost predicate Cleared(actor: Key, child: Child, rows: seq<Row>, at: nat) {
      && child.record.writer == actor && child.record.issuedAt <= at
      && MayWriteChild(world.cfg, rows, child.record, at)
      && writerKey(actor, child.record.issuedAt, at) && signed(child)
    }

    /** One attempt to authorize a child: refused, too late to tell, or granted by the rows of
        version `checked`, at the second that is still the current one. */
    method CheckChild(actor: Key, child: Child) returns (verdict: CheckVerdict, ghost checked: nat, ghost at: nat)
      requires Wired() && world.Valid() && child.record.writer == actor
      modifies world
      ensures world.Valid() && Follows(old(world.Trail()), world.Trail())
      ensures verdict == CheckPassed ==>
                checked <= world.etag && at == world.clock && Cleared(actor, child, world.log[checked].rows, at)
      ensures old(world.Calm()) ==>
                world.Still() &&
                  verdict == if Cleared(actor, child, world.state.rows, world.clock) then CheckPassed else CheckDenied
    {
      hide LegalRun, Orderly, FaithfulBytes, Follows, MayWriteChild, Admits, InForce, Owned;
      checked, at := 0, world.clock;
      FollowsReflexive(world.Trail());
      var now := world.clock;
      if child.record.issuedAt > now {
        return CheckDenied, checked, at;
      }
      var alive := world.Await();
      ghost var first := world.Trail();
      if !alive {
        return CheckDenied, checked, at;
      }
      checked := world.etag;
      var rows := world.state.rows;
      alive := world.Await();
      FollowsTransitive(old(world.Trail()), first, world.Trail());
      Monotone(first, world.Trail());
      if !alive {
        return CheckDenied, checked, at;
      }
      if world.clock != now {
        return CheckExpired, checked, at;
      }
      MayWriteMeans(world.cfg, rows, child.record, now);
      var graph := Refresh.Refresh(world.cfg, rows, now);
      if graph.None? || !writerKey(actor, child.record.issuedAt, now) {
        return CheckDenied, checked, at;
      }
      var allowed := CheckForumChildWrite(graph.value, child.record, Elements(rows), now);
      if !allowed || !signed(child) {
        return CheckDenied, checked, at;
      }
      return CheckPassed, checked, at;
    }

    /** A well-formed record of the forum and its owner that is cleared by the rows of the version. */
    ghost predicate Publishable(actor: Key, child: Child, s: State, at: nat) {
      && ParsesDrawerRecord(child.record) && child.record.forum == s.forum && child.record.agent == s.owner
      && Cleared(actor, child, s.rows, at)
    }

    /** Publish a child record. The fence: the version it extends is the very version its
        authority was checked on, if and only if the caller's expected revision was not
        ahead of that version. Left alone, exactly what is publishable reaches the journal. */
    method PublishChild(actor: Key, expected: nat, child: Child)
      returns (r: Reply, ghost checked: nat, ghost at: nat, ghost extended: nat)
      requires Wired() && world.Valid()
      modifies world
      ensures world.Valid() && Follows(old(world.Trail()), world.Trail())
      ensures r.Replied? ==>
                && checked <= extended <= world.etag && Publishable(actor, child, world.log[checked], at)
                && r.outcome == Exec(world.log[extended], Command.WriteChild(expected, child))
      ensures r.Replied? && r.outcome.Written? ==>
                && extended < world.etag && world.log[extended + 1] == r.outcome.next
                && (checked == extended <==> expected <= checked)
      ensures old(world.Calm() && Publishable(actor, child, world.state, world.clock)) ==>
                && r == Replied(Exec(old(world.state), Command.WriteChild(expected, child)))
                && world.log == old(world.log) + if r.outcome.Written? then [r.outcome.next] else []
      ensures old(world.Calm() && !Publishable(actor, child, world.state, world.clock)) ==> r == Lost && world.Still()
    {
      hide LegalRun, Orderly, FaithfulBytes, Follows, MayWriteChild, Exec, Attempt, Cleared;
      checked, at, extended := 0, 0, 0;
      var alive := world.Await();
      var record := child.record;
      ghost var start := world.Trail();
      if record.writer != actor {
        NotCleared(actor, child);
        return Lost, checked, at, extended;
      }
      if !alive || !ParsesDrawerRecord(record) || record.forum != world.state.forum ||
         record.agent != world.state.owner {
        return Lost, checked, at, extended;
      }
      FollowsReflexive(start);
      for attempt := 0 to MAX_ATTEMPTS
        invariant world.Valid() && Follows(old(world.Trail()), world.Trail()) && Follows(start, world.Trail())
        invariant old(world.Calm()) ==> world.Still() && attempt == 0
      {
        ghost var first := world.Trail();
        var verdict;
        verdict, checked, at := CheckChild(actor, child);
        ghost var second := world.Trail();
        FollowsTransitive(old(world.Trail()), first, second);
        FollowsTransitive(start, first, second);
        if verdict == CheckDenied {
          return Lost, checked, at, extended;
        }
        if verdict == CheckPassed {
          SameForum(world.cfg, world.log, start.etag, checked);
          r, extended := journal.WriteChild(expected, child);
          FollowsTransitive(old(world.Trail()), second, world.Trail());
          Monotone(second, world.Trail());
          if r.Replied? && r.outcome.Written? {
            ChildExtends(world.cfg, world.log, extended, expected, child);
          }
          return r, checked, at, extended;
        }
      }
      return Lost, checked, at, extended;
    }

    lemma NotCleared(actor: Key, child: Child)
      requires child.record.writer != actor
      ensures forall rows, at :: !Cleared(actor, child, rows, at)
    {
      hide MayWriteChild;
    }

    /** One attempt to verify an admission on the rows of version `checked`. */
    method CheckAdmission(owner: Key, destination: ObjectId, rows: seq<Row>)
      returns (verdict: CheckVerdict, ghost checked: nat, ghost at: nat)
      requires Wired() && world.Valid()
      modifies world
      ensures world.Valid() && Follows(old(world.Trail()), world.Trail())
      ensures verdict == CheckPassed ==>
                checked <= world.etag && at == world.clock &&
                  MayAdmit(world.cfg, world.log[checked].rows, rows, destination, owner, at)
      ensures old(world.Calm()) ==>
                world.Still() &&
                  verdict == if MayAdmit(world.cfg, world.state.rows, rows, destination, owner, world.clock)
                             then CheckPassed else CheckDenied
    {
      hide LegalRun, Orderly, FaithfulBytes, Follows, Admits, Owned;
      checked, at := 0, world.clock;
      var now := world.clock;
      var alive := world.Await();
      ghost var first := world.Trail();
      if !alive {
        return CheckDenied, checked, at;
      }
      checked := world.etag;
      var held := world.state.rows;
      alive := world.Await();
      FollowsTransitive(old(world.Trail()), first, world.Trail());
      Monotone(first, world.Trail());
      if !alive {
        return CheckDenied, checked, at;
      }
      if world.clock != now {
        return CheckExpired, checked, at;
      }
      var graph := Refresh.Refresh(world.cfg, held + rows, now);
      if graph.None? {
        return CheckDenied, checked, at;
      }
      OwnerAgrees(world.cfg, Elements(held + rows), now, graph.value, destination);
      if !graph.value.HasOwner(destination) || PrincipalOf(destination) != owner {
        return CheckDenied, checked, at;
      }
      return CheckPassed, checked, at;
    }

    /** Admit a destination with its authority rows, under the same fence as a child write. Left
        alone, exactly the verified owner's destinations, if the rows bear him out, reach the journal. */
    method AdmitDestination(actor: Key, expected: nat, destination: ObjectId, rows: seq<Row>)
      returns (r: Reply, ghost checked: nat, ghost at: nat, ghost extended: nat)
      requires Wired() && world.Valid()
      modifies world
      ensures world.Valid() && Follows(old(world.Trail()), world.Trail())
      ensures r.Replied? ==>
                && checked <= extended <= world.etag
                && Vouched(world.cfg, old(world.Trail()), world.Trail(), actor)
                && MayAdmit(world.cfg, world.log[checked].rows, rows, destination, actor, at)
                && r.outcome == Exec(world.log[extended], Command.Admit(actor, expected, destination, rows))
      ensures r.Replied? && r.outcome.Written? ==>
                && extended < world.etag && world.log[extended + 1] == r.outcome.next
                && (checked == extended <==> expected <= checked)
      ensures old(world.Calm()) ==>
                if old(OwnsForum(world.cfg, world.state, actor, world.clock) &&
                       MayAdmit(world.cfg, world.state.rows, rows, destination, actor, world.clock)) then
                  && r == Replied(Exec(old(world.state), Command.Admit(actor, expected, destination, rows)))
                  && world.log == old(world.log) + if r.outcome.Written? then [r.outcome.next] else []
                else r == Lost && world.Still()
    {
      hide LegalRun, Orderly, FaithfulBytes, Follows, MayAdmit, Exec, Attempt, OwnsForum, Vouched;
      checked, at, extended := 0, 0, 0;
      var state, _ := Owner(actor);
      ghost var start := world.Trail();
      if state.None? {
        return Lost, checked, at, extended;
      }
      FollowsReflexive(start);
      for attempt := 0 to MAX_ATTEMPTS
        invariant world.Valid() && Follows(old(world.Trail()), world.Trail()) && Follows(start, world.Trail())
        invariant old(world.Calm()) ==> world.Still() && attempt == 0
      {
        ghost var first := world.Trail();
        var verdict;
        verdict, checked, at := CheckAdmission(state.value.owner, destination, rows);
        ghost var second := world.Trail();
        FollowsTransitive(start, first, second);
        FollowsTransitive(old(world.Trail()), start, second);
        if verdict == CheckDenied {
          return Lost, checked, at, extended;
        }
        if verdict == CheckPassed {
          r, extended := journal.Admit(actor, expected, destination, rows);
          FollowsTransitive(start, second, world.Trail());
          FollowsTransitive(old(world.Trail()), start, world.Trail());
          VouchedStays(world.cfg, old(world.Trail()), start, world.Trail(), actor);
          Monotone(second, world.Trail());
          if r.Replied? && r.outcome.Written? {
            AdmissionExtends(world.cfg, world.log, extended, actor, expected, destination, rows);
          }
          return r, checked, at, extended;
        }
      }
      return Lost, checked, at, extended;
    }
  }

  lemma SameForum(cfg: Config, log: seq<State>, i: nat, j: nat)
    requires LegalRun(cfg, log) && i < |log| && j < |log|
    ensures log[i].forum == log[j].forum && log[i].owner == log[j].owner
  {
    LegalRunIsRun(cfg, log);
    RunInv(log, i);
    RunInv(log, j);
    hide Parses;
  }

  lemma PristineFacts(cfg: Config, signer: Signer, log: seq<State>, shelf: Shelf, id: OperationId, to: Key, at: nat)
    requires LegalRun(cfg, log)
    requires var s := log[|log| - 1]; Untouched(shelf, id) && Launchable(cfg, signer, s, id, to, at)
    ensures var s := log[|log| - 1];
            && Inv(log[0], s) && Bindable(s, shelf, id, to) && s.operation.value.cancellationDigest == None
            && s.operation.value.id == id && s.operation.value.replacement == to &&
               s.operation.value.previous == s.assignee
            && DocumentAt(Registered(shelf, id, SortedSet(s.destinations)), s.forum, s.assignee, id).Absent?
            && ClaimedOn(s, id, to, at)
  {
    hide LegalRun, InOrder, Parses, SortedSet, Run;
    LegalRunIsRun(cfg, log);
    RunInv(log, |log| - 1);
  }

  lemma ResumableFacts(scope: Scope, scene: Scene, job: Job, planned: bool)
    requires Smooth(scope, scene, job) && Orderly(scene.shelf, planned)
    ensures var s := Newest(scene);
            && Bindable(s, scene.shelf, job.id, job.to) && scene.calm && s.owner == job.actor && s.operation.Some?
            && s.operation.value.id == job.id && s.operation.value.replacement == job.to &&
               job.id in scene.shelf.registries
            && Registered(scene.shelf, job.id, SortedSet(s.destinations)) == scene.shelf
            && DocumentAt(scene.shelf, scope.forum, scope.agent, job.id) == Found(job.doc)
            && Exec(s, Command.BindCancellations(job.actor, job.id, job.to, OfCancellations(job.doc))) == Keep
  {
    hide PlanReady, OnTrack, ValidDocument, Bindable, SortedSet, Orderly;
    TrackFacts(scene.log[0], scope.cfg, job, Newest(scene));
    FrozenAsListed(scene.shelf, job.id, Newest(scene).destinations, planned);
    BindableFacts(Newest(scene), scene.shelf, job);
  }

  lemma TrackFacts(genesis: State, cfg: Config, job: Job, s: State)
    requires OnTrack(genesis, cfg, job, s)
    ensures Prepared(job) && Engaged(job, s)
  {
  }

  lemma FrozenAsListed(shelf: Shelf, id: OperationId, destinations: seq<ObjectId>, planned: bool)
    requires Orderly(shelf, planned) && id in shelf.registries &&
             Elements(shelf.registries[id]) == Elements(destinations)
    ensures shelf.registries[id] == SortedSet(destinations) && Registered(shelf, id, SortedSet(destinations)) == shelf
  {
    AscendingUnique(shelf.registries[id], SortedSet(destinations));
  }

  lemma BindableFacts(s: State, shelf: Shelf, job: Job)
    requires job.doc.fence.Fence? && Prepared(job) && Engaged(job, s) && job.id.Hex?
    requires job.id in shelf.registries && shelf.registries[job.id] == SortedSet(s.destinations)
    ensures Bindable(s, shelf, job.id, job.to) && s.owner == job.actor
    ensures Exec(s, Command.BindCancellations(job.actor, job.id, job.to, OfCancellations(job.doc))) == Keep
  {
    hide Prepared, SortedSet, Parses;
  }

  lemma ClaimedHasNoReceipt(genesis: State, s: State, id: OperationId, to: Key, at: nat)
    requires Inv(genesis, s) && ClaimedOn(s, id, to, at)
    ensures id !in s.receipts
  {
    assert OperationAllowed(s, s.operation.value);
  }

  lemma ResumableHasNoReceipt(scope: Scope, scene: Scene, job: Job)
    requires Smooth(scope, scene, job)
    ensures job.id !in Newest(scene).receipts && scene.calm
  {
    hide PlanReady, DocumentAt;
  }

  lemma BoundTarget(u: Undertaking)
    requires Claimed(u)
    ensures Target(u.Job(), Bound(u)) == Elements(u.s.rows) + u.Rows()
  {
    hide Undertaking.Withdrawn, Undertaking.Groups, Undertaking.Granted, Undertaking.Registry;
  }

  /** An accepted claim of an owner in good order. */
  lemma StartFacts(cfg: Config, signer: Signer, log: seq<State>, actor: Key, id: OperationId, to: Key, expected: nat,
                   at: nat)
    requires LegalRun(cfg, log)
    requires var s := log[|log| - 1];
             && Exec(s, Command.Claim(actor, id, to, expected)).Written? && InOrder(cfg, signer, s, id, to, at)
             && s.revision + 5 * |s.destinations| + 6 <= MAX_SAFE_INTEGER && at <= MAX_SAFE_INTEGER
    ensures var s := log[|log| - 1];
            var n := Exec(s, Command.Claim(actor, id, to, expected)).next;
            && id !in s.receipts && Launchable(cfg, signer, n, id, to, at) && n.owner == actor
            && (OwnsForum(cfg, s, actor, at) ==> OwnsForum(cfg, n, actor, at))
  {
    var s, c := log[|log| - 1], Command.Claim(actor, id, to, expected);
    LegalRunIsRun(cfg, log);
    RunInv(log, |log| - 1);
    ClaimEffect(log[0], s, c);
    StepInv(log[0], s, c);
    hide LegalRun, Exec, OwnsForum;
    SameEvidence(cfg, signer, s, Exec(s, c).next, id, to, at);
    OwnsSame(cfg, s, Exec(s, c).next, actor, at);
  }

  lemma ClaimEffect(genesis: State, s: State, c: Command)
    requires Inv(genesis, s) && c.Claim? && Exec(s, c).Written?
    ensures var n := Exec(s, c).next;
            && c.id !in s.receipts && c.id.Hex? && IsSeaPubkey(c.to) && c.to != s.assignee && c.to != s.owner &&
               n.owner == c.actor == s.owner
            && n.rows == s.rows && n.destinations == s.destinations && n.assignee == s.assignee && n.forum == s.forum
            && n.operation == Some(Operation(c.id, s.assignee, c.to, Cancelling, None, None))
            && |s.rows| + 5 * |s.destinations| <= MAX_JOURNAL_ROWS && n.revision == s.revision + 1
  {
    hide Parses;
    assert c.id !in Elements(s.used);
  }

  lemma SameEvidence(cfg: Config, signer: Signer, s: State, n: State, id: OperationId, to: Key, at: nat)
    requires n.rows == s.rows && n.destinations == s.destinations && n.assignee == s.assignee && n.owner == s.owner
    ensures InOrder(cfg, signer, n, id, to, at) == InOrder(cfg, signer, s, id, to, at)
  {
  }

  lemma OwnsSame(cfg: Config, s: State, n: State, actor: Key, at: nat)
    requires n.rows == s.rows && n.forum == s.forum && n.owner == s.owner
    ensures OwnsForum(cfg, n, actor, at) == OwnsForum(cfg, s, actor, at)
  {
  }

  lemma StillOwned(u: Undertaking, cfg: Config, s: State, n: State, actor: Key)
    requires OwnsForum(cfg, s, actor, u.at) && u.Sound(cfg) && u.s.rows == s.rows
    requires n.owner == s.owner && n.forum == s.forum && Parses(n)
    requires Elements(n.rows) == Elements(u.s.rows) + u.Rows()
    ensures OwnsForum(cfg, n, actor, u.at)
  {
    hide Undertaking.Sound, Undertaking.Rows, Admits;
    UndertakingAdmitted(u, cfg);
    RowsTogether(u);
  }

  lemma OwnsForumMeans(cfg: Config, s: State, actor: Key, at: nat)
    ensures OwnsForum(cfg, s, actor, at) <==>
              && actor == s.owner && |s.rows| <= MAX_ROWS && Admits(cfg, Elements(s.rows), at)
              && Owned(Elements(s.rows), s.forum) && PrincipalOf(s.forum) == actor
  {
  }

  /** The frozen registry lists as many destinations as the version it was frozen for. */
  lemma PlannedSize(cfg: Config, log: seq<State>, seen: nat, b: Binding, shelf: Shelf)
    requires LegalRun(cfg, log) && seen < |log| && log[seen] == b.state && FrozenFor(shelf, b)
    ensures |Elements(shelf.registries[b.op.id])| == |b.state.destinations|
  {
    LegalRunIsRun(cfg, log);
    RunInv(log, seen);
    DistinctCount(b.state.destinations);
  }

  lemma PlanTogether(cfg: Config, signer: Signer, b: Binding, direct: seq<Row>, groups: seq<Row>, souls: seq<Soul>)
    requires DirectPlan(direct, b.state.rows, b.state.destinations, b.op.previous, false)
    requires Planner.Covers(cfg, Elements(b.state.rows), b.state.destinations, b.op.previous, souls) &&
             |groups| == |souls|
    requires forall k | 0 <= k < |souls| ::
               && souls[k].MemberSoul? && souls[k].member == b.op.previous &&
                  PrincipalOf(souls[k].group) == b.state.owner
               && CancelsMembership(groups[k], b.state.rows, b.state.owner, souls[k],
                                    signer.cancelId(b.op.id, souls[k]))
    ensures CancellationPlan(cfg, signer, b.state, b.op.previous, b.op.id, direct + groups, souls)
    ensures |direct + groups| <= 3 * |b.state.destinations|
  {
    hide NextDirect, CancelsMembership, Through;
    assert (direct + groups)[..2 * |b.state.destinations|] == direct;
  }

  lemma LaunchFacts(cfg: Config, signer: Signer, b: Binding, to: Key, at: nat)
    requires Launchable(cfg, signer, b.state, b.op.id, to, at) && b.state.operation == Some(b.op)
    ensures |b.state.rows| <= MAX_ROWS && Admits(cfg, Elements(b.state.rows), at) && b.op.previous == b.state.assignee
    ensures StatesLeft(b.state.rows, b.op.previous)
    ensures OwnsGroups(cfg, Elements(b.state.rows), b.state.destinations, b.op.previous, b.state.owner)
  {
  }

  lemma LaunchDocument(u: Undertaking, cfg: Config, shelf: Shelf, outbox: BoundOutbox)
    requires Launchable(cfg, u.signer, u.s, u.id, u.to, u.at) && outbox.forum == u.s.forum &&
             outbox.agent == u.s.assignee
    requires Planner.Covers(cfg, Elements(u.s.rows), u.s.destinations, u.s.assignee, u.souls)
    requires u.id in shelf.registries && shelf.registries[u.id] == u.Registry()
    ensures u.Sound(cfg) && outbox.RequestAt(shelf, u.id, u.to, u.Withdrawn() + u.Groups()) == u.Document() &&
            ValidDocument(u.Document())
  {
    LaunchIsSound(u, cfg);
    DocumentIsValid(u, cfg);
  }

  lemma Monotone(a: Course, b: Course)
    requires Follows(a, b)
    ensures a.etag <= b.etag && |a.log| <= |b.log|
    ensures forall i | 0 <= i < |a.log| :: b.log[i] == a.log[i]
  {
  }

  lemma ChildExtends(cfg: Config, log: seq<State>, i: nat, expected: nat, child: Child)
    requires LegalRun(cfg, log) && i < |log| && Exec(log[i], Command.WriteChild(expected, child)).Written?
    ensures expected == i
  {
    LegalRunIsRun(cfg, log);
    RunInv(log, i);
    hide Parses, Inv;
  }

  lemma AdmissionExtends(cfg: Config, log: seq<State>, i: nat, actor: Key, expected: nat, destination: ObjectId,
                         rows: seq<Row>)
    requires LegalRun(cfg, log) && i < |log| && Exec(log[i], Command.Admit(actor, expected, destination, rows)).Written?
    ensures expected == i
  {
    LegalRunIsRun(cfg, log);
    WhoMayWrite(log, i, Command.Admit(actor, expected, destination, rows));
  }

  lemma BindMeans(s: State, actor: Key, id: OperationId, to: Key, doc: CancellationOperation)
    requires doc.fence.Fence?
    ensures var c := Command.BindCancellations(actor, id, to, OfCancellations(doc));
            match Exec(s, c)
            case Keep => BoundTo(s, doc) && s.operation.value.id == id
            case Written(n) => BoundTo(n, doc) && n.operation.value.id == id
            case Refused(_) => true
  {
    hide Parses;
  }

  lemma KeptReceipt(cfg: Config, log: seq<State>, i: nat, j: nat, id: OperationId)
    requires LegalRun(cfg, log) && i <= j < |log| && id in log[i].receipts && log[i].receipts[id].operation == id
    ensures HasReceipt(log[j], id, log[i].receipts[id])
  {
    ReceiptStays(cfg, log, i, j, id, log[i].receipts[id]);
  }
}
