/** Where the row reservation falls short (lib/delegation-journal.ts:94): it is smaller than
    what the preflights need, and an operation whose claim was accepted can reach a version
    that no client may ever write again. */
module Wedge {
  import opened Identity
  import opened Authority
  import opened Documents
  import opened Journal
  import opened JournalRuns
  import opened Reconcile
  import opened Protocol
  import opened Reservation
  import opened Resumption
  import opened Planner
  import opened PlannerSound

  /** Grants are being published, one is missing, and the durable rows together with the
      whole plan are more than a refresh takes. */
  predicate Wedged(s: State) {
    && HasPlan(s) && s.operation.value.phase == Replacing
    && (exists g :: g in PlanOf(s).grants && g !in s.rows)
    && |s.rows| + |PlanOf(s).grants| > MAX_ROWS
  }

  lemma WedgedRefuses(cfg: Config, s: State, c: Command, at: nat)
    requires Wedged(s) && Legal(cfg, s, c, at)
    ensures !Attempt(s, c).Written?
  {
    var g :| g in PlanOf(s).grants && g !in s.rows;
    assert c.Commit? ==> false by {
      if c.Commit? {
        VerdictMeans(cfg, Reconciling, BoundCase(s), s.rows, at);
        EvidenceGrants(cfg, s, at);
      }
    }
    hide Admits, ScanDestinations, ScanGrants, CancellationsPresent;
  }

  /** Nothing follows a wedged version: not by its driver, at whatever second, nor by anyone
      else. The operation never completes, cannot be aborted, and blocks every other write. */
  lemma WedgedForever(cfg: Config, log: seq<State>, i: nat)
    requires LegalRun(cfg, log) && i < |log| && Wedged(log[i])
    ensures i == |log| - 1
  {
    hide Legal, Wedged, Attempt, Exec;
    if i + 1 < |log| {
      var c, at := LegalLogStep(cfg, log, i);
      WedgedRefuses(cfg, log[i], c, at);
    }
  }

  // ------------------------------------------------------------ who gets there

  /** Before the replacement phase: room for the checks of the cancellations, and for the one
      that begins the replacement. */
  predicate StartRoom(job: Job, s: State) {
    s.operation.Some? && s.operation.value.phase == Cancelling ==>
      var m, n := |Missing(job.doc.cancellations, s.rows)|, |Missing(job.plan.grants, s.rows)|;
      && (m > 0 ==> |s.rows| + m - 1 + |job.doc.cancellations| <= MAX_ROWS)
      && (n > 0 ==> |s.rows| + m + |job.plan.grants| <= MAX_ROWS)
  }

  /** Held up before the replacement: nothing is due, but the owner may still give up. */
  predicate HeldUp(job: Job, s: State) {
    s.operation.Some? && s.operation.value.phase == Cancelling && Exec(s, Abort(s.owner, job.id)).Written?
  }

  /** What the driver writes next, left alone, is legal for the version it extends. */
  lemma SoloWriteIsLegal(cfg: Config, job: Job, s: State)
    requires Prepared(job) && Finishable(cfg, job, s) && NextWrite(cfg, job, s).Some?
    ensures Legal(cfg, s, NextWrite(cfg, job, s).value, job.at)
  {
    hide Verdict, Sound, PlanFor;
    assert CancelCase(job) == CancellationsOnly(CaseOf(job.doc, []));
    MissingMembers(job.doc.cancellations, s.rows);
    MissingMembers(job.plan.grants, s.rows);
  }

  /** In the cancellation phase the driver adds nothing but the first missing cancellation. */
  lemma SoloWriteEffect(cfg: Config, job: Job, s: State, n: State)
    requires Prepared(job) && SoloStep(cfg, job, s, n) && n.operation.Some? && n.operation.value.phase == Cancelling
    ensures s.operation.Some? && s.operation.value.phase == Cancelling
    ensures n.rows == s.rows ||
              (Missing(job.doc.cancellations, s.rows) != [] &&
               n.rows == s.rows + [Missing(job.doc.cancellations, s.rows)[0]])
  {
    hide Verdict, Parses, Missing, Prepared, WellFormed;
    assert Attempt(s, NextWrite(cfg, job, s).value) == Written(n);
  }

  /** The driver leaves the cancellation phase when all cancellations are durable and the plan
      is bound. */
  lemma LeavesCancelling(cfg: Config, job: Job, s: State, n: State)
    requires Prepared(job) && Finishable(cfg, job, s) && SoloStep(cfg, job, s, n)
    requires s.operation.value.phase == Cancelling && (n.operation.None? || n.operation.value.phase != Cancelling)
    ensures Missing(job.doc.cancellations, s.rows) == [] && s.operation.value.grantDigest.Some?
  {
    hide Parses, Missing, WellFormed, Sound, Verdict, RowsReady;
    assert Attempt(s, NextWrite(cfg, job, s).value) == Written(n);
    if Missing(job.doc.cancellations, s.rows) != [] {
      CancelVerdicts(cfg, job, s);
    }
  }

  /** Whether there is room for the start does not change on the way. */
  lemma StartRoomStep(cfg: Config, job: Job, s: State, n: State)
    requires Prepared(job) && Finishable(cfg, job, s) && JournalRoom(job, s) && !Stuck(job, s) &&
             SoloStep(cfg, job, s, n)
    ensures StartRoom(job, s) <==> StartRoom(job, n)
  {
    hide SoloStep, Missing, RowsReady, Prepared;
    if n.operation.Some? && n.operation.value.phase == Cancelling {
      SoloWriteEffect(cfg, job, s, n);
      if n.rows != s.rows {
        StartPublication(cfg, job, s, n);
      }
    } else if s.operation.value.phase == Cancelling {
      LeavesCancelling(cfg, job, s, n);
    }
  }

  lemma StartPublication(cfg: Config, job: Job, s: State, n: State)
    requires Prepared(job) && Missing(job.doc.cancellations, s.rows) != [] && s.operation.Some? && n.operation.Some?
    requires n.rows == s.rows + [Missing(job.doc.cancellations, s.rows)[0]] &&
             |s.rows| + |job.doc.cancellations| <= MAX_ROWS
    requires s.operation.value.phase == Cancelling == n.operation.value.phase
    ensures StartRoom(job, s) <==> StartRoom(job, n)
  {
    var row := Missing(job.doc.cancellations, s.rows)[0];
    MissingMembers(job.doc.cancellations, s.rows);
    CountAfter(job, s.rows, row);
    hide Missing, Prepared;
  }

  /** A stuck operation is wedged in the replacement phase, and held up before. */
  lemma StuckEnds(genesis: State, cfg: Config, job: Job, s: State)
    requires Inv(genesis, s) && Prepared(job) && Finishable(cfg, job, s) && JournalRoom(job, s) && Stuck(job, s)
    ensures if StartRoom(job, s) then Wedged(s) else HeldUp(job, s)
  {
    MissingMembers(job.plan.grants, s.rows);
    if Missing(job.plan.grants, s.rows) != [] {
      assert Missing(job.plan.grants, s.rows)[0] in job.plan.grants;
    }
    hide Sound, Inv, Exec;
    if s.operation.value.phase == Cancelling {
      AbortWritten(genesis, job, s);
    }
  }

  lemma AbortWritten(genesis: State, job: Job, s: State)
    requires Inv(genesis, s) && Prepared(job) && Engaged(job, s) && JournalRoom(job, s) &&
             s.operation.value.phase == Cancelling
    ensures Exec(s, Abort(s.owner, job.id)).Written?
  {
    hide Parses, Missing, Prepared;
    ReparseExactly(genesis, s, Abort(s.owner, job.id));
  }

  /** How a run ends that is left alone. */
  predicate Ended(job: Job, s: State) {
    Done(job, s) || (Wedged(s) && StartRoom(job, s)) || (HeldUp(job, s) && !StartRoom(job, s))
  }

  /** Left alone at one second, the driver takes every run to the end. */
  lemma {:induction false} DriveToTheEnd(cfg: Config, job: Job, run: seq<State>) returns (whole: seq<State>)
    requires LegalRun(cfg, run) && Prepared(job)
    requires var s := run[|run| - 1]; Finishable(cfg, job, s) && JournalRoom(job, s)
    ensures LegalRun(cfg, whole) && run <= whole && SoloRun(cfg, job, whole[|run| - 1..])
    ensures NextWrite(cfg, job, whole[|whole| - 1]) == None && Ended(job, whole[|whole| - 1])
    ensures Done(job, whole[|whole| - 1]) || (StartRoom(job, whole[|whole| - 1]) <==> StartRoom(job, run[|run| - 1]))
    ensures forall i | |run| - 1 <= i < |whole| - 1 :: LegalAt(cfg, whole[i], whole[i + 1], job.at)
    decreases Measure(job, run[|run| - 1])
  {
    hide Finishable, JournalRoom, StartRoom, NextWrite, Done, Wedged, HeldUp, Stuck, Measure, Legal, Exec, Inv, Missing,
         Room, Target;
    var s := run[|run| - 1];
    LegalRunIsRun(cfg, run);
    RunInv(run, |run| - 1);
    if Stuck(job, s) {
      StuckStops(cfg, job, s);
      StuckEnds(run[0], cfg, job, s);
      whole := run;
    } else {
      var n := SoloProgress(run[0], cfg, job, s);
      SoloWriteIsLegal(cfg, job, s);
      StartRoomStep(cfg, job, s, n);
      var longer := run + [n];
      assert LegalStep(cfg, s, n) && LegalAt(cfg, s, n, job.at);
      assert forall i | 0 <= i < |run| - 1 :: LegalStep(cfg, longer[i], longer[i + 1]);
      if Done(job, n) {
        DoneStops(cfg, job, n);
        whole := longer;
        assert whole[|run| - 1..] == [s, n];
      } else {
        whole := DriveToTheEnd(cfg, job, longer);
        assert whole[|run| - 1..] == [s] + whole[|run|..];
        assert whole[|run| - 1] == longer[|run| - 1] && whole[|run|] == longer[|run|];
      }
    }
  }

  /** A legal step whose evidence, if it needs any, was evaluated at second `at`. */
  ghost predicate LegalAt(cfg: Config, s: State, n: State, at: nat) {
    exists c :: Exec(s, c) == Written(n) && Legal(cfg, s, c, at)
  }

  /** How an operation ends that is left alone, by the room that it has at the start: it is
      complete, or wedged in the replacement phase, or held up before it, where the owner can
      still abort it. */
  lemma RoomDecides(cfg: Config, job: Job, run: seq<State>) returns (whole: seq<State>)
    requires LegalRun(cfg, run) && Prepared(job)
    requires var s := run[|run| - 1]; Finishable(cfg, job, s) && JournalRoom(job, s)
    ensures LegalRun(cfg, whole) && run <= whole
    ensures forall i | |run| - 1 <= i < |whole| - 1 :: LegalAt(cfg, whole[i], whole[i + 1], job.at)
    ensures var s, last := run[|run| - 1], whole[|whole| - 1];
            if Room(job, s) then Done(job, last) else if StartRoom(job, s) then Wedged(last) else HeldUp(job, last)
  {
    hide LegalRun, Finishable, JournalRoom, StartRoom, NextWrite, Done, Wedged, HeldUp, Inv, Room, SoloStep, LegalAt;
    LegalRunIsRun(cfg, run);
    RunInv(run, |run| - 1);
    whole := DriveToTheEnd(cfg, job, run);
    AttemptsConverge(run[0], cfg, job, whole[|run| - 1..]);
  }

  /** The same for an operation that is bound and has nothing durable yet: what decides are the
      numbers of rows, cancellations and grants. */
  lemma ClaimEnds(cfg: Config, job: Job, run: seq<State>) returns (whole: seq<State>)
    requires LegalRun(cfg, run) && Prepared(job)
    requires var s := run[|run| - 1];
             Finishable(cfg, job, s) && JournalRoom(job, s) && s.operation.value.phase == Cancelling
    requires forall r | r in job.doc.cancellations || r in job.plan.grants :: r !in run[|run| - 1].rows
    requires job.doc.cancellations != [] && job.plan.grants != []
    ensures LegalRun(cfg, whole) && run <= whole
    ensures var last, rows := whole[|whole| - 1], |run[|run| - 1].rows|;
            var c, g := |job.doc.cancellations|, |job.plan.grants|;
            if rows + 2 * c - 1 <= MAX_ROWS && rows + c + 2 * g - 1 <= MAX_ROWS then Done(job, last)
            else if rows + 2 * c - 1 <= MAX_ROWS && rows + c + g <= MAX_ROWS then Wedged(last)
            else HeldUp(job, last)
  {
    var s := run[|run| - 1];
    RoomAtClaim(job, s);
    AllMissing(job.doc.cancellations, s.rows);
    AllMissing(job.plan.grants, s.rows);
    hide LegalRun, Finishable, JournalRoom, Done, Wedged, HeldUp, Prepared, Missing, Room;
    whole := RoomDecides(cfg, job, run);
  }

  /** With documents of the planner's size, seven rows per destination, less one, are enough. */
  lemma ClaimRoom(cfg: Config, job: Job, run: seq<State>) returns (whole: seq<State>)
    requires LegalRun(cfg, run) && Prepared(job)
    requires var s := run[|run| - 1]; Finishable(cfg, job, s) && JournalRoom(job, s)
    requires forall r | r in job.doc.cancellations || r in job.plan.grants :: r !in run[|run| - 1].rows
    requires var s := run[|run| - 1]; |s.rows| + 7 * |s.destinations| - 1 <= MAX_ROWS
    ensures LegalRun(cfg, whole) && run <= whole && Done(job, whole[|whole| - 1])
  {
    var s := run[|run| - 1];
    LegalRunIsRun(cfg, run);
    RunInv(run, |run| - 1);
    RunMaterial(cfg, run, |run| - 1);
    RoomAtClaim(job, s);
    PlannerSizes(cfg, job, s);
    hide LegalRun, Finishable, JournalRoom, Done, Prepared, Room;
    whole := RoomDecides(cfg, job, run);
  }

  lemma PlannerSizes(cfg: Config, job: Job, s: State)
    requires Prepared(job) && Finishable(cfg, job, s) && Material(s) && NoDuplicates(s.destinations)
    ensures |job.doc.cancellations| <= 3 * |s.destinations| && |job.plan.grants| <= 2 * |s.destinations|
  {
    hide RowsReady;
    BoundSize(s);
    PlanSize(job.plan.grants, job.doc.replacement, job.doc.fence.destinations);
    DistinctCount(s.destinations);
  }

  // ------------------------------------------------------------ accepted, and wedged

  /** Evidence with nothing wrong: signatures and key histories are in order. */
  ghost predicate Lenient(cfg: Config) {
    && cfg.accounts(0) == {}
    && (forall row :: cfg.proofOk(row, 0))
    && (forall key :: cfg.historyOk(key, 0))
  }

  const OWNER := Sea(0)
  const OLD := Sea(1)
  const NEW := Sea(2)
  const OTHER := Sea(3)
  const FORUM := Minted(Forum, 0, 0)
  const FIRST := Minted(Subtask, 0, 1)
  const SECOND := Minted(Subtask, 0, 2)
  const DESTINATIONS := [FIRST, SECOND]
  const ID := Hex(7)

  function Withdrawn(post: bool, target: ObjectId): Row {
    Direct(post, target, OLD, false, 0, GRANT_SECONDS, 1, 0, NO_PROOF)
  }

  function Granted(post: bool, target: ObjectId): Row {
    Direct(post, target, NEW, true, 0, GRANT_SECONDS, 1, 0, NO_PROOF)
  }

  /** Two owned destinations, and grants to somebody else. */
  function Durable(count: nat): seq<Row>
    requires count >= 2
  {
    [Ownership(FIRST, 0, NO_PROOF), Ownership(SECOND, 0, NO_PROOF)] +
    seq(count - 2, (k: nat) => Direct(false, FIRST, OTHER, true, 0, 1, k, 0, NO_PROOF))
  }

  const DOCUMENT := CancellationOperation(
    ID, FORUM, OLD, Fence(FORUM, OLD, ID, DESTINATIONS), Some(NEW),
    [Withdrawn(true, FIRST), Withdrawn(false, FIRST), Withdrawn(true, SECOND), Withdrawn(false, SECOND)])

  const PLAN := GrantPlan(
    ID, PlanBinding(DOCUMENT, DESTINATIONS),
    [Granted(true, FIRST), Granted(false, FIRST), Granted(true, SECOND), Granted(false, SECOND)])

  const JOB := Job(OWNER, ID, NEW, DOCUMENT, PLAN, 0)

  function Start(count: nat): State
    requires count >= 2
  {
    State(0, FORUM, OWNER, OLD, DESTINATIONS, Durable(count), None, map[], map[], [])
  }

  const CLAIM := Claim(OWNER, ID, NEW, 0)
  const BIND := BindCancellations(OWNER, ID, NEW, OfCancellations(DOCUMENT))

  function Claimed(count: nat): State
    requires count >= 2
  {
    Start(count).(revision := 1, operation := Some(Operation(ID, OLD, NEW, Cancelling, None, None)), used := [ID])
  }

  function Bound(count: nat): State
    requires count >= 2
  {
    Claimed(count).(revision := 2,
      operation := Some(Operation(ID, OLD, NEW, Cancelling, Some(OfCancellations(DOCUMENT)), None)))
  }

  lemma DurableRows(count: nat)
    requires count >= 2
    ensures |Durable(count)| == count
    ensures forall r | r in Durable(count) ::
              WellFormed(r) && r.issuedAt == 0 && SignerOf(r) == OWNER &&
              (r in {Ownership(FIRST, 0, NO_PROOF), Ownership(SECOND, 0, NO_PROOF)} ||
               (r.Direct? && r.accessor == OTHER && r.target == FIRST))
    ensures Owned(Elements(Durable(count)), FIRST) && Owned(Elements(Durable(count)), SECOND)
  {
    assert Durable(count)[0] in Elements(Durable(count)) && Durable(count)[1] in Elements(Durable(count));
  }

  lemma JobIsPrepared()
    ensures Prepared(JOB)
  {
  }

  lemma StartIsGenesis(count: nat)
    requires 2 <= count <= MAX_JOURNAL_ROWS
    ensures Genesis(Start(count))
  {
    DurableRows(count);
  }

  lemma ClaimAccepted(cfg: Config, count: nat)
    requires 2 <= count <= 1014
    ensures LegalStep(cfg, Start(count), Claimed(count))
  {
    StartIsGenesis(count);
    hide WellFormed, Durable, Verdict;
    DurableRows(count);
    assert Exec(Start(count), CLAIM) == Written(Claimed(count)) && Legal(cfg, Start(count), CLAIM, 0);
  }

  lemma DocumentIsSized()
    ensures OfPlannerSize(DOCUMENT) && CoversDestinations(DOCUMENT, DESTINATIONS)
  {
    DistinctCount(DESTINATIONS);
  }

  lemma DocumentBound(cfg: Config, count: nat)
    requires 2 <= count <= 1014
    ensures LegalStep(cfg, Claimed(count), Bound(count))
  {
    StartIsGenesis(count);
    DocumentIsSized();
    hide WellFormed, Durable, Verdict, OfPlannerSize, CoversDestinations;
    DurableRows(count);
    assert Exec(Claimed(count), BIND) == Written(Bound(count)) && Legal(cfg, Claimed(count), BIND, 0);
  }

  /** The claim is accepted on every version that has ten rows free for two destinations. */
  lemma ClaimAndBind(cfg: Config, count: nat)
    requires 2 <= count <= 1014
    ensures LegalRun(cfg, [Start(count), Claimed(count), Bound(count)])
  {
    StartIsGenesis(count);
    ClaimAccepted(cfg, count);
    DocumentBound(cfg, count);
    hide LegalStep, Genesis, Durable;
  }

  /** Rows of one signer, about three accessors, without cancellations of memberships. */
  lemma PlainRowsAdmitted(cfg: Config, rows: set<Row>)
    requires Lenient(cfg)
    requires forall r | r in rows :: WellFormed(r) && r.issuedAt == 0 && SignerOf(r) == OWNER && !r.GroupCancel?
    requires forall r | r in rows && r.Direct? :: r.accessor in {OLD, NEW, OTHER}
    ensures Admits(cfg, rows, 0)
  {
    hide WellFormed;
    assert Signers(rows) <= {OWNER};
    SubsetCount(Signers(rows), {OWNER});
    assert Accessors(rows) <= {OLD, NEW, OTHER};
    SubsetCount(Signers(rows) + Accessors(rows) + cfg.accounts(0), {OWNER, OLD, NEW, OTHER});
    assert GroundedCancels(rows);
  }

  lemma PlannedRows()
    ensures forall r | r in DOCUMENT.cancellations || r in PLAN.grants ::
              WellFormed(r) && r.issuedAt == 0 && SignerOf(r) == OWNER && r.Direct? && r.accessor in {OLD, NEW}
  {
  }

  lemma AllAdmitted(cfg: Config, count: nat)
    requires count >= 2 && Lenient(cfg)
    ensures Admits(cfg, Elements(Durable(count) + DOCUMENT.cancellations + PLAN.grants), 0)
  {
    DurableRows(count);
    PlannedRows();
    hide WellFormed, Admits, Durable, Lenient;
    PlainRowsAdmitted(cfg, Elements(Durable(count) + DOCUMENT.cancellations + PLAN.grants));
  }

  lemma OldHasNoGroups(cfg: Config, count: nat)
    requires count >= 2
    ensures Planner.Covers(cfg, Elements(Durable(count)), DESTINATIONS, OLD, [])
    ensures GroupPlan([], Elements(Durable(count)), [], OLD)
  {
    DurableRows(count);
    hide Durable, WellFormed, EdgeLive;
  }

  lemma WithdrawnIsNext(count: nat, post: bool, d: ObjectId)
    requires count >= 2
    ensures NextDirect(Withdrawn(post, d), Durable(count), post, d, OLD, false)
  {
    hide Durable, WellFormed, Owned;
    DurableRows(count);
  }

  lemma GrantedIsNext(count: nat, post: bool, d: ObjectId)
    requires count >= 2
    ensures NextDirect(Granted(post, d), Durable(count) + DOCUMENT.cancellations, post, d, NEW, true)
  {
    hide Durable, WellFormed, Owned;
    DurableRows(count);
  }

  lemma PlansAreDirect(count: nat)
    requires count >= 2
    ensures DirectPlan(DOCUMENT.cancellations, Durable(count), DESTINATIONS, OLD, false)
    ensures DirectPlan(PLAN.grants, Durable(count) + DOCUMENT.cancellations, DESTINATIONS, NEW, true)
  {
    hide Durable, NextDirect, Withdrawn, Granted;
    forall d, post: bool | d in {FIRST, SECOND}
      ensures NextDirect(Withdrawn(post, d), Durable(count), post, d, OLD, false)
      ensures NextDirect(Granted(post, d), Durable(count) + DOCUMENT.cancellations, post, d, NEW, true)
    {
      WithdrawnIsNext(count, post, d);
      GrantedIsNext(count, post, d);
    }
  }

  lemma DestinationsFree(count: nat)
    requires count >= 2
    ensures NoDuplicates(DESTINATIONS)
    ensures forall d | d in DESTINATIONS :: Owned(Elements(Durable(count)), d) && PrincipalOf(d) != OLD
    ensures forall g | g in PLAN.grants && g.Direct? :: g.from <= JOB.at < g.until
  {
    DurableRows(count);
    hide Durable, WellFormed, Owned;
  }

  lemma PlannedWithoutGroups(cfg: Config, job: Job, rows: seq<Row>, destinations: seq<ObjectId>)
    requires Prepared(job) && NoDuplicates(destinations) && job.doc.fence.destinations == destinations
    requires Planner.Covers(cfg, Elements(rows), destinations, job.doc.agent, []) &&
             GroupPlan([], Elements(rows), [], job.doc.agent)
    requires DirectPlan(job.doc.cancellations, rows, destinations, job.doc.agent, false)
    requires DirectPlan(job.plan.grants, rows + job.doc.cancellations, destinations, job.to, true)
    requires forall g | g in job.plan.grants && g.Direct? :: g.from <= job.at < g.until
    requires forall d | d in destinations :: Owned(Elements(rows), d) && PrincipalOf(d) != job.doc.agent
    ensures PlannedJob(cfg, job, rows, job.doc.cancellations, [], [], destinations)
  {
    hide Prepared, DirectPlan, Planner.Covers, GroupPlan, Owned, NoDuplicates;
    assert job.doc.cancellations + [] == job.doc.cancellations;
  }

  lemma JobIsPlanned(cfg: Config, count: nat)
    requires count >= 2
    ensures PlannedJob(cfg, JOB, Durable(count), DOCUMENT.cancellations, [], [], DESTINATIONS)
  {
    JobIsPrepared();
    OldHasNoGroups(cfg, count);
    PlansAreDirect(count);
    DestinationsFree(count);
    hide Durable, Prepared, DirectPlan, Planner.Covers, GroupPlan, Owned, NoDuplicates, PlannedJob;
    PlannedWithoutGroups(cfg, JOB, Durable(count), DESTINATIONS);
  }

  lemma BoundIsEngaged(count: nat)
    requires count >= 2 && Prepared(JOB)
    ensures Engaged(JOB, Bound(count))
  {
    hide Durable, Prepared;
  }

  lemma BoundIsFinishable(cfg: Config, count: nat)
    requires 2 <= count <= 1014 && Lenient(cfg)
    ensures Prepared(JOB) && Finishable(cfg, JOB, Bound(count))
  {
    JobIsPrepared();
    AllAdmitted(cfg, count);
    JobIsPlanned(cfg, count);
    BoundIsEngaged(count);
    hide Admits, PlannedJob, Durable, RowsReady, Prepared, Engaged, Lenient;
    PlannedIsReady(cfg, JOB, Durable(count), DOCUMENT.cancellations, [], [], DESTINATIONS);
  }

  lemma BoundHasRoom(count: nat)
    requires 2 <= count <= 1014 && Prepared(JOB)
    ensures JournalRoom(JOB, Bound(count)) && StartRoom(JOB, Bound(count))
    ensures Room(JOB, Bound(count)) <==> count <= 1013
  {
    DurableRows(count);
    AllMissing(DOCUMENT.cancellations, Durable(count));
    AllMissing(PLAN.grants, Durable(count));
  }

  /** A claim for two destinations is accepted with up to 1014 durable rows. Left alone, with
      nothing wrong with the evidence, its operation completes up to 1013; with 1014 it ends
      in a version that nobody can ever write again. */
  lemma AcceptedAndWedged(cfg: Config, count: nat) returns (log: seq<State>)
    requires 2 <= count <= 1014 && Lenient(cfg)
    ensures LegalRun(cfg, log) && [Start(count), Claimed(count), Bound(count)] <= log
    ensures if count <= 1013 then Done(JOB, log[|log| - 1]) else Wedged(log[|log| - 1])
  {
    hide LegalRun, Finishable, JournalRoom, StartRoom, Room, Durable, Prepared, Lenient, Done, Wedged, HeldUp;
    ClaimAndBind(cfg, count);
    BoundIsFinishable(cfg, count);
    BoundHasRoom(count);
    log := RoomDecides(cfg, JOB, [Start(count), Claimed(count), Bound(count)]);
  }
}
