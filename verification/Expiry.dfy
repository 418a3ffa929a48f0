/** A replacement runs against its own plan's time limit (lib/delegation-runtime.ts:72): grants
    live for a day, a bound plan cannot be replaced, and an operation that began to replace
    cannot be aborted. */
module Expiry {
  import opened Identity
  import opened Authority
  import opened Journal
  import opened JournalRuns
  import opened Reconcile
  import opened Protocol
  import opened Reservation
  import opened Resumption
  import opened Planner
  import opened PlannerSound
  import opened Wedge

  /** Grants are being published, or all are. */
  predicate InReplacement(s: State) {
    HasPlan(s) && s.operation.value.phase == Replacing
  }

  /** And one of the plan has run out at second `at`. */
  predicate Expired(s: State, at: nat) {
    InReplacement(s) && exists g :: g in PlanOf(s).grants && g.Direct? && at >= g.until
  }

  // ------------------------------------------------------------ without live grants

  lemma DeadEvidenceFails(cfg: Config, s: State, mode: Mode, at: nat)
    requires HasPlan(s) && !GrantsLive(PlanOf(s), at)
    ensures Verdict(cfg, mode, BoundCase(s), s.rows, at) != None
  {
    VerdictMeans(cfg, mode, BoundCase(s), s.rows, at);
    hide Verdict, Admits, Lost, CancellationsPresent;
  }

  /** On evidence of a second at which some grant is not live, nothing is written. */
  lemma DeadRefuses(cfg: Config, s: State, c: Command, at: nat)
    requires InReplacement(s) && !GrantsLive(PlanOf(s), at) && Legal(cfg, s, c, at)
    ensures !Attempt(s, c).Written?
  {
    hide Verdict;
    DeadEvidenceFails(cfg, s, ReplacementPreflight, at);
    DeadEvidenceFails(cfg, s, Reconciling, at);
    hide GrantsLive, BoundCase;
  }

  /** Expiry is final: nothing is written on evidence of that second or any later one. */
  lemma ExpiredRefuses(cfg: Config, s: State, c: Command, at: nat, later: nat)
    requires Expired(s, at) && at <= later && Legal(cfg, s, c, later)
    ensures !Attempt(s, c).Written?
  {
    hide Legal, Attempt;
    assert !GrantsLive(PlanOf(s), later) by {
      var g :| g in PlanOf(s).grants && g.Direct? && at >= g.until;
    }
    DeadRefuses(cfg, s, c, later);
  }

  // ------------------------------------------------------------ exactly when it can be finished

  /** The run can be continued to the operation's completion on evidence of second `at`. */
  ghost predicate CanFinish(cfg: Config, run: seq<State>, job: Job, at: nat)
    requires run != []
  {
    exists whole :: Continues(cfg, run, whole, at) && Done(job, whole[|whole| - 1])
  }

  ghost predicate Continues(cfg: Config, run: seq<State>, whole: seq<State>, at: nat)
    requires run != []
  {
    && LegalRun(cfg, whole) && run <= whole
    && forall i | |run| - 1 <= i < |whole| - 1 :: LegalAt(cfg, whole[i], whole[i + 1], at)
  }

  lemma DeadIsStuck(cfg: Config, run: seq<State>, whole: seq<State>, at: nat)
    requires run != [] && Continues(cfg, run, whole, at) && InReplacement(run[|run| - 1]) &&
             !GrantsLive(PlanOf(run[|run| - 1]), at)
    ensures whole == run
  {
    hide LegalRun, Legal, Attempt, Exec, GrantsLive, InReplacement;
    if |whole| > |run| {
      var s := run[|run| - 1];
      assert LegalAt(cfg, whole[|run| - 1], whole[|run|], at);
      var c :| Exec(s, c) == Written(whole[|run|]) && Legal(cfg, s, c, at);
      DeadRefuses(cfg, s, c, at);
      ExecIsAttempt(s, c);
    }
  }

  /** A planned operation in its replacement phase: claimed on version `i` of the run, planned
      for the destinations of that version on its rows or on later ones. */
  ghost predicate Underway(cfg: Config, job: Job, run: seq<State>, i: nat, direct: seq<Row>, groups: seq<Row>,
                           souls: seq<Soul>) {
    && LegalRun(cfg, run) && i < |run| && Pending(run[i]) && SameOperation(run[i], run[|run| - 1])
    && PlannedDocuments(cfg, job, run[i].rows, direct, groups, souls, run[i].destinations)
    && Engaged(job, run[|run| - 1]) && InReplacement(run[|run| - 1])
  }

  /** What the journal has gained since then is part of the plan, with all cancellations. */
  lemma UnderwayRows(cfg: Config, job: Job, run: seq<State>, i: nat, direct: seq<Row>, groups: seq<Row>,
                     souls: seq<Soul>)
    requires Underway(cfg, job, run, i, direct, groups, souls)
    ensures Resumption.Prepared(job)
    ensures var s := run[|run| - 1];
            && Missing(job.doc.cancellations, s.rows) == []
            && Published(run[i].rows + job.doc.cancellations, job.plan.grants, s.rows + job.doc.cancellations)
            && GrantsLive(PlanOf(s), job.at) == GrantsLive(job.plan, job.at)
  {
    var s := run[|run| - 1];
    hide LegalRun, Verdict, Publishable, RowsReady, DirectPlan, GroupPlan, Planner.Covers, Owned;
    ReplacementIsCleared(cfg, run, |run| - 1);
    NothingMissing(job.doc.cancellations, s.rows);
    ReservationHolds(cfg, run, i, |run| - 1);
    GrownElements(run[i].rows, s.rows, Publishable(s));
    PublishableIsPlanned(job, s);
    ElementsConcat(run[i].rows, job.doc.cancellations);
    ElementsConcat(s.rows, job.doc.cancellations);
  }

  lemma GrownElements(base: seq<Row>, rows: seq<Row>, allowed: set<Row>)
    requires Grown(base, rows, allowed)
    ensures Elements(base) <= Elements(rows) <= Elements(base) + allowed
  {
    assert rows == base + rows[|base|..];
  }

  lemma PublishableIsPlanned(job: Job, s: State)
    requires Resumption.Prepared(job) && Engaged(job, s) && HasPlan(s)
    ensures Publishable(s) == Elements(job.doc.cancellations) + Elements(job.plan.grants)
    ensures DocumentOf(s) == job.doc && PlanOf(s) == job.plan
  {
  }

  lemma UnderwayFinishable(cfg: Config, job: Job, run: seq<State>, i: nat, direct: seq<Row>, groups: seq<Row>,
                           souls: seq<Soul>)
    requires Underway(cfg, job, run, i, direct, groups, souls) && GrantsLive(job.plan, job.at)
    requires Admits(cfg, Elements(run[i].rows + job.doc.cancellations + job.plan.grants), job.at)
    ensures Resumption.Prepared(job) && Finishable(cfg, job, run[|run| - 1])
  {
    hide LegalRun, Admits, GrantsLive, PlannedDocuments, Published, Engaged, Sound, PlanFor, IsCancellation;
    UnderwayRows(cfg, job, run, i, direct, groups, souls);
    PlannedIsReady(cfg, job, run[i].rows, direct, groups, souls, run[i].destinations);
    ReplacementPreflightStable(cfg, FullCase(job), run[i].rows + job.doc.cancellations,
                               run[|run| - 1].rows + job.doc.cancellations, job.at);
  }

  /** Exactly when a replacement that began can still be finished. With its rows admitted at
      second `at` and room for the checks, it completes on evidence of that second if and only
      if every grant of its plan has begun and none has run out. */
  lemma FinishesWhileLive(cfg: Config, job: Job, run: seq<State>, i: nat, direct: seq<Row>, groups: seq<Row>,
                          souls: seq<Soul>)
    requires Underway(cfg, job, run, i, direct, groups, souls)
    requires Admits(cfg, Elements(run[i].rows + job.doc.cancellations + job.plan.grants), job.at)
    requires Room(job, run[|run| - 1]) && JournalRoom(job, run[|run| - 1])
    ensures CanFinish(cfg, run, job, job.at) <==> GrantsLive(job.plan, job.at)
  {
    hide LegalRun, LegalAt, Admits, GrantsLive, PlannedDocuments, Room, JournalRoom, Finishable, Engaged, Done, Wedged,
         HeldUp, StartRoom, InReplacement;
    if GrantsLive(job.plan, job.at) {
      UnderwayFinishable(cfg, job, run, i, direct, groups, souls);
      var whole := RoomDecides(cfg, job, run);
      assert Continues(cfg, run, whole, job.at);
    } else {
      UnderwayRows(cfg, job, run, i, direct, groups, souls);
      UnderwayIsNotDone(cfg, job, run, i, direct, groups, souls);
      forall whole | Continues(cfg, run, whole, job.at) ensures !Done(job, whole[|whole| - 1]) {
        DeadIsStuck(cfg, run, whole, job.at);
      }
    }
  }

  lemma UnderwayIsNotDone(cfg: Config, job: Job, run: seq<State>, i: nat, direct: seq<Row>, groups: seq<Row>,
                          souls: seq<Soul>)
    requires Underway(cfg, job, run, i, direct, groups, souls)
    ensures !Done(job, run[|run| - 1])
  {
    hide LegalRun, PlannedDocuments;
  }

  // ------------------------------------------------------------ accepted, and expired

  /** Left alone, an operation with room comes to its replacement phase. */
  lemma {:induction false} DriveToReplacement(cfg: Config, job: Job, run: seq<State>) returns (whole: seq<State>)
    requires LegalRun(cfg, run) && Resumption.Prepared(job)
    requires var s := run[|run| - 1];
             && Finishable(cfg, job, s) && JournalRoom(job, s) && Room(job, s)
             && (s.operation.value.phase == Cancelling ==> Missing(job.plan.grants, s.rows) != [])
    ensures LegalRun(cfg, whole) && run <= whole
    ensures var last := whole[|whole| - 1];
            Finishable(cfg, job, last) && JournalRoom(job, last) && Room(job, last) &&
              last.operation.value.phase == Replacing
    decreases Measure(job, run[|run| - 1])
  {
    hide JournalRoom, NextWrite, Done, Measure, Legal, Exec, Inv, Missing, Room, Target, Resumption.Prepared, RowsReady;
    var s := run[|run| - 1];
    if s.operation.value.phase == Replacing {
      whole := run;
    } else {
      LegalRunIsRun(cfg, run);
      RunInv(run, |run| - 1);
      RoomIsNotStuck(cfg, job, s);
      var n := SoloProgress(run[0], cfg, job, s);
      SoloWriteIsLegal(cfg, job, s);
      var longer := run + [n];
      assert LegalStep(cfg, s, n);
      assert forall i | 0 <= i < |run| - 1 :: LegalStep(cfg, longer[i], longer[i + 1]);
      GrantsStillMissing(cfg, job, s, n);
      whole := DriveToReplacement(cfg, job, longer);
    }
  }

  lemma RoomIsNotStuck(cfg: Config, job: Job, s: State)
    requires Room(job, s)
    ensures !Stuck(job, s)
  {
  }

  lemma GrantsStillMissing(cfg: Config, job: Job, s: State, n: State)
    requires Resumption.Prepared(job) && SoloStep(cfg, job, s, n) && n.operation.Some?
    requires Missing(job.plan.grants, s.rows) != []
    ensures n.operation.value.phase == Cancelling ==> Missing(job.plan.grants, n.rows) != []
  {
    hide SoloStep, Missing;
    if n.operation.value.phase == Cancelling {
      SoloWriteEffect(cfg, job, s, n);
      if n.rows != s.rows {
        MissingMembers(job.doc.cancellations, s.rows);
        CountAfter(job, s.rows, Missing(job.doc.cancellations, s.rows)[0]);
      }
    }
  }

  lemma ReplacingHasPlan(genesis: State, job: Job, s: State)
    requires Inv(genesis, s) && Resumption.Prepared(job) && Engaged(job, s) && s.operation.value.phase == Replacing
    ensures InReplacement(s) && PlanOf(s) == job.plan
  {
    assert OperationAllowed(s, s.operation.value);
    hide Resumption.Prepared, Parses;
  }

  /** Every operation with room comes to a version from which it can be finished now, and not
      any more once a grant of its plan has run out. */
  lemma InterruptedTooLong(cfg: Config, job: Job, run: seq<State>, g: Row) returns (log: seq<State>)
    requires LegalRun(cfg, run) && Resumption.Prepared(job)
    requires var s := run[|run| - 1];
             && Finishable(cfg, job, s) && JournalRoom(job, s) && Room(job, s)
             && (s.operation.value.phase == Cancelling ==> Missing(job.plan.grants, s.rows) != [])
    requires g in job.plan.grants && g.Direct?
    ensures LegalRun(cfg, log) && run <= log && CanFinish(cfg, log, job, job.at) && Expired(log[|log| - 1], g.until)
  {
    hide LegalRun, JournalRoom, Room, Resumption.Prepared, RowsReady, Done, Wedged, HeldUp, StartRoom, LegalAt, Inv,
         Missing;
    log := DriveToReplacement(cfg, job, run);
    LegalRunIsRun(cfg, log);
    RunInv(log, |log| - 1);
    ReplacingHasPlan(log[0], job, log[|log| - 1]);
    hide Engaged;
    var whole := RoomDecides(cfg, job, log);
    assert Continues(cfg, log, whole, job.at);
  }

  /** The operation of `Wedge.AcceptedAndWedged` that completes at second zero when it is left
      alone: if it is interrupted in its replacement phase until its grants have run out, it is
      lost with the whole journal. */
  lemma AcceptedAndExpired(cfg: Config, count: nat) returns (log: seq<State>)
    requires 2 <= count <= 1013 && Lenient(cfg)
    ensures LegalRun(cfg, log) && [Start(count), Claimed(count), Bound(count)] <= log
    ensures CanFinish(cfg, log, JOB, 0) && Expired(log[|log| - 1], GRANT_SECONDS)
  {
    hide LegalRun, JournalRoom, Room, Durable, Resumption.Prepared, Finishable, Missing, CanFinish, Expired, Lenient;
    ClaimAndBind(cfg, count);
    BoundIsFinishable(cfg, count);
    BoundHasRoom(count);
    GrantsNotDurable(count);
    log := InterruptedTooLong(cfg, JOB, [Start(count), Claimed(count), Bound(count)], PLAN.grants[0]);
  }

  lemma GrantsNotDurable(count: nat)
    requires count >= 2
    ensures Missing(PLAN.grants, Durable(count)) != []
  {
    DurableRows(count);
    AllMissing(PLAN.grants, Durable(count));
    hide Missing;
  }
}
