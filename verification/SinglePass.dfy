/** One undisturbed pass of the driver, record by record. Unlike the repeated attempts of
    `Resumption`, a single pass checks its preflight before every record of a plan, also
    before those that are already durable. */
module SinglePass {
  import opened Identity
  import opened Authority
  import opened Documents
  import opened Journal
  import opened Reconcile
  import opened Protocol
  import opened Resumption
  import opened MutationSession

  /** One when the last record of a plan still has to be published. */
  function LastDue(plan: seq<Row>, rows: seq<Row>): nat {
    if plan != [] && plan[|plan| - 1] !in rows then 1 else 0
  }

  /** A pass checks its preflight before every record, and the last check counts all rows that
      are durable by then and all candidates once more. */
  predicate CancelBudget(job: Job, s: State) {
    |s.rows| + |Missing(job.doc.cancellations, s.rows)| - LastDue(job.doc.cancellations, s.rows) +
      |job.doc.cancellations| <= MAX_ROWS
  }

  predicate GrantBudget(job: Job, s: State) {
    |s.rows| + |Missing(job.doc.cancellations, s.rows)| + |Missing(job.plan.grants, s.rows)| - LastDue(job.plan.grants,
      s.rows) +
    |job.plan.grants| <= MAX_ROWS
  }

  predicate CancelFits(job: Job, s: State) {
    Missing(job.doc.cancellations, s.rows) != [] ==> CancelBudget(job, s)
  }

  predicate GrantFits(job: Job, s: State) {
    Missing(job.plan.grants, s.rows) != [] ==> GrantBudget(job, s)
  }

  /** Room for one whole pass. */
  predicate Ample(job: Job, s: State) {
    CancelFits(job, s) && GrantFits(job, s)
  }

  /** What a pass keeps while nothing disturbs it. */
  ghost predicate OnTrack(genesis: State, cfg: Config, job: Job, s: State) {
    Inv(genesis, s) && Prepared(job) && Finishable(cfg, job, s) && JournalRoom(job, s)
  }

  /** While a batch is being published, what its last check will count does not change. */
  lemma {:induction false} DueStays(plan: seq<Row>, rows: seq<Row>, row: Row)
    ensures plan == [] || row != plan[|plan| - 1] ==> LastDue(plan, rows + [row]) == LastDue(plan, rows)
    ensures LastDue(plan, rows) <= |Missing(plan, rows)|
  {
    if plan != [] {
      MissingMembers(plan, rows);
      assert plan[|plan| - 1] in plan;
    }
  }

  /** Before the last record at most that record is missing. */
  lemma {:induction false} OnlyLastMissing(plan: seq<Row>, rows: seq<Row>)
    requires plan != [] && NoDuplicates(plan) && Elements(plan[..|plan| - 1]) <= Elements(rows)
    ensures |Missing(plan, rows)| == LastDue(plan, rows)
  {
    if |plan| > 1 {
      assert plan[0] in Elements(plan[..|plan| - 1]);
      assert plan[1..][..|plan| - 2] == plan[..|plan| - 1][1..];
      OnlyLastMissing(plan[1..], rows);
    }
  }

  lemma {:induction false} FirstMissing(plan: seq<Row>, rows: seq<Row>, i: nat)
    requires i < |plan| && Elements(plan[..i]) <= Elements(rows) && plan[i] !in rows
    ensures Missing(plan, rows) != [] && Missing(plan, rows)[0] == plan[i]
  {
    if i > 0 {
      assert plan[0] in Elements(plan[..i]);
      assert plan[1..][..i - 1] == plan[..i][1..];
      FirstMissing(plan[1..], rows, i - 1);
    }
  }

  lemma MorePublished(plan: seq<Row>, rows: seq<Row>, later: seq<Row>, i: nat)
    requires i < |plan| && Elements(plan[..i]) <= Elements(rows) <= Elements(later) && plan[i] in later
    ensures Elements(plan[..i + 1]) <= Elements(later)
  {
    assert plan[..i + 1] == plan[..i] + [plan[i]];
  }

  lemma CancelWritten(genesis: State, cfg: Config, job: Job, s: State) returns (n: State)
    requires Inv(genesis, s) && Prepared(job) && Finishable(cfg, job, s) && JournalRoom(job, s)
    requires Missing(job.doc.cancellations, s.rows) != [] && |s.rows| + |job.doc.cancellations| <= MAX_ROWS
    ensures Exec(s, Publish(job.actor, job.id, job.to, Cancelling, Missing(job.doc.cancellations, s.rows)[0])) ==
            Written(n)
    ensures AddsRow(s, n, Missing(job.doc.cancellations, s.rows)[0])
  {
    hide Inv, JournalRoom, Sound, Exec, Missing, RowsReady, PlanFor, Elements, NextWrite;
    NextCancel(cfg, job, s);
    n := CancelStep(genesis, cfg, job, s);
  }

  lemma NewCancel(genesis: State, cfg: Config, job: Job, s: State, i: nat)
    requires OnTrack(genesis, cfg, job, s) && i < |job.doc.cancellations| && s.operation.value.phase == Cancelling
    requires job.doc.cancellations[i] !in s.rows
    requires Elements(job.doc.cancellations[..i]) <= Elements(s.rows)
    requires |s.rows| + |job.doc.cancellations| <= MAX_ROWS
    requires Sound(cfg, CancellationPreflight, CancelCase(job), s.rows, job.at)
    ensures var row := job.doc.cancellations[i];
            var c := Publish(job.actor, job.id, job.to, Cancelling, row);
            var n := After(s, c);
            && !Exec(s, c).Refused? && OnTrack(genesis, cfg, job, n) && Target(job, n) == Target(job, s)
            && (n == s || (AddsRow(s, n, row) && row !in s.rows))
            && Elements(job.doc.cancellations[..i + 1]) <= Elements(n.rows)
            && Sound(cfg, CancellationPreflight, CancelCase(job), n.rows, job.at)
  {
    var row := job.doc.cancellations[i];
    var c := Publish(job.actor, job.id, job.to, Cancelling, row);
    hide Inv, Engaged, JournalRoom, Target, Sound, Exec, Attempt, RowsReady, WellFormed, PlanFor, Elements;
    FirstMissing(job.doc.cancellations, s.rows, i);
    hide Missing;
    var n := CancelWritten(genesis, cfg, job, s);
    CancelKeeps(cfg, job, s, n);
    StepInv(genesis, s, c);
    CancelRows(cfg, job, s.rows, n.rows, row, i);
  }

  lemma CancelRows(cfg: Config, job: Job, rows: seq<Row>, later: seq<Row>, row: Row, i: nat)
    requires Prepared(job) && i < |job.doc.cancellations| && row == job.doc.cancellations[i] && later == rows + [row]
    requires Elements(job.doc.cancellations[..i]) <= Elements(rows) &&
             Sound(cfg, CancellationPreflight, CancelCase(job), rows, job.at)
    ensures Elements(job.doc.cancellations[..i + 1]) <= Elements(later) &&
            Sound(cfg, CancellationPreflight, CancelCase(job), later, job.at)
  {
    hide Sound, PlanFor;
    AppendElements(rows, row);
    MorePublished(job.doc.cancellations, rows, later, i);
    assert row in Elements(job.doc.cancellations);
    CancellationPreflightStable(cfg, CancelCase(job), rows, later, job.at);
  }

  /** What publishing record `i` of the cancellations does: nothing, or add exactly it. */
  lemma CancelRecord(genesis: State, cfg: Config, job: Job, s: State, i: nat)
    requires OnTrack(genesis, cfg, job, s) && i < |job.doc.cancellations| && s.operation.value.phase == Cancelling
    requires Elements(job.doc.cancellations[..i]) <= Elements(s.rows)
    requires |s.rows| + |job.doc.cancellations| <= MAX_ROWS
    requires Sound(cfg, CancellationPreflight, CancelCase(job), s.rows, job.at)
    ensures var row := job.doc.cancellations[i];
            var c := Publish(job.actor, job.id, job.to, Cancelling, row);
            var n := After(s, c);
            && !Exec(s, c).Refused? && OnTrack(genesis, cfg, job, n) && Target(job, n) == Target(job, s)
            && (n == s || (AddsRow(s, n, row) && row !in s.rows))
            && Elements(job.doc.cancellations[..i + 1]) <= Elements(n.rows)
            && Sound(cfg, CancellationPreflight, CancelCase(job), n.rows, job.at)
  {
    var row := job.doc.cancellations[i];
    var c := Publish(job.actor, job.id, job.to, Cancelling, row);
    if row in s.rows {
      KeptCancel(cfg, job, s, row);
      MorePublished(job.doc.cancellations, s.rows, s.rows, i);
    } else {
      NewCancel(genesis, cfg, job, s, i);
    }
  }

  lemma NextCancel(cfg: Config, job: Job, s: State)
    requires Prepared(job) && Finishable(cfg, job, s) && Missing(job.doc.cancellations, s.rows) != []
    requires |s.rows| + |job.doc.cancellations| <= MAX_ROWS
    ensures NextWrite(cfg, job, s) ==
            Some(Publish(job.actor, job.id, job.to, Cancelling, Missing(job.doc.cancellations, s.rows)[0]))
  {
    CancelVerdicts(cfg, job, s);
    hide Verdict, Sound, WellFormed, InScope, Groups;
  }

  lemma KeptCancel(cfg: Config, job: Job, s: State, row: Row)
    requires Prepared(job) && Engaged(job, s) && s.operation.value.phase == Cancelling && row in s.rows
    requires row in job.doc.cancellations && Sound(cfg, CancellationPreflight, CancelCase(job), s.rows, job.at)
    ensures Exec(s, Publish(job.actor, job.id, job.to, Cancelling, row)) == Keep
  {
    hide Sound, WellFormed, InScope, Groups, Candidate, PlanFor, IsCancellation, Verdict, Attempt, Exec;
    SoundCandidates(cfg, CancellationPreflight, CancelCase(job), s.rows, job.at);
    KeptPublish(s, Publish(job.actor, job.id, job.to, Cancelling, row));
  }

  lemma KeptPublish(s: State, c: Command)
    requires c.Publish? && c.actor == s.owner && Active(s, c.id, c.to) && c.phase == s.operation.value.phase
    requires c.phase in {Cancelling, Replacing} && s.operation.value.cancellationDigest.Some?
    requires (c.phase == Replacing ==> s.operation.value.grantDigest.Some?) && WellFormed(c.row) && c.row in s.rows
    ensures Exec(s, c) == Keep
  {
    hide WellFormed;
  }

  lemma GrantWritten(genesis: State, cfg: Config, job: Job, s: State) returns (n: State)
    requires Inv(genesis, s) && Prepared(job) && Finishable(cfg, job, s) && JournalRoom(job, s)
    requires Missing(job.doc.cancellations, s.rows) == [] && Missing(job.plan.grants, s.rows) != []
    requires s.operation.value.grantDigest.Some? && s.operation.value.phase == Replacing
    requires |s.rows| + |job.plan.grants| <= MAX_ROWS
    ensures Exec(s, Publish(job.actor, job.id, job.to, Replacing, Missing(job.plan.grants, s.rows)[0])) == Written(n)
    ensures AddsRow(s, n, Missing(job.plan.grants, s.rows)[0])
  {
    hide Inv, JournalRoom, Sound, Exec, Missing, RowsReady, PlanFor, Elements, NextWrite;
    ClearedNext(cfg, job, s);
    n := GrantStep(genesis, cfg, job, s);
  }

  lemma NewGrant(genesis: State, cfg: Config, job: Job, s: State, i: nat)
    requires OnTrack(genesis, cfg, job, s) && i < |job.plan.grants| && s.operation.value.phase == Replacing
    requires s.operation.value.grantDigest.Some? && Missing(job.doc.cancellations, s.rows) == []
    requires job.plan.grants[i] !in s.rows
    requires Elements(job.plan.grants[..i]) <= Elements(s.rows)
    requires |s.rows| + |job.plan.grants| <= MAX_ROWS
    ensures var row := job.plan.grants[i];
            var c := Publish(job.actor, job.id, job.to, Replacing, row);
            var n := After(s, c);
            && !Exec(s, c).Refused? && OnTrack(genesis, cfg, job, n) && Target(job, n) == Target(job, s)
            && (n == s || (AddsRow(s, n, row) && row !in s.rows))
            && Elements(job.plan.grants[..i + 1]) <= Elements(n.rows)
            && Missing(job.doc.cancellations, n.rows) == []
  {
    var row := job.plan.grants[i];
    var c := Publish(job.actor, job.id, job.to, Replacing, row);
    hide Inv, Engaged, JournalRoom, Target, Sound, Exec, Attempt, RowsReady, WellFormed, PlanFor, Elements;
    FirstMissing(job.plan.grants, s.rows, i);
    hide Missing;
    var n := GrantWritten(genesis, cfg, job, s);
    GrantKeeps(cfg, job, s, n);
    StepInv(genesis, s, c);
    AppendElements(s.rows, row);
    MorePublished(job.plan.grants, s.rows, n.rows, i);
    NothingMissing(job.doc.cancellations, s.rows);
    NothingMissing(job.doc.cancellations, n.rows);
  }

  /** Likewise for record `i` of the grants. */
  lemma GrantRecord(genesis: State, cfg: Config, job: Job, s: State, i: nat)
    requires OnTrack(genesis, cfg, job, s) && i < |job.plan.grants| && s.operation.value.phase == Replacing
    requires s.operation.value.grantDigest.Some? && Missing(job.doc.cancellations, s.rows) == []
    requires Elements(job.plan.grants[..i]) <= Elements(s.rows)
    requires |s.rows| + |job.plan.grants| <= MAX_ROWS
    ensures var row := job.plan.grants[i];
            var c := Publish(job.actor, job.id, job.to, Replacing, row);
            var n := After(s, c);
            && !Exec(s, c).Refused? && OnTrack(genesis, cfg, job, n) && Target(job, n) == Target(job, s)
            && (n == s || (AddsRow(s, n, row) && row !in s.rows))
            && Elements(job.plan.grants[..i + 1]) <= Elements(n.rows)
            && Missing(job.doc.cancellations, n.rows) == []
  {
    var row := job.plan.grants[i];
    var c := Publish(job.actor, job.id, job.to, Replacing, row);
    if row in s.rows {
      KeptGrant(cfg, job, s, row);
      MorePublished(job.plan.grants, s.rows, s.rows, i);
    } else {
      NewGrant(genesis, cfg, job, s, i);
    }
  }

  lemma KeptGrant(cfg: Config, job: Job, s: State, row: Row)
    requires Prepared(job) && Finishable(cfg, job, s) && s.operation.value.phase == Replacing && row in s.rows
    requires row in job.plan.grants && s.operation.value.grantDigest.Some?
    ensures Exec(s, Publish(job.actor, job.id, job.to, Replacing, row)) == Keep
  {
    hide Sound, WellFormed, InScope, Groups, Candidate, PlanFor, IsCancellation, Verdict, Attempt, Exec;
    SoundCandidates(cfg, ReplacementPreflight, FullCase(job), s.rows + job.doc.cancellations, job.at);
    KeptPublish(s, Publish(job.actor, job.id, job.to, Replacing, row));
  }

  // ------------------------------------------------------------ the two loops

  /** Before record `i` of the cancellations. */
  ghost predicate CancelReady(genesis: State, cfg: Config, job: Job, s: State, i: nat) {
    && OnTrack(genesis, cfg, job, s) && i <= |job.doc.cancellations| && s.operation.value.phase == Cancelling
    && Elements(job.doc.cancellations[..i]) <= Elements(s.rows)
    && Sound(cfg, CancellationPreflight, CancelCase(job), s.rows, job.at)
  }

  /** The preflight of record `i` fails only when the refresh is full; the budget of the batch
      is enough for every record, and the last one needs all of it. */
  lemma CancelReadyVerdict(genesis: State, cfg: Config, job: Job, s: State, i: nat)
    requires CancelReady(genesis, cfg, job, s, i)
    ensures Verdict(cfg, CancellationPreflight, Case(job.doc, None, [], job.doc.fence.destinations), s.rows, job.at) ==
            None <==>
              |s.rows| + |job.doc.cancellations| <= MAX_ROWS
    ensures CancelBudget(job, s) ==> |s.rows| + |job.doc.cancellations| <= MAX_ROWS
    ensures i == |job.doc.cancellations| - 1 && |s.rows| + |job.doc.cancellations| <= MAX_ROWS ==> CancelBudget(job, s)
  {
    hide Inv, Engaged, JournalRoom, Target, Sound, Exec, Missing, RowsReady, WellFormed, PlanFor, Elements, Verdict,
         LastDue;
    SoundVerdict(cfg, CancellationPreflight, CancelCase(job), s.rows, job.at);
    DueStays(job.doc.cancellations, s.rows, NoRow());
    if i == |job.doc.cancellations| - 1 {
      OnlyLastMissing(job.doc.cancellations, s.rows);
    }
  }

  function NoRow(): Row {
    Ownership(Malformed(0), 0, NO_PROOF)
  }

  lemma CancelReadyStep(genesis: State, cfg: Config, job: Job, s: State, i: nat)
    requires CancelReady(genesis, cfg, job, s, i) && i < |job.doc.cancellations|
    requires |s.rows| + |job.doc.cancellations| <= MAX_ROWS
    ensures var c := Publish(job.actor, job.id, job.to, Cancelling, job.doc.cancellations[i]);
            && !Exec(s, c).Refused? && CancelReady(genesis, cfg, job, After(s, c), i + 1)
            && Target(job, After(s, c)) == Target(job, s)
            && (After(s, c) == s || (AddsRow(s, After(s, c), c.row) && c.row !in s.rows))
  {
    hide Inv, Engaged, JournalRoom, Target, Sound, Exec, Missing, RowsReady, WellFormed, PlanFor, Elements, Verdict;
    CancelRecord(genesis, cfg, job, s, i);
  }

  /** What the publication of record `i` leaves of the budgets. */
  lemma CancelBudgets(genesis: State, cfg: Config, job: Job, s: State, i: nat, n: State)
    requires CancelReady(genesis, cfg, job, s, i) && i < |job.doc.cancellations|
    requires n == s || (AddsRow(s, n, job.doc.cancellations[i]) && job.doc.cancellations[i] !in s.rows)
    ensures i < |job.doc.cancellations| - 1 ==> CancelBudget(job, n) == CancelBudget(job, s)
    ensures GrantFits(job, n) == GrantFits(job, s)
  {
    hide Inv, Engaged, JournalRoom, Sound, RowsReady, PlanFor, LastDue, Missing, Elements;
    var row := job.doc.cancellations[i];
    if n != s {
      CountAfter(job, s.rows, row);
      PlanNoDuplicates(job);
      DueStays(job.doc.cancellations, s.rows, row);
      DueStays(job.plan.grants, s.rows, row);
    }
  }

  /** One record of the cancellations, when its preflight succeeds. */
  lemma CancelPublished(genesis: State, cfg: Config, job: Job, s: State, i: nat)
    requires CancelReady(genesis, cfg, job, s, i) && i < |job.doc.cancellations|
    requires Verdict(cfg, CancellationPreflight, Case(job.doc, None, [], job.doc.fence.destinations), s.rows, job.at) ==
             None
    ensures var c := Publish(job.actor, job.id, job.to, Cancelling, job.doc.cancellations[i]);
            var n := After(s, c);
            && !Exec(s, c).Refused? && CancelReady(genesis, cfg, job, n, i + 1) && OnTrack(genesis, cfg, job, n)
            && (n == s || AddsRow(s, n, c.row)) && Target(job, n) == Target(job, s) &&
               GrantFits(job, n) == GrantFits(job, s)
            && (i < |job.doc.cancellations| - 1 ==> CancelBudget(job, n) == CancelBudget(job, s))
  {
    hide OnTrack, Exec, Target, Verdict, CancelBudget, GrantFits, AddsRow, Elements, Sound, Missing;
    CancelReadyVerdict(genesis, cfg, job, s, i);
    CancelReadyStep(genesis, cfg, job, s, i);
    CancelBudgets(genesis, cfg, job, s, i,
                  After(s, Publish(job.actor, job.id, job.to, Cancelling, job.doc.cancellations[i])));
  }

  /** Undisturbed, the first check decides whether there is anything to publish. */
  lemma CancelStart(genesis: State, cfg: Config, job: Job, s: State)
    requires OnTrack(genesis, cfg, job, s) && |s.rows| <= MAX_ROWS
    ensures var k := Case(job.doc, None, [], job.doc.fence.destinations);
            if Missing(job.doc.cancellations, s.rows) == [] then Verdict(cfg, Reconciling, k, s.rows, job.at) == None
            else Verdict(cfg, Reconciling, k, s.rows, job.at) != None && CancelReady(genesis, cfg, job, s, 0)
  {
    hide Inv, Engaged, JournalRoom, Sound, Exec, Missing, WellFormed, PlanFor, Verdict;
    if Missing(job.doc.cancellations, s.rows) == [] {
      ClearedVerdicts(cfg, job, s);
    } else {
      CancelVerdicts(cfg, job, s);
    }
  }

  lemma CancelEnd(genesis: State, cfg: Config, job: Job, s: State)
    requires CancelReady(genesis, cfg, job, s, |job.doc.cancellations|)
    ensures Missing(job.doc.cancellations, s.rows) == []
  {
    assert job.doc.cancellations[..|job.doc.cancellations|] == job.doc.cancellations;
    NothingMissing(job.doc.cancellations, s.rows);
  }

  /** Before record `i` of the grants. */
  ghost predicate GrantReady(genesis: State, cfg: Config, job: Job, s: State, i: nat) {
    && OnTrack(genesis, cfg, job, s) && i <= |job.plan.grants| && s.operation.value.phase == Replacing
    && s.operation.value.grantDigest.Some? && Missing(job.doc.cancellations, s.rows) == []
    && Elements(job.plan.grants[..i]) <= Elements(s.rows)
  }

  lemma GrantReadyVerdict(genesis: State, cfg: Config, job: Job, s: State, i: nat)
    requires GrantReady(genesis, cfg, job, s, i)
    ensures Verdict(cfg, ReplacementPreflight, FullCase(job), s.rows, job.at) == None <==>
            |s.rows| + |job.plan.grants| <= MAX_ROWS
    ensures GrantBudget(job, s) ==> |s.rows| + |job.plan.grants| <= MAX_ROWS
    ensures i == |job.plan.grants| - 1 && |s.rows| + |job.plan.grants| <= MAX_ROWS ==> GrantBudget(job, s)
  {
    assert |s.rows| <= MAX_ROWS;
    hide Inv, Engaged, JournalRoom, Target, Sound, Exec, Missing, RowsReady, WellFormed, PlanFor, Elements, Verdict,
         LastDue;
    ClearedVerdicts(cfg, job, s);
    GrantVerdicts(cfg, job, s);
    PlanNoDuplicates(job);
    DueStays(job.plan.grants, s.rows, NoRow());
    if i == |job.plan.grants| - 1 {
      OnlyLastMissing(job.plan.grants, s.rows);
    }
  }

  lemma GrantReadyStep(genesis: State, cfg: Config, job: Job, s: State, i: nat)
    requires GrantReady(genesis, cfg, job, s, i) && i < |job.plan.grants|
    requires |s.rows| + |job.plan.grants| <= MAX_ROWS
    ensures var c := Publish(job.actor, job.id, job.to, Replacing, job.plan.grants[i]);
            && !Exec(s, c).Refused? && GrantReady(genesis, cfg, job, After(s, c), i + 1)
            && Target(job, After(s, c)) == Target(job, s)
            && (After(s, c) == s || (AddsRow(s, After(s, c), c.row) && c.row !in s.rows))
  {
    hide Inv, Engaged, JournalRoom, Target, Sound, Exec, Missing, RowsReady, WellFormed, PlanFor, Elements, Verdict;
    GrantRecord(genesis, cfg, job, s, i);
  }

  lemma GrantBudgets(genesis: State, cfg: Config, job: Job, s: State, i: nat, n: State)
    requires GrantReady(genesis, cfg, job, s, i) && i < |job.plan.grants| &&
             Missing(job.doc.cancellations, n.rows) == []
    requires n == s || (AddsRow(s, n, job.plan.grants[i]) && job.plan.grants[i] !in s.rows)
    ensures i < |job.plan.grants| - 1 ==> GrantBudget(job, n) == GrantBudget(job, s)
  {
    hide Inv, Engaged, JournalRoom, Sound, RowsReady, PlanFor, LastDue, Missing, Elements;
    var row := job.plan.grants[i];
    PlanNoDuplicates(job);
    if n != s {
      MissingMembers(job.doc.cancellations, s.rows);
      CountAfter(job, s.rows, row);
      DueStays(job.plan.grants, s.rows, row);
    }
  }

  lemma GrantPublished(genesis: State, cfg: Config, job: Job, s: State, i: nat)
    requires GrantReady(genesis, cfg, job, s, i) && i < |job.plan.grants|
    requires Verdict(cfg, ReplacementPreflight, FullCase(job), s.rows, job.at) == None
    ensures var c := Publish(job.actor, job.id, job.to, Replacing, job.plan.grants[i]);
            var n := After(s, c);
            && !Exec(s, c).Refused? && GrantReady(genesis, cfg, job, n, i + 1) && OnTrack(genesis, cfg, job, n)
            && Target(job, n) == Target(job, s)
            && (i < |job.plan.grants| - 1 ==> GrantBudget(job, n) == GrantBudget(job, s))
  {
    hide OnTrack, Exec, Target, Verdict, GrantBudget, AddsRow, Elements, Missing;
    GrantReadyVerdict(genesis, cfg, job, s, i);
    GrantReadyStep(genesis, cfg, job, s, i);
    GrantBudgets(genesis, cfg, job, s, i, After(s, Publish(job.actor, job.id, job.to, Replacing, job.plan.grants[i])));
  }

  /** Cancellations durable and the plan bound: what the driver finds and does next. */
  lemma GrantStart(genesis: State, cfg: Config, job: Job, s: State)
    requires OnTrack(genesis, cfg, job, s) && s.operation.value.grantDigest.Some?
    requires Missing(job.doc.cancellations, s.rows) == []
    ensures if Missing(job.plan.grants, s.rows) == [] then Verdict(cfg, Reconciling, FullCase(job), s.rows, job.at) ==
            None
            else
              var c := Begin(job.actor, job.id, job.to);
              && Verdict(cfg, Reconciling, FullCase(job), s.rows, job.at) != None
              && (Verdict(cfg, ReplacementPreflight, FullCase(job), s.rows, job.at) == None <==>
                  |s.rows| + |job.plan.grants| <= MAX_ROWS)
              && (GrantBudget(job, s) ==> |s.rows| + |job.plan.grants| <= MAX_ROWS)
              && !Exec(s, c).Refused? && GrantReady(genesis, cfg, job, After(s, c), 0)
              && Target(job, After(s, c)) == Target(job, s)
  {
    assert |s.rows| <= MAX_ROWS;
    hide Sound, WellFormed, PlanFor, Verdict, Elements, Inv, JournalRoom, Exec, Missing, RowsReady, Target;
    ClearedVerdicts(cfg, job, s);
    GrantVerdicts(cfg, job, s);
    DueStays(job.plan.grants, s.rows, NoRow());
    hide LastDue;
    if Missing(job.plan.grants, s.rows) != [] {
      BegunKeeps(genesis, cfg, job, s);
    }
  }

  lemma BegunKeeps(genesis: State, cfg: Config, job: Job, s: State)
    requires OnTrack(genesis, cfg, job, s) && s.operation.value.grantDigest.Some?
    requires Missing(job.doc.cancellations, s.rows) == [] && Missing(job.plan.grants, s.rows) != []
    ensures var c := Begin(job.actor, job.id, job.to);
            && !Exec(s, c).Refused? && GrantReady(genesis, cfg, job, After(s, c), 0)
            && Target(job, After(s, c)) == Target(job, s) && After(s, c).rows == s.rows
  {
    var c := Begin(job.actor, job.id, job.to);
    hide Sound, WellFormed, PlanFor, Verdict, Missing;
    if s.operation.value.phase == Cancelling {
      BeginWritten(genesis, job, s);
      var n := Exec(s, c).next;
      hide Inv, Exec;
      StepInv(genesis, s, c);
      AdvanceKeeps(cfg, job, s, n);
    }
  }

  lemma GrantEnd(genesis: State, cfg: Config, job: Job, s: State)
    requires GrantReady(genesis, cfg, job, s, |job.plan.grants|)
    ensures Missing(job.plan.grants, s.rows) == []
  {
    assert job.plan.grants[..|job.plan.grants|] == job.plan.grants;
    NothingMissing(job.plan.grants, s.rows);
  }

  /** Binding the plan, when it is not bound yet. */
  lemma BoundKeeps(genesis: State, cfg: Config, job: Job, s: State)
    requires OnTrack(genesis, cfg, job, s) && Missing(job.doc.cancellations, s.rows) == []
    ensures var c := BindPlan(job.actor, job.id, job.to, OfGrants(job.plan));
            && !Exec(s, c).Refused? && OnTrack(genesis, cfg, job, After(s, c)) && After(s, c).rows == s.rows
            && After(s, c).operation.value.grantDigest.Some? && Target(job, After(s, c)) == Target(job, s)
  {
    var c := BindPlan(job.actor, job.id, job.to, OfGrants(job.plan));
    hide Sound, WellFormed, PlanFor, Verdict, Missing;
    if s.operation.value.grantDigest == None {
      BindPlanWritten(genesis, job, s);
      var n := Exec(s, c).next;
      hide Inv, Exec;
      StepInv(genesis, s, c);
      AdvanceKeeps(cfg, job, s, n);
    }
  }

  /** With every row durable the commit goes through. */
  lemma CommitEnd(genesis: State, cfg: Config, job: Job, s: State)
    requires OnTrack(genesis, cfg, job, s) && s.operation.value.grantDigest.Some?
    requires Missing(job.doc.cancellations, s.rows) == [] && Missing(job.plan.grants, s.rows) == []
    ensures var c := Commit(job.actor, job.id, job.to, Evidence(job.id, job.to, job.at), job.at);
            Exec(s, c).Written? && Done(job, After(s, c)) && Elements(After(s, c).rows) == Target(job, s)
  {
    hide Sound, WellFormed, PlanFor, Verdict, Missing, Inv;
    CommitWritten(genesis, job, s);
    FinalRows(cfg, job, s);
  }
}
