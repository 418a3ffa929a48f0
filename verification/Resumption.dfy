/** Crash and resume (lib/delegation-publish.ts:50-107). Left alone at a fixed second, the
    driver's next write is a function of the journal alone, so an attempt that stops at any
    await leaves a version from which the next attempt simply continues. */
module Resumption {
  import opened Identity
  import opened Authority
  import opened Documents
  import opened Journal
  import opened JournalRuns
  import opened Reconcile
  import opened Protocol
  import opened Reservation

  /** One operation with its two prepared documents, at one clock reading. */
  datatype Job = Job(actor: Key, id: OperationId, to: Key, doc: CancellationOperation, plan: GrantPlan, at: nat)

  predicate Prepared(job: Job) {
    && job.doc.fence.Fence? && job.doc.replacement == Some(job.to) && job.doc.operation == job.id
    && job.to != job.doc.agent
    && NoDuplicates(job.doc.cancellations) && (forall c | c in job.doc.cancellations :: IsCancellation(c))
    && PlanFor(job.doc, job.plan)
  }

  function FullCase(job: Job): Case
    requires job.doc.fence.Fence?
  {
    CaseOf(job.doc, job.plan.grants)
  }

  function CancelCase(job: Job): Case
    requires job.doc.fence.Fence?
  {
    CancellationsOnly(FullCase(job))
  }

  /** The plan rows that are not durable yet, in plan order. */
  function Missing(plan: seq<Row>, rows: seq<Row>): seq<Row> {
    if plan == [] then []
    else (if plan[0] in rows then [] else [plan[0]]) + Missing(plan[1..], rows)
  }

  /** What the driver writes next, if anything. */
  function NextWrite(cfg: Config, job: Job, s: State): Option<Command>
    requires Prepared(job)
  {
    var cancels, grants := Missing(job.doc.cancellations, s.rows), Missing(job.plan.grants, s.rows);
    if !Active(s, job.id, job.to) || job.id in s.receipts then None
    else if Verdict(cfg, Reconciling, CancelCase(job), s.rows, job.at) != None then
      if Verdict(cfg, CancellationPreflight, CancelCase(job), s.rows, job.at) == None && cancels != []
      then Some(Publish(job.actor, job.id, job.to, Cancelling, cancels[0])) else None
    else if s.operation.value.grantDigest == None then Some(BindPlan(job.actor, job.id, job.to, OfGrants(job.plan)))
    else if s.operation.value.grantDigest != Some(OfGrants(job.plan)) then None
    else if Verdict(cfg, Reconciling, FullCase(job), s.rows, job.at) == None then
      Some(Commit(job.actor, job.id, job.to, Evidence(job.id, job.to, job.at), job.at))
    else if Verdict(cfg, ReplacementPreflight, FullCase(job), s.rows, job.at) != None then None
    else if s.operation.value.phase == Cancelling then Some(Begin(job.actor, job.id, job.to))
    else if grants != [] then Some(Publish(job.actor, job.id, job.to, Replacing, grants[0]))
    else None
  }

  /** Successive versions written by undisturbed attempts, however often they crash. */
  ghost predicate SoloRun(cfg: Config, job: Job, log: seq<State>)
    requires Prepared(job)
  {
    |log| > 0 && forall i :: 0 <= i < |log| - 1 ==> SoloStep(cfg, job, log[i], log[i + 1])
  }

  ghost predicate SoloStep(cfg: Config, job: Job, s: State, n: State)
    requires Prepared(job)
  {
    NextWrite(cfg, job, s).Some? && Exec(s, NextWrite(cfg, job, s).value) == Written(n)
  }

  // ------------------------------------------------------------ missing rows

  lemma {:induction false} MissingMembers(plan: seq<Row>, rows: seq<Row>)
    ensures forall r :: r in Missing(plan, rows) <==> r in plan && r !in rows
  {
    if plan != [] {
      MissingMembers(plan[1..], rows);
      assert plan == [plan[0]] + plan[1..];
    }
  }

  /** Publishing the first missing row removes it, and only it, from the missing ones. */
  lemma {:induction false} MissingAfter(plan: seq<Row>, rows: seq<Row>, row: Row)
    requires NoDuplicates(plan)
    ensures row in Missing(plan, rows) ==> |Missing(plan, rows + [row])| == |Missing(plan, rows)| - 1
    ensures row !in Missing(plan, rows) ==> Missing(plan, rows + [row]) == Missing(plan, rows)
  {
    if plan != [] {
      var rest := plan[1..];
      assert NoDuplicates(rest);
      MissingAfter(rest, rows, row);
      MissingMembers(rest, rows);
      assert plan == [plan[0]] + rest;
      assert plan[0] !in rest by {
        forall i | 0 <= i < |rest| ensures rest[i] != plan[0] { assert plan[i + 1] != plan[0]; }
      }
    }
  }

  lemma NothingMissing(plan: seq<Row>, rows: seq<Row>)
    ensures Missing(plan, rows) == [] <==> Elements(plan) <= Elements(rows)
  {
    MissingMembers(plan, rows);
    if Missing(plan, rows) != [] {
      assert Missing(plan, rows)[0] in Elements(plan);
    }
  }

  lemma PlanNoDuplicates(job: Job)
    requires Prepared(job)
    ensures NoDuplicates(job.plan.grants)
    ensures forall r | r in job.plan.grants :: !IsCancellation(r)
  {
    forall r | r in job.plan.grants ensures !IsCancellation(r) {
      assert Candidate(r, job.doc.replacement, job.doc.fence.destinations);
    }
  }

  // ------------------------------------------------------------ sound versions

  /** The operation of the job is current and pending, with its documents bound. */
  predicate Engaged(job: Job, s: State)
    requires Prepared(job)
  {
    && job.actor == s.owner && Active(s, job.id, job.to) && Pending(s) && job.id !in s.receipts
    && s.operation.value.cancellationDigest == Some(OfCancellations(job.doc))
    && s.operation.value.grantDigest in {None, Some(OfGrants(job.plan))}
    && Elements(job.doc.fence.destinations) == Elements(s.destinations)
  }

  /** The preflights hold for this set of rows; lengths aside. */
  predicate RowsReady(cfg: Config, job: Job, rows: seq<Row>, phase: Phase)
    requires Prepared(job)
  {
    && (Missing(job.doc.cancellations, rows) != [] ==>
          phase == Cancelling && Sound(cfg, CancellationPreflight, CancelCase(job), rows, job.at))
    && Sound(cfg, ReplacementPreflight, FullCase(job), rows + job.doc.cancellations, job.at)
  }

  /** A version from which the operation can be finished, as far as evidence goes. */
  predicate Finishable(cfg: Config, job: Job, s: State)
    requires Prepared(job)
  {
    Engaged(job, s) && RowsReady(cfg, job, s.rows, s.operation.value.phase)
  }

  predicate Done(job: Job, s: State) {
    s.operation.Some? && s.operation.value.id == job.id && s.operation.value.phase == Complete &&
    s.assignee == job.to && job.id in s.receipts && s.receipts[job.id].evaluatedAt == job.at &&
    s.receipts[job.id].replacement == job.to
  }

  /** Room for the doubled rows of the last preflight of each batch. The claim's own
      reservation does not count a candidate twice; the refresh does. */
  predicate Room(job: Job, s: State) {
    var m, n := |Missing(job.doc.cancellations, s.rows)|, |Missing(job.plan.grants, s.rows)|;
    && (m > 0 ==> |s.rows| + m - 1 + |job.doc.cancellations| <= MAX_ROWS)
    && (n > 0 ==> |s.rows| + m + n - 1 + |job.plan.grants| <= MAX_ROWS)
  }

  /** Writes that remain, at most. */
  function Measure(job: Job, s: State): nat {
    |Missing(job.doc.cancellations, s.rows)| + |Missing(job.plan.grants, s.rows)| +
    (if s.operation.Some? then
       (if s.operation.value.grantDigest.None? then 1 else 0) +
       (match s.operation.value.phase case Cancelling => 2 case Replacing => 1 case _ => 0)
     else 0)
  }

  /** Room in the journal itself, which the claim did reserve. */
  predicate JournalRoom(job: Job, s: State) {
    && |s.rows| + |Missing(job.doc.cancellations, s.rows)| + |Missing(job.plan.grants, s.rows)| <= MAX_JOURNAL_ROWS
    && s.revision + Measure(job, s) + 1 <= MAX_SAFE_INTEGER && job.at <= MAX_SAFE_INTEGER
  }

  /** The rows every completed attempt ends with. */
  function Target(job: Job, s: State): set<Row> {
    Elements(s.rows) + Elements(job.doc.cancellations) + Elements(job.plan.grants)
  }

  lemma AppendElements(rows: seq<Row>, row: Row)
    ensures Elements(rows + [row]) == Elements(rows) + {row}
  {
  }

  // ------------------------------------------------------------ publishing cancellations

  /** Cancellations are missing: the driver publishes the first, unless the refresh is full. */
  lemma CancelVerdicts(cfg: Config, job: Job, s: State)
    requires Prepared(job) && Finishable(cfg, job, s) && Missing(job.doc.cancellations, s.rows) != []
    ensures Verdict(cfg, Reconciling, CancelCase(job), s.rows, job.at) != None
    ensures Verdict(cfg, CancellationPreflight, CancelCase(job), s.rows, job.at) == None <==>
              |s.rows| + |job.doc.cancellations| <= MAX_ROWS
    ensures var c := Missing(job.doc.cancellations, s.rows)[0];
            c in job.doc.cancellations && c !in s.rows && WellFormed(c) &&
            InScope(c, job.doc.agent, job.doc.fence.destinations, Groups(Elements(s.rows), job.doc.fence.destinations))
  {
    hide Verdict, Sound, WellFormed, InScope, Groups;
    var k := CancelCase(job);
    var c := Missing(job.doc.cancellations, s.rows)[0];
    MissingMembers(job.doc.cancellations, s.rows);
    SoundVerdict(cfg, CancellationPreflight, k, s.rows, job.at);
    SoundCandidates(cfg, CancellationPreflight, k, s.rows, job.at);
    AbsentCancellationFails(cfg, k, s.rows, job.at, c);
  }

  /** The version after a publication differs by one row. */
  predicate AddsRow(s: State, n: State, row: Row) {
    n == Bump(s).(rows := s.rows + [row])
  }

  lemma PublishWritten(genesis: State, s: State, c: Command)
    requires Inv(genesis, s) && c.Publish? && c.phase in {Cancelling, Replacing}
    requires c.actor == s.owner && Active(s, c.id, c.to) && s.operation.value.phase == c.phase
    requires s.operation.value.cancellationDigest.Some?
    requires WellFormed(c.row) && c.row !in s.rows && RowAllowed(c.row, s.destinations, s.forum)
    requires |s.rows| < MAX_JOURNAL_ROWS && s.revision < MAX_SAFE_INTEGER
    ensures Exec(s, c).Written? && AddsRow(s, Exec(s, c).next, c.row)
  {
    assert OperationAllowed(s, s.operation.value);
    assert Attempt(s, c).Written?;
    hide WellFormed, RowAllowed;
    ReparseExactly(genesis, s, c);
  }

  lemma CancelStep(genesis: State, cfg: Config, job: Job, s: State) returns (n: State)
    requires Inv(genesis, s) && Prepared(job) && Finishable(cfg, job, s) && JournalRoom(job, s)
    requires Missing(job.doc.cancellations, s.rows) != [] && |s.rows| + |job.doc.cancellations| <= MAX_ROWS
    ensures SoloStep(cfg, job, s, n) && AddsRow(s, n, Missing(job.doc.cancellations, s.rows)[0])
  {
    CancelVerdicts(cfg, job, s);
    var row := Missing(job.doc.cancellations, s.rows)[0];
    InScopeAllowed(row, job.doc.agent, job.doc.fence.destinations, Groups(Elements(s.rows), job.doc.fence.destinations),
                   s.forum, s.destinations);
    var c := Publish(job.actor, job.id, job.to, Cancelling, row);
    hide Verdict, Sound, WellFormed, InScope, Groups, RowAllowed, Exec;
    PublishWritten(genesis, s, c);
    n := Exec(s, c).next;
  }

  /** Counting after the publication of `row`, a row of exactly one of the two plans. */
  lemma CountAfter(job: Job, rows: seq<Row>, row: Row)
    requires Prepared(job) && row !in rows
    requires row in job.doc.cancellations || row in job.plan.grants
    ensures |Missing(job.doc.cancellations, rows + [row])| ==
              |Missing(job.doc.cancellations, rows)| - if row in job.doc.cancellations then 1 else 0
    ensures |Missing(job.plan.grants, rows + [row])| ==
              |Missing(job.plan.grants, rows)| - if row in job.doc.cancellations then 0 else 1
  {
    MissingMembers(job.doc.cancellations, rows);
    MissingMembers(job.plan.grants, rows);
    PlanNoDuplicates(job);
    MissingAfter(job.doc.cancellations, rows, row);
    MissingAfter(job.plan.grants, rows, row);
  }

  lemma CancelKeepsReady(cfg: Config, job: Job, rows: seq<Row>, row: Row)
    requires Prepared(job) && RowsReady(cfg, job, rows, Cancelling) && row in Missing(job.doc.cancellations, rows)
    ensures RowsReady(cfg, job, rows + [row], Cancelling)
  {
    MissingMembers(job.doc.cancellations, rows);
    assert row in Elements(job.doc.cancellations);
    var later := rows + [row];
    AppendElements(rows, row);
    hide Verdict, Sound, Missing;
    CancellationPreflightStable(cfg, CancelCase(job), rows, later, job.at);
    ElementsConcat(rows, job.doc.cancellations);
    ElementsConcat(later, job.doc.cancellations);
    SoundBySet(cfg, ReplacementPreflight, FullCase(job), rows + job.doc.cancellations, later + job.doc.cancellations,
               job.at);
  }

  lemma GrantKeepsReady(cfg: Config, job: Job, rows: seq<Row>, row: Row)
    requires Prepared(job) && RowsReady(cfg, job, rows, Replacing) && row in Missing(job.plan.grants, rows)
    ensures RowsReady(cfg, job, rows + [row], Replacing)
  {
    MissingMembers(job.plan.grants, rows);
    assert row in Elements(job.plan.grants);
    var later := rows + [row];
    NothingMissing(job.doc.cancellations, rows);
    NothingMissing(job.doc.cancellations, later);
    AppendElements(rows, row);
    ElementsConcat(rows, job.doc.cancellations);
    ElementsConcat(later, job.doc.cancellations);
    hide Verdict, Sound, Missing;
    ReplacementPreflightStable(cfg, FullCase(job), rows + job.doc.cancellations, later + job.doc.cancellations, job.at);
  }

  /** What a publication changes in the bookkeeping of the attempt. */
  lemma PublicationCounts(job: Job, s: State, n: State, row: Row)
    requires Prepared(job) && Engaged(job, s) && JournalRoom(job, s) && AddsRow(s, n, row) && row !in s.rows
    requires row in job.doc.cancellations || row in job.plan.grants
    requires row in job.plan.grants && row !in job.doc.cancellations ==> Missing(job.doc.cancellations, s.rows) == []
    requires |s.rows| + (if row in job.doc.cancellations then |job.doc.cancellations|
                         else |job.plan.grants|) <= MAX_ROWS
    ensures Engaged(job, n) && JournalRoom(job, n) && Target(job, n) == Target(job, s)
    ensures (Room(job, s) <==> Room(job, n)) && Measure(job, n) < Measure(job, s)
  {
    CountAfter(job, s.rows, row);
    AppendElements(s.rows, row);
    hide Missing;
  }

  lemma CancelKeeps(cfg: Config, job: Job, s: State, n: State)
    requires Prepared(job) && Finishable(cfg, job, s) && JournalRoom(job, s)
    requires Missing(job.doc.cancellations, s.rows) != [] && |s.rows| + |job.doc.cancellations| <= MAX_ROWS
    requires AddsRow(s, n, Missing(job.doc.cancellations, s.rows)[0])
    ensures Finishable(cfg, job, n) && JournalRoom(job, n) && Target(job, n) == Target(job, s)
    ensures (Room(job, s) <==> Room(job, n)) && Measure(job, n) < Measure(job, s)
  {
    var row := Missing(job.doc.cancellations, s.rows)[0];
    MissingMembers(job.doc.cancellations, s.rows);
    CancelKeepsReady(cfg, job, s.rows, row);
    hide Missing, Engaged, JournalRoom, Room, Measure, Target, Sound;
    PublicationCounts(job, s, n, row);
  }

  // ------------------------------------------------------------ after the cancellations

  /** All cancellations are durable: the old assignee is reconciled, and the replacement
      preflight is sound for the rows as they are. */
  lemma ClearedVerdicts(cfg: Config, job: Job, s: State)
    requires Prepared(job) && Finishable(cfg, job, s) && Missing(job.doc.cancellations, s.rows) == []
    requires |s.rows| <= MAX_ROWS
    ensures Verdict(cfg, Reconciling, CancelCase(job), s.rows, job.at) == None
    ensures Sound(cfg, ReplacementPreflight, FullCase(job), s.rows, job.at)
  {
    NothingMissing(job.doc.cancellations, s.rows);
    ElementsConcat(s.rows, job.doc.cancellations);
    hide Verdict, Sound, Missing;
    SoundBySet(cfg, ReplacementPreflight, FullCase(job), s.rows, s.rows + job.doc.cancellations, job.at);
    CancellationsStayReconciled(cfg, FullCase(job), s.rows, s.rows, job.at);
    SoundVerdict(cfg, Reconciling, CancelCase(job), s.rows, job.at);
  }

  lemma GrantVerdicts(cfg: Config, job: Job, s: State)
    requires Prepared(job) && Sound(cfg, ReplacementPreflight, FullCase(job), s.rows, job.at)
    requires |s.rows| <= MAX_ROWS
    ensures Verdict(cfg, Reconciling, FullCase(job), s.rows, job.at) == None <==> Missing(job.plan.grants, s.rows) == []
    ensures Verdict(cfg, ReplacementPreflight, FullCase(job), s.rows, job.at) == None <==>
              |s.rows| + |job.plan.grants| <= MAX_ROWS
    ensures forall g | g in job.plan.grants ::
            WellFormed(g) && Candidate(g, job.doc.replacement, job.doc.fence.destinations)
  {
    hide Verdict, Sound, WellFormed, Candidate;
    var k := FullCase(job);
    SoundVerdict(cfg, ReplacementPreflight, k, s.rows, job.at);
    SoundCandidates(cfg, ReplacementPreflight, k, s.rows, job.at);
    NothingMissing(job.plan.grants, s.rows);
    MissingMembers(job.plan.grants, s.rows);
    if Missing(job.plan.grants, s.rows) == [] {
      GrantsReconcile(cfg, k, s.rows, s.rows, job.at);
      SoundVerdict(cfg, Reconciling, k, s.rows, job.at);
    } else {
      AbsentGrantFails(cfg, k, s.rows, job.at, Missing(job.plan.grants, s.rows)[0]);
    }
  }

  /** A write that only advances the operation leaves rows and evidence alone. */
  predicate OnlyAdvances(job: Job, s: State, n: State) {
    && s.operation.Some? && n.operation.Some? && n == WithOperation(s, n.operation.value)
    && n.operation.value.id == s.operation.value.id && n.operation.value.replacement == s.operation.value.replacement
    && n.operation.value.cancellationDigest == s.operation.value.cancellationDigest
    && ((s.operation.value.grantDigest == None &&
         n.operation.value == s.operation.value.(grantDigest := Some(OfGrants(job.plan)))) ||
        (s.operation.value.phase == Cancelling && n.operation.value == s.operation.value.(phase := Replacing)))
  }

  lemma AdvanceKeeps(cfg: Config, job: Job, s: State, n: State)
    requires Prepared(job) && Finishable(cfg, job, s) && JournalRoom(job, s)
    requires Missing(job.doc.cancellations, s.rows) == [] && OnlyAdvances(job, s, n)
    ensures Finishable(cfg, job, n) && JournalRoom(job, n) && Target(job, n) == Target(job, s)
    ensures (Room(job, s) <==> Room(job, n)) && Measure(job, n) < Measure(job, s)
  {
    hide Verdict, Sound, Missing;
  }

  /** Which write follows once the cancellations are durable. */
  lemma ClearedNext(cfg: Config, job: Job, s: State)
    requires Prepared(job) && Finishable(cfg, job, s) && JournalRoom(job, s) &&
             Missing(job.doc.cancellations, s.rows) == []
    ensures var grants := Missing(job.plan.grants, s.rows);
            NextWrite(cfg, job, s) ==
              if s.operation.value.grantDigest == None then
                 Some(BindPlan(job.actor, job.id, job.to, OfGrants(job.plan)))
              else if grants == [] then
                      Some(Commit(job.actor, job.id, job.to, Evidence(job.id, job.to, job.at), job.at))
              else if |s.rows| + |job.plan.grants| > MAX_ROWS then None
              else if s.operation.value.phase == Cancelling then Some(Begin(job.actor, job.id, job.to))
              else Some(Publish(job.actor, job.id, job.to, Replacing, grants[0]))
  {
    ClearedVerdicts(cfg, job, s);
    GrantVerdicts(cfg, job, s);
    hide Verdict, Sound, Missing, WellFormed, Candidate;
  }

  lemma GrantStep(genesis: State, cfg: Config, job: Job, s: State) returns (n: State)
    requires Inv(genesis, s) && Prepared(job) && Finishable(cfg, job, s) && JournalRoom(job, s)
    requires Missing(job.doc.cancellations, s.rows) == [] && Missing(job.plan.grants, s.rows) != []
    requires s.operation.value.grantDigest.Some? && s.operation.value.phase == Replacing
    requires |s.rows| + |job.plan.grants| <= MAX_ROWS
    ensures SoloStep(cfg, job, s, n) && AddsRow(s, n, Missing(job.plan.grants, s.rows)[0])
  {
    ClearedNext(cfg, job, s);
    ClearedVerdicts(cfg, job, s);
    GrantVerdicts(cfg, job, s);
    MissingMembers(job.plan.grants, s.rows);
    var row := Missing(job.plan.grants, s.rows)[0];
    GrantAllowed(row, job.doc.replacement, job.doc.fence.destinations, s.forum, s.destinations);
    hide Verdict, Sound, WellFormed, Candidate, RowAllowed, Exec, NextWrite, Missing;
    var c := Publish(job.actor, job.id, job.to, Replacing, row);
    PublishWritten(genesis, s, c);
    n := Exec(s, c).next;
  }

  lemma GrantAllowed(row: Row, to: Option<Key>, registry: seq<ObjectId>, forum: ObjectId, destinations: seq<ObjectId>)
    requires Candidate(row, to, registry) && WellFormed(row) && Elements(registry) == Elements(destinations)
    ensures RowAllowed(row, destinations, forum)
  {
    assert row.target in Elements(registry);
  }

  lemma GrantKeeps(cfg: Config, job: Job, s: State, n: State)
    requires Prepared(job) && Finishable(cfg, job, s) && JournalRoom(job, s)
    requires Missing(job.doc.cancellations, s.rows) == [] && Missing(job.plan.grants, s.rows) != []
    requires s.operation.value.phase == Replacing && |s.rows| + |job.plan.grants| <= MAX_ROWS
    requires AddsRow(s, n, Missing(job.plan.grants, s.rows)[0])
    ensures Finishable(cfg, job, n) && JournalRoom(job, n) && Target(job, n) == Target(job, s)
    ensures (Room(job, s) <==> Room(job, n)) && Measure(job, n) < Measure(job, s)
  {
    var row := Missing(job.plan.grants, s.rows)[0];
    MissingMembers(job.plan.grants, s.rows);
    PlanNoDuplicates(job);
    assert row !in job.doc.cancellations;
    GrantKeepsReady(cfg, job, s.rows, row);
    hide Missing, Engaged, JournalRoom, Room, Measure, Target, Sound;
    PublicationCounts(job, s, n, row);
  }

  lemma BindPlanWritten(genesis: State, job: Job, s: State)
    requires Inv(genesis, s) && Prepared(job) && Engaged(job, s) && JournalRoom(job, s) &&
             s.operation.value.grantDigest == None
    ensures var c := BindPlan(job.actor, job.id, job.to, OfGrants(job.plan));
            Exec(s, c) == Written(WithOperation(s, s.operation.value.(grantDigest := Some(OfGrants(job.plan)))))
  {
    var c := BindPlan(job.actor, job.id, job.to, OfGrants(job.plan));
    assert OperationAllowed(s, s.operation.value);
    assert Attempt(s, c).Written? && Fits(s, c);
    hide Inv, Parses, JournalRoom;
    ReparseExactly(genesis, s, c);
    ExecIsAttempt(s, c);
  }

  lemma BeginWritten(genesis: State, job: Job, s: State)
    requires Inv(genesis, s) && Prepared(job) && Engaged(job, s) && JournalRoom(job, s)
    requires s.operation.value.grantDigest.Some? && s.operation.value.phase == Cancelling
    ensures Exec(s, Begin(job.actor, job.id, job.to)) ==
            Written(WithOperation(s, s.operation.value.(phase := Replacing)))
  {
    var c := Begin(job.actor, job.id, job.to);
    assert Attempt(s, c).Written? && Fits(s, c);
    hide Inv, Parses, JournalRoom;
    ReparseExactly(genesis, s, c);
    ExecIsAttempt(s, c);
  }

  lemma CommitWritten(genesis: State, job: Job, s: State)
    requires Inv(genesis, s) && Prepared(job) && Engaged(job, s) && JournalRoom(job, s) &&
             s.operation.value.grantDigest.Some?
    ensures var c := Commit(job.actor, job.id, job.to, Evidence(job.id, job.to, job.at), job.at);
            Exec(s, c).Written? && Done(job, Exec(s, c).next) && Exec(s, c).next.rows == s.rows
  {
    var c := Commit(job.actor, job.id, job.to, Evidence(job.id, job.to, job.at), job.at);
    assert Attempt(s, c).Written? && Fits(s, c);
    hide Inv, Parses, JournalRoom;
    ReparseExactly(genesis, s, c);
    ExecIsAttempt(s, c);
  }

  lemma AdvanceStep(genesis: State, cfg: Config, job: Job, s: State) returns (n: State)
    requires Inv(genesis, s) && Prepared(job) && Finishable(cfg, job, s) && JournalRoom(job, s)
    requires Missing(job.doc.cancellations, s.rows) == []
    requires s.operation.value.grantDigest == None ||
             (s.operation.value.phase == Cancelling && Missing(job.plan.grants, s.rows) != [] &&
              |s.rows| + |job.plan.grants| <= MAX_ROWS)
    ensures SoloStep(cfg, job, s, n) && OnlyAdvances(job, s, n)
  {
    ClearedNext(cfg, job, s);
    hide Verdict, Sound, NextWrite, Missing, JournalRoom, Exec, Inv;
    if s.operation.value.grantDigest == None {
      BindPlanWritten(genesis, job, s);
    } else {
      BeginWritten(genesis, job, s);
    }
    n := Exec(s, NextWrite(cfg, job, s).value).next;
  }

  lemma FinishStep(genesis: State, cfg: Config, job: Job, s: State) returns (n: State)
    requires Inv(genesis, s) && Prepared(job) && Finishable(cfg, job, s) && JournalRoom(job, s)
    requires Missing(job.doc.cancellations, s.rows) == [] && Missing(job.plan.grants, s.rows) == []
    requires s.operation.value.grantDigest.Some?
    ensures SoloStep(cfg, job, s, n) && Done(job, n) && n.rows == s.rows
  {
    ClearedNext(cfg, job, s);
    hide Verdict, Sound, NextWrite, Missing, JournalRoom, Exec, Inv, Done;
    CommitWritten(genesis, job, s);
    n := Exec(s, NextWrite(cfg, job, s).value).next;
  }

  // ------------------------------------------------------------ the theorem

  /** The refresh cannot take the doubled rows of the batch that is due. */
  predicate Stuck(job: Job, s: State) {
    var m, n := |Missing(job.doc.cancellations, s.rows)|, |Missing(job.plan.grants, s.rows)|;
    || (m > 0 && |s.rows| + |job.doc.cancellations| > MAX_ROWS)
    || (m == 0 && n > 0 && s.operation.Some? && s.operation.value.grantDigest.Some? &&
        |s.rows| + |job.plan.grants| > MAX_ROWS)
  }

  lemma StuckStops(cfg: Config, job: Job, s: State)
    requires Prepared(job) && Finishable(cfg, job, s) && JournalRoom(job, s) && Stuck(job, s)
    ensures NextWrite(cfg, job, s) == None && !Room(job, s)
  {
    if Missing(job.doc.cancellations, s.rows) != [] {
      CancelVerdicts(cfg, job, s);
    } else {
      ClearedNext(cfg, job, s);
    }
    hide Verdict, Sound;
  }

  /** One undisturbed write: the operation is done, or it is still finishable with fewer
      writes to go, the same final rows, and room exactly when there was room before. */
  lemma SoloProgress(genesis: State, cfg: Config, job: Job, s: State) returns (n: State)
    requires Inv(genesis, s) && Prepared(job) && Finishable(cfg, job, s) && JournalRoom(job, s) && !Stuck(job, s)
    ensures SoloStep(cfg, job, s, n)
    ensures if Missing(job.doc.cancellations, s.rows) == [] && Missing(job.plan.grants, s.rows) == [] &&
            s.operation.value.grantDigest.Some?
            then Done(job, n) && n.rows == s.rows
            else Finishable(cfg, job, n) && JournalRoom(job, n) && Target(job, n) == Target(job, s) &&
                 (Room(job, s) <==> Room(job, n)) && Measure(job, n) < Measure(job, s)
  {
    hide SoloStep, JournalRoom, Room, Measure, Target, Inv, Verdict, Sound;
    if Missing(job.doc.cancellations, s.rows) != [] {
      n := CancelStep(genesis, cfg, job, s);
      CancelKeeps(cfg, job, s, n);
    } else if s.operation.value.grantDigest == None {
      n := AdvanceStep(genesis, cfg, job, s);
      AdvanceKeeps(cfg, job, s, n);
    } else if Missing(job.plan.grants, s.rows) == [] {
      n := FinishStep(genesis, cfg, job, s);
    } else if s.operation.value.phase == Cancelling {
      n := AdvanceStep(genesis, cfg, job, s);
      AdvanceKeeps(cfg, job, s, n);
    } else {
      n := GrantStep(genesis, cfg, job, s);
      GrantKeeps(cfg, job, s, n);
    }
  }

  /** A completed operation is left alone. */
  lemma DoneStops(cfg: Config, job: Job, s: State)
    requires Prepared(job) && Done(job, s)
    ensures NextWrite(cfg, job, s) == None
  {
  }

  /** What a run that started at `first` has kept after `i` writes. */
  ghost predicate OnTheWay(cfg: Config, job: Job, first: State, s: State, i: nat)
    requires Prepared(job)
  {
    && Finishable(cfg, job, s) && JournalRoom(job, s) && Target(job, s) == Target(job, first)
    && (Room(job, first) <==> Room(job, s)) && Measure(job, s) + i <= Measure(job, first)
  }

  predicate Finished(job: Job, first: State, s: State, i: nat) {
    Done(job, s) && Room(job, first) && Elements(s.rows) == Target(job, first) && i <= Measure(job, first) + 1
  }

  lemma FinalRows(cfg: Config, job: Job, s: State)
    requires Missing(job.doc.cancellations, s.rows) == [] && Missing(job.plan.grants, s.rows) == []
    ensures Target(job, s) == Elements(s.rows) && Room(job, s)
  {
    NothingMissing(job.doc.cancellations, s.rows);
    NothingMissing(job.plan.grants, s.rows);
  }

  lemma SoloWrite(genesis: State, cfg: Config, job: Job, first: State, s: State, n: State, i: nat)
    requires Inv(genesis, s) && Prepared(job) && OnTheWay(cfg, job, first, s, i) && SoloStep(cfg, job, s, n)
    ensures Inv(genesis, n)
    ensures OnTheWay(cfg, job, first, n, i + 1) || Finished(job, first, n, i + 1)
  {
    StepInv(genesis, s, NextWrite(cfg, job, s).value);
    if Stuck(job, s) {
      StuckStops(cfg, job, s);
    } else {
      var next := SoloProgress(genesis, cfg, job, s);
      hide NextWrite, Exec, Inv, Finishable, JournalRoom, Measure, Room, Target, Done, Missing;
      assert next == n;
      if Missing(job.doc.cancellations, s.rows) == [] && Missing(job.plan.grants, s.rows) == [] {
        FinalRows(cfg, job, s);
      }
    }
  }

  lemma {:induction false} SoloRunKeeps(genesis: State, cfg: Config, job: Job, log: seq<State>, i: nat)
    requires Prepared(job) && SoloRun(cfg, job, log) && i < |log|
    requires Inv(genesis, log[0]) && Finishable(cfg, job, log[0]) && JournalRoom(job, log[0])
    ensures Inv(genesis, log[i])
    ensures OnTheWay(cfg, job, log[0], log[i], i) || (Finished(job, log[0], log[i], i) && i == |log| - 1)
  {
    hide SoloStep, Inv, Finishable, JournalRoom;
    if i > 0 {
      SoloRunKeeps(genesis, cfg, job, log, i - 1);
      assert SoloStep(cfg, job, log[i - 1], log[i]);
      hide Finished, OnTheWay;
      SoloWrite(genesis, cfg, job, log[0], log[i - 1], log[i], i - 1);
      if Finished(job, log[0], log[i], i) && i < |log| - 1 {
        assert SoloStep(cfg, job, log[i], log[i + 1]);
        FinishedStops(cfg, job, log[0], log[i], log[i + 1], i);
      }
    }
  }

  lemma FinishedStops(cfg: Config, job: Job, first: State, s: State, n: State, i: nat)
    requires Prepared(job) && Finished(job, first, s, i)
    ensures !SoloStep(cfg, job, s, n)
  {
    DoneStops(cfg, job, s);
  }

  lemma SoloWriteGrows(genesis: State, cfg: Config, job: Job, first: State, s: State, n: State, i: nat)
    requires Inv(genesis, s) && Prepared(job) && OnTheWay(cfg, job, first, s, i) && SoloStep(cfg, job, s, n)
    requires Grown(first.rows, s.rows, Target(job, first))
    ensures Grown(first.rows, n.rows, Target(job, first))
  {
    SoloWrite(genesis, cfg, job, first, s, n, i);
    assert Elements(n.rows) <= Target(job, first);
    var c := NextWrite(cfg, job, s).value;
    ExecIsAttempt(s, c);
    PendingFreezes(s, c);
    hide Verdict, Sound, Missing, NextWrite, Exec, Attempt, Inv, Target;
    assert n.rows != s.rows ==> n.rows[|s.rows|] in Elements(n.rows);
    GrownStep(first.rows, s.rows, n.rows, Target(job, first), Target(job, first));
  }

  /** What attempts add to the journal: distinct rows of the two plans, each once. */
  lemma {:induction false} SoloRunGrows(genesis: State, cfg: Config, job: Job, log: seq<State>, i: nat)
    requires Prepared(job) && SoloRun(cfg, job, log) && i < |log|
    requires Inv(genesis, log[0]) && Finishable(cfg, job, log[0]) && JournalRoom(job, log[0])
    ensures Grown(log[0].rows, log[i].rows, Target(job, log[0]))
  {
    hide SoloStep, Inv, Finishable, JournalRoom, OnTheWay, Finished, Target;
    if i > 0 {
      SoloRunGrows(genesis, cfg, job, log, i - 1);
      SoloRunKeeps(genesis, cfg, job, log, i - 1);
      assert SoloStep(cfg, job, log[i - 1], log[i]);
      SoloWriteGrows(genesis, cfg, job, log[0], log[i - 1], log[i], i - 1);
    }
  }

  /** Crash-resume termination. However the writes are cut into attempts, they stop within
      a fixed number; every row they add is a plan row that was missing, added once; and when
      nothing further is due the operation is complete if and only if the refresh had room
      at the start, and then the rows are exactly the starting rows and both plans. */
  lemma AttemptsConverge(genesis: State, cfg: Config, job: Job, log: seq<State>)
    requires Prepared(job) && SoloRun(cfg, job, log)
    requires Inv(genesis, log[0]) && Finishable(cfg, job, log[0]) && JournalRoom(job, log[0])
    ensures |log| <= Measure(job, log[0]) + 2
    ensures var last := log[|log| - 1];
            && Grown(log[0].rows, last.rows, Target(job, log[0]))
            && (NextWrite(cfg, job, last) == None ==>
                  && (Done(job, last) <==> Room(job, log[0]))
                  && (Done(job, last) ==> Elements(last.rows) == Target(job, log[0])))
  {
    hide SoloStep, Inv, Finishable, JournalRoom, NextWrite, Done, Room, Target, Measure, Grown;
    var last := log[|log| - 1];
    SoloRunKeeps(genesis, cfg, job, log, |log| - 1);
    SoloRunGrows(genesis, cfg, job, log, |log| - 1);
    if NextWrite(cfg, job, last) == None && !Finished(job, log[0], last, |log| - 1) {
      NothingDue(genesis, cfg, job, last);
    }
  }

  lemma NothingDue(genesis: State, cfg: Config, job: Job, s: State)
    requires Inv(genesis, s) && Prepared(job) && Finishable(cfg, job, s) && JournalRoom(job, s)
    requires NextWrite(cfg, job, s) == None
    ensures !Room(job, s) && !Done(job, s)
  {
    if Stuck(job, s) {
      StuckStops(cfg, job, s);
    } else {
      var n := SoloProgress(genesis, cfg, job, s);
    }
  }

  // ------------------------------------------------------------ how much room a claim needs

  /** With `rows` durable rows at the claim and none of the plans' rows among them, the
      largest refresh of the whole operation. */
  function LargestRefresh(rows: nat, cancellations: nat, grants: nat): nat {
    var first := if cancellations > 0 then rows + cancellations - 1 + cancellations else 0;
    var second := if grants > 0 then rows + cancellations + grants - 1 + grants else 0;
    if first > second then first else second
  }

  lemma RoomAtClaim(job: Job, s: State)
    requires Prepared(job)
    requires forall r | r in job.doc.cancellations || r in job.plan.grants :: r !in s.rows
    ensures Room(job, s) <==> LargestRefresh(|s.rows|, |job.doc.cancellations|, |job.plan.grants|) <= MAX_ROWS
  {
    AllMissing(job.doc.cancellations, s.rows);
    AllMissing(job.plan.grants, s.rows);
  }

  lemma {:induction false} AllMissing(plan: seq<Row>, rows: seq<Row>)
    requires forall r | r in plan :: r !in rows
    ensures Missing(plan, rows) == plan
  {
    if plan != [] {
      AllMissing(plan[1..], rows);
      assert plan == [plan[0]] + plan[1..];
    }
  }
}
