/** The assignment journal (lib/delegation-journal.ts): one versioned document that
    every client changes by read, guard and compare-and-swap. A command that wins
    its swap acts atomically on the version it read, so each operation is a partial
    function from state to state. */
module Journal {
  import opened Identity
  import opened Authority
  import opened Documents

  const MAX_ASSIGNMENT_DESTINATIONS := 64
  const MAX_JOURNAL_ROWS := 1024
  const MAX_OPERATIONS := 256

  datatype Phase = Cancelling | Replacing | Complete | Aborted

  datatype Operation = Operation(
    id: OperationId, previous: Key, replacement: Key, phase: Phase,
    cancellationDigest: Option<Digest>, grantDigest: Option<Digest>)

  datatype Receipt = Receipt(operation: OperationId, replacement: Key, revision: nat, evaluatedAt: nat)

  datatype State = State(
    revision: nat, forum: ObjectId, owner: Key, assignee: Key,
    destinations: seq<ObjectId>, rows: seq<Row>, operation: Option<Operation>,
    children: map<ObjectId, Child>, receipts: map<OperationId, Receipt>, used: seq<OperationId>)

  // ------------------------------------------------------------ the parser

  /** The object a row names, when it names one. */
  function TargetOf(row: Row): Option<ObjectId> {
    match row
    case Ownership(target, _, _) => Some(target)
    case Direct(_, target, _, _, _, _, _, _, _) => Some(target)
    case ObjectSet(target, _, _, _, _, _, _, _) => Some(target)
    case Membership(_, _, _, _, _, _, _, _, _) => None
    case GroupCancel(of, _, _, _, _, _) => if of.ObjectSetSoul? then Some(of.target) else None
  }

  /** Rows may only speak about registered destinations, or own the forum itself. */
  predicate RowAllowed(row: Row, destinations: seq<ObjectId>, forum: ObjectId) {
    && WellFormed(row)
    && (TargetOf(row).Some? ==>
          TargetOf(row).value in destinations || (row.Ownership? && TargetOf(row).value == forum))
  }

  predicate ChildAllowed(s: State, id: ObjectId, child: Child) {
    && ParsesDrawerRecord(child.record) && child.record.id == id
    && id in s.destinations && child.record.forum == s.forum && child.record.agent == s.owner
    && 0 < child.signature.length <= 32768
  }

  predicate OperationAllowed(s: State, op: Operation) {
    && op.id.Hex? && IsSeaPubkey(op.previous) && IsSeaPubkey(op.replacement) && op.previous != op.replacement
    && op.id in s.used
    && s.assignee == (if op.phase == Complete then op.replacement else op.previous)
    && (op.grantDigest.Some? ==> op.cancellationDigest.Some?)
    && (op.phase in {Replacing, Complete} ==> op.cancellationDigest.Some? && op.grantDigest.Some?)
    && (op.phase == Complete ==> op.id in s.receipts && s.receipts[op.id].replacement == op.replacement)
    && (op.phase != Complete ==> op.id !in s.receipts)
    && (op.cancellationDigest.Some? ==> IsDigest(op.cancellationDigest.value))
    && (op.grantDigest.Some? ==> IsDigest(op.grantDigest.value))
  }

  predicate ReceiptAllowed(s: State, id: OperationId, receipt: Receipt) {
    && id in s.used && id.Hex? && receipt.operation == id && IsSeaPubkey(receipt.replacement)
    && receipt.evaluatedAt <= MAX_SAFE_INTEGER
    && 0 < receipt.revision <= s.revision
  }

  /** Everything `parse` checks, byte sizes aside. */
  predicate Parses(s: State) {
    && s.revision <= MAX_SAFE_INTEGER
    && IsObjectIdOf(s.forum, Forum) && IsSeaPubkey(s.owner) && IsSeaPubkey(s.assignee) && s.assignee != s.owner
    && 0 < |s.destinations| <= MAX_ASSIGNMENT_DESTINATIONS && NoDuplicates(s.destinations)
    && (forall d | d in s.destinations :: IsObjectId(d))
    && |s.rows| <= MAX_JOURNAL_ROWS
    && |s.used| <= MAX_OPERATIONS && NoDuplicates(s.used) && (forall id | id in s.used :: id.Hex?)
    && |s.children| <= 256 && |s.receipts| <= 256
    && (forall row | row in s.rows :: RowAllowed(row, s.destinations, s.forum))
    && (forall id | id in s.children :: ChildAllowed(s, id, s.children[id]))
    && (s.operation.Some? ==> OperationAllowed(s, s.operation.value))
    && (forall id | id in s.receipts :: ReceiptAllowed(s, id, s.receipts[id]))
  }

  // ------------------------------------------------------------ commands

  datatype Evidence = Evidence(operation: OperationId, replacement: Key, evaluatedAt: nat)

  datatype Command =
    | Claim(actor: Key, id: OperationId, to: Key, expected: nat)
    | BindCancellations(actor: Key, id: OperationId, to: Key, digest: Digest)
    | Abort(actor: Key, id: OperationId)
    | Admit(actor: Key, expected: nat, destination: ObjectId, rows: seq<Row>)
    | WriteChild(expected: nat, child: Child)
    | BindPlan(actor: Key, id: OperationId, to: Key, digest: Digest)
    | Begin(actor: Key, id: OperationId, to: Key)
    | Publish(actor: Key, id: OperationId, to: Key, phase: Phase, row: Row)
    | Commit(actor: Key, id: OperationId, to: Key, evidence: Evidence, now: nat)

  datatype Reason =
    | InvalidIntent | OwnerRequired | StaleOperation | RetiredId | OperationPending | NoCapacity
    | Conflict | InvalidDigest | MaterialChanged | MissingDigest | ReplacementStarted
    | UnregisteredChild | StaleChild | PlanNotBound | AlreadyComplete | Unprepared | PhaseChanged
    | StaleEvidence | InvalidRow | InvalidNext

  /** `Keep` is a successful call that writes nothing. */
  datatype Outcome = Refused(reason: Reason) | Keep | Written(next: State)

  predicate Pending(s: State) {
    s.operation.Some? && s.operation.value.phase in {Cancelling, Replacing}
  }

  predicate Active(s: State, id: OperationId, to: Key) {
    s.operation.Some? && s.operation.value.id == id && s.operation.value.replacement == to &&
    s.operation.value.phase != Aborted
  }

  function Bump(s: State): State {
    s.(revision := s.revision + 1)
  }

  function WithOperation(s: State, op: Operation): State {
    Bump(s).(operation := Some(op))
  }

  /** The rows of `rows` that are not in `known`, repetitions included. */
  function Additions(known: seq<Row>, rows: seq<Row>): seq<Row> {
    if rows == [] then []
    else (if rows[0] in known then [] else [rows[0]]) + Additions(known, rows[1..])
  }

  function TryClaim(s: State, actor: Key, id: OperationId, to: Key, expected: nat): Outcome {
    if !id.Hex? || !IsSeaPubkey(to) then Refused(InvalidIntent)
    else if actor != s.owner then Refused(OwnerRequired)
    else if s.operation.Some? && s.operation.value.id == id then
      if Active(s, id, to) then Keep else Refused(StaleOperation)
    else if id in s.used then Refused(RetiredId)
    else if Pending(s) then Refused(OperationPending)
    else if |s.rows| + |s.destinations| * 5 > MAX_JOURNAL_ROWS then Refused(NoCapacity)
    else if s.revision != expected || s.assignee == to || s.owner == to then Refused(Conflict)
    else Written(WithOperation(s, Operation(id, s.assignee, to, Cancelling, None, None)).(used := s.used + [id]))
  }

  /** Owner and activity checks shared by the calls of a mutation session. */
  function Guarded(s: State, actor: Key, id: OperationId, to: Key): Option<Reason> {
    if actor != s.owner then Some(OwnerRequired)
    else if !Active(s, id, to) then Some(StaleOperation)
    else None
  }

  function TryBindCancellations(s: State, actor: Key, id: OperationId, to: Key, digest: Digest): Outcome {
    if Guarded(s, actor, id, to).Some? then Refused(Guarded(s, actor, id, to).value)
    else if !IsDigest(digest) then Refused(InvalidDigest)
    else if s.operation.value.cancellationDigest.Some? then
      if s.operation.value.cancellationDigest.value == digest then Keep else Refused(MaterialChanged)
    else if s.operation.value.phase != Cancelling then Refused(MissingDigest)
    else Written(WithOperation(s, s.operation.value.(cancellationDigest := Some(digest))))
  }

  function TryAbort(s: State, actor: Key, id: OperationId): Outcome {
    if actor != s.owner then Refused(OwnerRequired)
    else if s.operation.None? || s.operation.value.id != id then Refused(StaleOperation)
    else if s.operation.value.phase == Aborted then Keep
    else if s.operation.value.phase != Cancelling then Refused(ReplacementStarted)
    else Written(WithOperation(s, s.operation.value.(phase := Aborted)))
  }

  function TryAdmit(s: State, actor: Key, expected: nat, destination: ObjectId, rows: seq<Row>): Outcome {
    if actor != s.owner then Refused(OwnerRequired)
    else if Pending(s) then Refused(OperationPending)
    else if s.revision != expected || !IsObjectId(destination) then Refused(Conflict)
    else if exists row :: row in rows && !WellFormed(row) then Refused(InvalidRow)
    else Written(Bump(s).(destinations := SortedSet(s.destinations + [destination]),
                          rows := s.rows + Additions(s.rows, rows)))
  }

  function TryWriteChild(s: State, expected: nat, child: Child): Outcome {
    var id := child.record.id;
    if Pending(s) then Refused(OperationPending)
    else if s.revision != expected || id !in s.destinations then Refused(UnregisteredChild)
    else if id in s.children && (child.record.rev < s.children[id].record.rev ||
            (child.record.rev == s.children[id].record.rev && child.record != s.children[id].record)) then
              Refused(StaleChild)
    else if id in s.children && child.record.rev == s.children[id].record.rev then Keep
    else Written(Bump(s).(children := s.children[id := child]))
  }

  function TryBindPlan(s: State, actor: Key, id: OperationId, to: Key, digest: Digest): Outcome {
    if Guarded(s, actor, id, to).Some? then Refused(Guarded(s, actor, id, to).value)
    else if !IsDigest(digest) then Refused(InvalidDigest)
    else if s.operation.value.grantDigest.Some? then
      if s.operation.value.grantDigest.value == digest then Keep else Refused(MaterialChanged)
    else if s.operation.value.phase != Cancelling then Refused(MissingDigest)
    else Written(WithOperation(s, s.operation.value.(grantDigest := Some(digest))))
  }

  function TryBegin(s: State, actor: Key, id: OperationId, to: Key): Outcome {
    if Guarded(s, actor, id, to).Some? then Refused(Guarded(s, actor, id, to).value)
    else if s.operation.value.grantDigest.None? then Refused(PlanNotBound)
    else if s.operation.value.phase == Replacing then Keep
    else if s.operation.value.phase != Cancelling then Refused(AlreadyComplete)
    else Written(WithOperation(s, s.operation.value.(phase := Replacing)))
  }

  function TryPublish(s: State, actor: Key, id: OperationId, to: Key, phase: Phase, row: Row): Outcome {
    if Guarded(s, actor, id, to).Some? then Refused(Guarded(s, actor, id, to).value)
    else if s.operation.value.cancellationDigest.None? ||
            (phase == Replacing && s.operation.value.grantDigest.None?) then Refused(Unprepared)
    else if phase !in {Cancelling, Replacing} || s.operation.value.phase != phase then Refused(PhaseChanged)
    else if !WellFormed(row) then Refused(InvalidRow)
    else if row in s.rows then Keep
    else Written(Bump(s).(rows := s.rows + [row]))
  }

  function TryCommit(s: State, actor: Key, id: OperationId, to: Key, evidence: Evidence, now: nat): Outcome {
    if Guarded(s, actor, id, to).Some? then Refused(Guarded(s, actor, id, to).value)
    else if evidence.operation != id || evidence.replacement != to || evidence.evaluatedAt != now then
            Refused(StaleEvidence)
    else if id in s.receipts then Keep
    else if s.operation.value.cancellationDigest.None? || s.operation.value.grantDigest.None? then Refused(Unprepared)
    else Written(WithOperation(s, s.operation.value.(phase := Complete)).(
                 assignee := to,
                 receipts := s.receipts[id := Receipt(id, to, s.revision + 1, evidence.evaluatedAt)]))
  }

  /** Guards and effect of each command, before the write re-parses its document. */
  function Attempt(s: State, c: Command): Outcome {
    match c
    case Claim(actor, id, to, expected) => TryClaim(s, actor, id, to, expected)
    case BindCancellations(actor, id, to, digest) => TryBindCancellations(s, actor, id, to, digest)
    case Abort(actor, id) => TryAbort(s, actor, id)
    case Admit(actor, expected, destination, rows) => TryAdmit(s, actor, expected, destination, rows)
    case WriteChild(expected, child) => TryWriteChild(s, expected, child)
    case BindPlan(actor, id, to, digest) => TryBindPlan(s, actor, id, to, digest)
    case Begin(actor, id, to) => TryBegin(s, actor, id, to)
    case Publish(actor, id, to, phase, row) => TryPublish(s, actor, id, to, phase, row)
    case Commit(actor, id, to, evidence, now) => TryCommit(s, actor, id, to, evidence, now)
  }

  /** A command as it reaches the store: a document that does not parse is not written. */
  function Exec(s: State, c: Command): Outcome {
    match Attempt(s, c)
    case Written(next) => if Parses(next) then Written(next) else Refused(InvalidNext)
    case other => other
  }

  // ------------------------------------------------------------ the inductive invariant

  /** The newest receipt, if any, names the assignee. */
  ghost predicate AssigneeFromReceipts(genesis: State, s: State) {
    if s.receipts == map[] then s.assignee == genesis.assignee
    else exists id :: id in s.receipts && s.receipts[id].replacement == s.assignee &&
                      forall other | other in s.receipts && other != id ::
                             s.receipts[other].revision < s.receipts[id].revision
  }

  /** What holds in every state reachable from `genesis`. The parser checks only the
      first conjunct; the others are kept by the commands themselves. */
  ghost predicate Inv(genesis: State, s: State) {
    && Parses(s)
    && s.forum == genesis.forum && s.owner == genesis.owner
    && s.children.Keys <= Elements(s.destinations)
    && s.receipts.Keys <= Elements(s.used)
    && (s.operation.None? <==> s.used == [])
    && (s.operation.Some? ==> s.operation.value.replacement != s.owner && s.used[|s.used| - 1] == s.operation.value.id)
    && AssigneeFromReceipts(genesis, s)
  }

  ghost predicate Genesis(s: State) {
    s.revision == 0 && s.operation == None && s.receipts == map[] && s.used == [] && s.children == map[] && Parses(s)
  }

  // ------------------------------------------------------------ exactly when a write re-parses

  /** The capacity and material limits that can still stop a command whose guards passed. */
  predicate Fits(s: State, c: Command) {
    && s.revision < MAX_SAFE_INTEGER
    && match c
       case Claim(_, _, _, _) => |s.used| < MAX_OPERATIONS
       case BindCancellations(_, _, _, _) => true
       case Abort(_, _) => true
       case Begin(_, _, _) => true
       case Admit(_, _, destination, rows) =>
         && (destination in s.destinations || |s.destinations| < MAX_ASSIGNMENT_DESTINATIONS)
         && |s.rows| + |Additions(s.rows, rows)| <= MAX_JOURNAL_ROWS
         && forall row | row in Additions(s.rows, rows) :: RowAllowed(row, s.destinations + [destination], s.forum)
       case WriteChild(_, child) => ChildAllowed(s, child.record.id, child)
       case BindPlan(_, _, _, _) => s.operation.Some? && s.operation.value.cancellationDigest.Some?
       case Publish(_, _, _, _, row) => |s.rows| < MAX_JOURNAL_ROWS && RowAllowed(row, s.destinations, s.forum)
       case Commit(_, _, _, evidence, _) => evidence.evaluatedAt <= MAX_SAFE_INTEGER
  }

  lemma KeyCount<K, V>(m: map<K, V>, bound: set<K>)
    requires m.Keys <= bound
    ensures |m| <= |bound|
  {
    SubsetCount(m.Keys, bound);
    assert |m| == |m.Keys|;
  }

  lemma AppendNoDuplicates<T>(s: seq<T>, x: T)
    requires NoDuplicates(s) && x !in s
    ensures NoDuplicates(s + [x])
  {
  }

  lemma AscendingNoDuplicates(s: seq<ObjectId>)
    requires Ascending(s)
    ensures NoDuplicates(s)
  {
  }

  lemma SortedCount(s: seq<ObjectId>, d: ObjectId)
    requires NoDuplicates(s)
    ensures |SortedSet(s + [d])| == |s| + if d in s then 0 else 1
  {
    var sorted := SortedSet(s + [d]);
    AscendingNoDuplicates(sorted);
    DistinctCount(sorted);
    DistinctCount(s);
    assert Elements(s + [d]) == Elements(s) + {d};
    assert d in s <==> d in Elements(s);
  }

  /** A write that only touches the operation and the bookkeeping around it. */
  lemma OperationReparses(s: State, n: State)
    requires Parses(s) && n.operation.Some?
    requires n == s.(revision := s.revision + 1, operation := n.operation, used := n.used)
    requires NoDuplicates(n.used) && s.used <= n.used && forall id | id in n.used :: id.Hex?
    ensures Parses(n) <==>
              s.revision < MAX_SAFE_INTEGER && |n.used| <= MAX_OPERATIONS && OperationAllowed(n, n.operation.value)
  {
    forall id | id in s.receipts ensures ReceiptAllowed(n, id, n.receipts[id]) {
      assert ReceiptAllowed(s, id, s.receipts[id]);
    }
    forall id | id in s.children ensures ChildAllowed(n, id, n.children[id]) {
      assert ChildAllowed(s, id, s.children[id]);
    }
  }

  lemma PublishReparses(s: State, n: State, row: Row)
    requires Parses(s) && n == Bump(s).(rows := s.rows + [row])
    ensures Parses(n) <==>
              s.revision < MAX_SAFE_INTEGER && |s.rows| < MAX_JOURNAL_ROWS && RowAllowed(row, s.destinations, s.forum)
  {
    assert row in n.rows;
    forall id | id in s.receipts ensures ReceiptAllowed(n, id, n.receipts[id]) {
      assert ReceiptAllowed(s, id, s.receipts[id]);
    }
    forall id | id in s.children ensures ChildAllowed(n, id, n.children[id]) {
      assert ChildAllowed(s, id, s.children[id]);
    }
  }

  lemma ClaimReparses(genesis: State, s: State, c: Command)
    requires Inv(genesis, s) && c.Claim? && Attempt(s, c).Written?
    ensures Parses(Attempt(s, c).next) <==> Fits(s, c)
  {
    AppendNoDuplicates(s.used, c.id);
    assert c.id !in s.receipts by { assert s.receipts.Keys <= Elements(s.used); }
    OperationReparses(s, Attempt(s, c).next);
  }

  lemma PhaseReparses(genesis: State, s: State, c: Command)
    requires Inv(genesis, s) && (c.BindCancellations? || c.Abort? || c.Begin? || c.BindPlan?) && Attempt(s, c).Written?
    ensures Parses(Attempt(s, c).next) <==> Fits(s, c)
  {
    OperationReparses(s, Attempt(s, c).next);
  }

  lemma PublicationReparses(genesis: State, s: State, c: Command)
    requires Inv(genesis, s) && c.Publish? && Attempt(s, c).Written?
    ensures Parses(Attempt(s, c).next) <==> Fits(s, c)
  {
    PublishReparses(s, Attempt(s, c).next, c.row);
  }

  lemma AdmissionReparses(genesis: State, s: State, c: Command)
    requires Inv(genesis, s) && c.Admit? && Attempt(s, c).Written?
    ensures Parses(Attempt(s, c).next) <==> Fits(s, c)
  {
    AdmitReparses(s, Attempt(s, c).next, c.destination, c.rows);
  }

  lemma ChildWriteReparses(genesis: State, s: State, c: Command)
    requires Inv(genesis, s) && c.WriteChild? && Attempt(s, c).Written?
    ensures Parses(Attempt(s, c).next) <==> Fits(s, c)
  {
    ChildReparses(s, Attempt(s, c).next, c.child);
  }

  /** With the invariant in hand, a command whose guards pass is written if and only
      if it fits the named limits: no other check of the parser can fail. */
  lemma ReparseExactly(genesis: State, s: State, c: Command)
    requires Inv(genesis, s) && Attempt(s, c).Written?
    ensures Exec(s, c).Written? <==> Fits(s, c)
  {
    hide Attempt, Parses, Fits, Inv;
    match c
    case Claim(_, _, _, _) => ClaimReparses(genesis, s, c);
    case Publish(_, _, _, _, _) => PublicationReparses(genesis, s, c);
    case Admit(_, _, _, _) => AdmissionReparses(genesis, s, c);
    case WriteChild(_, _) => ChildWriteReparses(genesis, s, c);
    case Commit(_, _, _, _, _) => CommitmentReparses(genesis, s, c);
    case _ => PhaseReparses(genesis, s, c);
  }

  lemma AdmitDestinations(s: seq<ObjectId>, destination: ObjectId)
    requires NoDuplicates(s)
    ensures NoDuplicates(SortedSet(s + [destination]))
    ensures |SortedSet(s + [destination])| == |s| + if destination in s then 0 else 1
    ensures forall d :: d in SortedSet(s + [destination]) <==> d in s || d == destination
  {
    SortedCount(s, destination);
    AscendingNoDuplicates(SortedSet(s + [destination]));
    forall d ensures d in SortedSet(s + [destination]) <==> d in s || d == destination {
      assert d in SortedSet(s + [destination]) <==> d in Elements(s + [destination]);
    }
  }

  lemma AdmitRows(s: State, destinations: seq<ObjectId>, more: seq<Row>)
    requires forall row | row in s.rows :: RowAllowed(row, s.destinations, s.forum)
    requires forall d | d in s.destinations :: d in destinations
    ensures (forall row | row in s.rows + more :: RowAllowed(row, destinations, s.forum)) <==>
            (forall row | row in more :: RowAllowed(row, destinations, s.forum))
  {
    assert forall row | row in more :: row in s.rows + more;
  }

  lemma SameAllowed(a: seq<ObjectId>, b: seq<ObjectId>, forum: ObjectId)
    requires forall d :: d in a <==> d in b
    ensures forall row :: RowAllowed(row, a, forum) == RowAllowed(row, b, forum)
  {
  }

  lemma AdmitReparses(s: State, n: State, destination: ObjectId, rows: seq<Row>)
    requires Parses(s) && IsObjectId(destination)
    requires s.operation.None? || s.operation.value.phase in {Complete, Aborted}
    requires n == Bump(s).(destinations := SortedSet(s.destinations + [destination]),
                           rows := s.rows + Additions(s.rows, rows))
    ensures Parses(n) <==> Fits(s, Admit(s.owner, s.revision, destination, rows))
  {
    AdmitDestinations(s.destinations, destination);
    AdmitRows(s, n.destinations, Additions(s.rows, rows));
    SameAllowed(n.destinations, s.destinations + [destination], s.forum);
    assert destination in n.destinations;
    forall id | id in s.children ensures ChildAllowed(n, id, n.children[id]) {
      assert ChildAllowed(s, id, s.children[id]);
    }
    forall id | id in s.receipts ensures ReceiptAllowed(n, id, n.receipts[id]) {
      assert ReceiptAllowed(s, id, s.receipts[id]);
    }
  }

  lemma ChildReparses(s: State, n: State, child: Child)
    requires Parses(s) && child.record.id in s.destinations
    requires s.children.Keys <= Elements(s.destinations) && |s.destinations| <= MAX_ASSIGNMENT_DESTINATIONS
    requires n == Bump(s).(children := s.children[child.record.id := child])
    ensures Parses(n) <==> s.revision < MAX_SAFE_INTEGER && ChildAllowed(s, child.record.id, child)
  {
    DistinctCount(s.destinations);
    KeyCount(n.children, Elements(s.destinations));
    assert n.children[child.record.id] == child;
    forall id | id in s.children && id != child.record.id ensures ChildAllowed(n, id, n.children[id]) {
      assert ChildAllowed(s, id, s.children[id]);
    }
  }

  lemma ReceiptsReparse(s: State, n: State, id: OperationId, at: nat)
    requires Parses(s) && s.receipts.Keys <= Elements(s.used) && id in s.used && id.Hex?
    requires IsSeaPubkey(n.assignee) && n.used == s.used && n.revision == s.revision + 1
    requires n.receipts == s.receipts[id := Receipt(id, n.assignee, s.revision + 1, at)]
    ensures |n.receipts| <= 256
    ensures (forall other | other in n.receipts :: ReceiptAllowed(n, other, n.receipts[other])) <==>
            at <= MAX_SAFE_INTEGER
  {
    DistinctCount(s.used);
    KeyCount(n.receipts, Elements(s.used));
    forall other | other in s.receipts && other != id ensures ReceiptAllowed(n, other, n.receipts[other]) {
      assert ReceiptAllowed(s, other, s.receipts[other]);
    }
    assert id in n.receipts;
  }

  lemma CommitmentReparses(genesis: State, s: State, c: Command)
    requires Inv(genesis, s) && c.Commit? && Attempt(s, c).Written?
    ensures Parses(Attempt(s, c).next) <==> Fits(s, c)
  {
    var n := Attempt(s, c).next;
    ReceiptsReparse(s, n, c.id, c.evidence.evaluatedAt);
    forall id | id in s.children ensures ChildAllowed(n, id, n.children[id]) {
      assert ChildAllowed(s, id, s.children[id]);
    }
  }

  lemma SameBookkeepingInv(genesis: State, s: State, n: State)
    requires Inv(genesis, s) && Parses(n)
    requires n.forum == s.forum && n.owner == s.owner && n.assignee == s.assignee
    requires n.receipts == s.receipts && n.used == s.used
    requires n.operation.Some? <==> s.operation.Some?
    requires s.operation.Some? ==>
             n.operation.value.id == s.operation.value.id &&
             n.operation.value.replacement == s.operation.value.replacement
    requires n.children.Keys <= Elements(n.destinations)
    ensures Inv(genesis, n)
  {
  }

  lemma CommitInv(genesis: State, s: State, n: State, id: OperationId)
    requires Inv(genesis, s) && Parses(n) && id in n.receipts
    requires s.operation.Some? && s.operation.value.id == id
    requires n.receipts == s.receipts[id := n.receipts[id]] && n.receipts[id].revision == s.revision + 1
    requires n.receipts[id].replacement == n.assignee
    requires n == Bump(s).(operation := n.operation, receipts := n.receipts, assignee := n.assignee)
    requires n.operation.Some? && n.operation.value.id == id &&
             n.operation.value.replacement == s.operation.value.replacement
    ensures Inv(genesis, n)
  {
    assert id in Elements(n.used);
    forall other | other in n.receipts && other != id
      ensures n.receipts[other].revision < n.receipts[id].revision
    {
      assert ReceiptAllowed(s, other, s.receipts[other]);
    }
  }

  lemma ClaimInv(genesis: State, s: State, n: State, id: OperationId)
    requires Inv(genesis, s) && Parses(n) && n.used == s.used + [id]
    requires n == Bump(s).(operation := n.operation, used := n.used)
    requires n.operation.Some? && n.operation.value.id == id && n.operation.value.replacement != s.owner
    ensures Inv(genesis, n)
  {
    assert Elements(n.used) == Elements(s.used) + {id};
  }

  lemma PhaseInv(genesis: State, s: State, c: Command)
    requires Inv(genesis, s) && (c.BindCancellations? || c.Abort? || c.Begin? || c.BindPlan?) && Exec(s, c).Written?
    ensures Inv(genesis, Exec(s, c).next)
  {
    var n := Exec(s, c).next;
    assert n == WithOperation(s, n.operation.value);
    SameBookkeepingInv(genesis, s, n);
  }

  lemma PublishInv(genesis: State, s: State, c: Command)
    requires Inv(genesis, s) && c.Publish? && Exec(s, c).Written?
    ensures Inv(genesis, Exec(s, c).next)
  {
    SameBookkeepingInv(genesis, s, Exec(s, c).next);
  }

  lemma AdmitInv(genesis: State, s: State, c: Command)
    requires Inv(genesis, s) && c.Admit? && Exec(s, c).Written?
    ensures Inv(genesis, Exec(s, c).next)
  {
    assert Elements(s.destinations + [c.destination]) == Elements(s.destinations) + {c.destination};
    SameBookkeepingInv(genesis, s, Exec(s, c).next);
  }

  lemma ChildInv(genesis: State, s: State, c: Command)
    requires Inv(genesis, s) && c.WriteChild? && Exec(s, c).Written?
    ensures Inv(genesis, Exec(s, c).next)
  {
    assert c.child.record.id in Elements(s.destinations);
    SameBookkeepingInv(genesis, s, Exec(s, c).next);
  }

  lemma ClaimKeepsInv(genesis: State, s: State, c: Command)
    requires Inv(genesis, s) && c.Claim? && Exec(s, c).Written?
    ensures Inv(genesis, Exec(s, c).next)
  {
    ClaimInv(genesis, s, Exec(s, c).next, c.id);
  }

  lemma CommitKeepsInv(genesis: State, s: State, c: Command)
    requires Inv(genesis, s) && c.Commit? && Exec(s, c).Written?
    ensures Inv(genesis, Exec(s, c).next)
  {
    CommitInv(genesis, s, Exec(s, c).next, c.id);
  }

  lemma RevisionStep(s: State, c: Command)
    requires Exec(s, c).Written?
    ensures Exec(s, c).next.revision == s.revision + 1
  {
  }

  /** Every write keeps the invariant and raises the revision by exactly one. */
  lemma StepInv(genesis: State, s: State, c: Command)
    requires Inv(genesis, s) && Exec(s, c).Written?
    ensures Inv(genesis, Exec(s, c).next)
    ensures Exec(s, c).next.revision == s.revision + 1
  {
    RevisionStep(s, c);
    hide Attempt, Exec, Parses, Inv;
    match c
    case Claim(_, _, _, _) => ClaimKeepsInv(genesis, s, c);
    case Commit(_, _, _, _, _) => CommitKeepsInv(genesis, s, c);
    case Publish(_, _, _, _, _) => PublishInv(genesis, s, c);
    case Admit(_, _, _, _) => AdmitInv(genesis, s, c);
    case WriteChild(_, _) => ChildInv(genesis, s, c);
    case _ => PhaseInv(genesis, s, c);
  }
}
