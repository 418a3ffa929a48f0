/** Histories of the assignment journal: what stays true from any version to any later
    one, whichever clients wrote in between. */
module JournalRuns {
  import opened Identity
  import opened Documents
  import opened Journal

  ghost predicate Step(s: State, n: State) {
    exists c :: Exec(s, c) == Written(n)
  }

  /** Successive versions from provisioning on, written by any clients in any order. */
  ghost predicate Run(log: seq<State>) {
    |log| > 0 && Genesis(log[0]) && forall i :: 0 <= i < |log| - 1 ==> Step(log[i], log[i + 1])
  }

  predicate Prefix<T(==)>(a: seq<T>, b: seq<T>) {
    |a| <= |b| && b[..|a|] == a
  }

  /** Operation ids that can never again be current and hold no receipt. */
  predicate Retired(s: State, id: OperationId) {
    id in s.used && id !in s.receipts &&
    (s.operation.None? || s.operation.value.id != id || s.operation.value.phase == Aborted)
  }

  predicate SameOperation(s: State, n: State) {
    s.operation.Some? && n.operation.Some? && n.operation.value.id == s.operation.value.id
  }

  function PhaseRank(phase: Phase): nat {
    match phase
    case Cancelling => 0
    case Replacing => 1
    case Complete => 2
    case Aborted => 2
  }

  predicate SameIntent(a: Operation, b: Operation) {
    a.id == b.id && a.previous == b.previous && a.replacement == b.replacement
  }

  /** Within one operation: intent fixed, digests bound once, phases forward only. */
  predicate Advances(a: Operation, b: Operation) {
    && SameIntent(a, b)
    && (a.cancellationDigest.Some? ==> b.cancellationDigest == a.cancellationDigest)
    && (a.grantDigest.Some? ==> b.grantDigest == a.grantDigest)
    && (a.phase == b.phase || PhaseRank(a.phase) < PhaseRank(b.phase))
    && (b.phase == Aborted ==> a.phase in {Cancelling, Aborted})
  }

  /** What every version keeps of every earlier one. */
  predicate Since(s: State, n: State) {
    && s.revision <= n.revision
    && s.forum == n.forum && s.owner == n.owner
    && Prefix(s.rows, n.rows) && Prefix(s.used, n.used)
    && (forall d | d in s.destinations :: d in n.destinations)
    && (forall id | id in s.receipts :: id in n.receipts && n.receipts[id] == s.receipts[id])
    && (forall id | id in n.receipts && id !in s.receipts :: n.receipts[id].revision > s.revision)
    && (forall d | d in s.children :: d in n.children &&
          (n.children[d] == s.children[d] || n.children[d].record.rev > s.children[d].record.rev))
  }

  lemma PrefixTransitive<T>(a: seq<T>, b: seq<T>, c: seq<T>)
    requires Prefix(a, b) && Prefix(b, c)
    ensures Prefix(a, c)
  {
    assert c[..|a|] == c[..|b|][..|a|];
  }

  lemma SinceTransitive(a: State, b: State, c: State)
    requires Since(a, b) && Since(b, c)
    ensures Since(a, c)
  {
    PrefixTransitive(a.rows, b.rows, c.rows);
    PrefixTransitive(a.used, b.used, c.used);
  }

  lemma StepSince(s: State, c: Command)
    requires Attempt(s, c).Written?
    ensures Since(s, Attempt(s, c).next)
  {
    var n := Attempt(s, c).next;
    if c.Admit? {
      SortedMembers(s.destinations + [c.destination]);
    }
    assert n.rows[..|s.rows|] == s.rows && n.used[..|s.used|] == s.used;
  }

  /** While an operation is pending nothing but its own progress changes: inventory,
      children, assignee, receipts and used ids stay, and rows only grow by publication. */
  predicate FrozenStep(s: State, n: State) {
    && s.operation.Some? && n.operation.Some? && Advances(s.operation.value, n.operation.value)
    && n.destinations == s.destinations && n.children == s.children && n.used == s.used
    && (n.rows == s.rows ||
        (|n.rows| == |s.rows| + 1 && Prefix(s.rows, n.rows) && n.rows[|s.rows|] !in s.rows))
    && (n.operation.value.phase != Complete ==> n.assignee == s.assignee && n.receipts == s.receipts)
  }

  lemma PendingFreezes(s: State, c: Command)
    requires Pending(s) && Attempt(s, c).Written?
    ensures FrozenStep(s, Attempt(s, c).next)
    ensures c.BindCancellations? || c.Abort? || c.BindPlan? || c.Begin? || c.Publish? || c.Commit?
  {
  }

  /** Once retired, always retired; in particular no receipt ever appears. */
  lemma RetiredStep(s: State, c: Command, id: OperationId)
    requires Attempt(s, c).Written? && Retired(s, id)
    ensures Retired(Attempt(s, c).next, id)
  {
  }

  /** The operation of a version is the next one's, advanced; or it was over and a fresh
      id took its place, which retires it unless it has a receipt. */
  lemma OperationStep(s: State, c: Command)
    requires Attempt(s, c).Written? && s.operation.Some?
    ensures var n := Attempt(s, c).next;
            n.operation.Some? &&
            (Advances(s.operation.value, n.operation.value) ||
             (!Pending(s) && n.operation.value.id !in s.used && n.operation.value.phase == Cancelling &&
              n.operation.value.previous == s.assignee))
  {
    if Pending(s) {
      PendingFreezes(s, c);
    }
  }

  lemma LogStep(log: seq<State>, i: nat) returns (c: Command)
    requires Run(log) && i + 1 < |log|
    ensures Exec(log[i], c) == Written(log[i + 1]) && Attempt(log[i], c) == Written(log[i + 1])
  {
    assert Step(log[i], log[i + 1]);
    c :| Exec(log[i], c) == Written(log[i + 1]);
  }

  lemma {:induction false} RunInv(log: seq<State>, i: nat)
    requires Run(log) && i < |log|
    ensures Inv(log[0], log[i]) && log[i].revision == i
  {
    if i > 0 {
      RunInv(log, i - 1);
      var c := LogStep(log, i - 1);
      StepInv(log[0], log[i - 1], c);
    }
  }

  lemma {:induction false} RunSince(log: seq<State>, i: nat, j: nat)
    requires Run(log) && i <= j < |log|
    ensures Since(log[i], log[j])
    decreases j
  {
    if i < j {
      RunSince(log, i, j - 1);
      var c := LogStep(log, j - 1);
      StepSince(log[j - 1], c);
      SinceTransitive(log[i], log[j - 1], log[j]);
    }
  }

  /** Aborted and superseded operations never gain a receipt. */
  lemma {:induction false} RetiredForever(log: seq<State>, i: nat, j: nat, id: OperationId)
    requires Run(log) && i <= j < |log| && Retired(log[i], id)
    ensures id !in log[j].receipts && Retired(log[j], id)
    decreases j
  {
    hide Attempt, Exec;
    if i < j {
      RetiredForever(log, i, j - 1, id);
      var c := LogStep(log, j - 1);
      RetiredStep(log[j - 1], c, id);
    }
  }

  /** The version a receipt names is the one that committed it: there, and not before,
      the operation is complete and its replacement is the assignee. */
  predicate CommittedAt(log: seq<State>, id: OperationId, receipt: Receipt) {
    && 0 < receipt.revision < |log|
    && id !in log[receipt.revision - 1].receipts
    && log[receipt.revision].operation.Some?
    && log[receipt.revision].operation.value.id == id
    && log[receipt.revision].operation.value.phase == Complete
    && log[receipt.revision].assignee == receipt.replacement
    && id in log[receipt.revision].receipts && log[receipt.revision].receipts[id] == receipt
  }

  lemma NewReceipt(s: State, c: Command, id: OperationId)
    requires Attempt(s, c).Written?
    requires id in Attempt(s, c).next.receipts && id !in s.receipts
    ensures var n := Attempt(s, c).next; var r := n.receipts[id];
            c.Commit? && c.id == id && r.revision == s.revision + 1 && n.assignee == r.replacement &&
            n.operation.Some? && n.operation.value.id == id && n.operation.value.phase == Complete
  {
  }

  lemma {:induction false} ReceiptsNameTheirCommit(log: seq<State>, i: nat, id: OperationId)
    requires Run(log) && i < |log| && id in log[i].receipts
    ensures log[i].receipts[id].revision <= i && CommittedAt(log, id, log[i].receipts[id])
  {
    hide Attempt, Exec;
    if i > 0 {
      RunInv(log, i - 1);
      var c := LogStep(log, i - 1);
      if id in log[i - 1].receipts {
        RunSince(log, i - 1, i);
        ReceiptsNameTheirCommit(log, i - 1, id);
      } else {
        NewReceipt(log[i - 1], c, id);
      }
    }
  }

  /** Exactly-once completion. A receipt, once present, is the same in every later version;
      two operations never share a commit; and the assignee is the initial one until the
      first commit, then the replacement of the newest receipt. */
  lemma ExactlyOnce(log: seq<State>, i: nat, j: nat, a: OperationId, b: OperationId)
    requires Run(log) && i <= j < |log| && a in log[i].receipts && b in log[j].receipts
    ensures a in log[j].receipts && log[j].receipts[a] == log[i].receipts[a]
    ensures a != b ==> log[j].receipts[a].revision != log[j].receipts[b].revision
    ensures b !in log[i].receipts ==> log[i].receipts[a].revision < log[j].receipts[b].revision
    ensures AssigneeFromReceipts(log[0], log[j])
  {
    RunSince(log, i, j);
    RunInv(log, i);
    RunInv(log, j);
    ReceiptsNameTheirCommit(log, j, a);
    ReceiptsNameTheirCommit(log, j, b);
    assert ReceiptAllowed(log[i], a, log[i].receipts[a]);
  }

  lemma UsedStays(s: State, n: State, id: OperationId)
    requires Since(s, n) && id in s.used
    ensures id in n.used
  {
    var u :| 0 <= u < |s.used| && s.used[u] == id;
    assert n.used[..|s.used|][u] == n.used[u];
  }

  lemma CurrentIsUsed(log: seq<State>, i: nat)
    requires Run(log) && i < |log| && log[i].operation.Some?
    ensures log[i].operation.value.id in log[i].used
  {
    RunInv(log, i);
  }

  lemma OperationStays(log: seq<State>, i: nat, j: nat)
    requires Run(log) && i <= j < |log| && log[i].operation.Some?
    ensures log[j].operation.Some?
  {
    RunInv(log, j);
    CurrentIsUsed(log, i);
    RunSince(log, i, j);
    UsedStays(log[i], log[j], log[i].operation.value.id);
  }

  lemma AdvancesTransitive(a: Operation, b: Operation, c: Operation)
    requires Advances(a, b) && Advances(b, c)
    ensures Advances(a, c)
  {
  }

  /** One operation over time: while it stays current its intent and bound digests are
      the same material, so every resumed session works on the same documents. */
  lemma {:induction false} OperationAdvances(log: seq<State>, i: nat, j: nat)
    requires Run(log) && i <= j < |log| && SameOperation(log[i], log[j])
    ensures Advances(log[i].operation.value, log[j].operation.value)
    decreases j
  {
    hide Attempt, Exec, Since, Advances;
    if i < j {
      OperationStays(log, i, j - 1);
      CurrentIsUsed(log, i);
      RunSince(log, i, j - 1);
      UsedStays(log[i], log[j - 1], log[i].operation.value.id);
      var c := LogStep(log, j - 1);
      OperationStep(log[j - 1], c);
      var before, after := log[j - 1].operation.value, log[j].operation.value;
      assert Advances(before, after);
      AdvancesSame(before, after);
      OperationAdvances(log, i, j - 1);
      AdvancesTransitive(log[i].operation.value, before, after);
    } else {
      AdvancesReflexive(log[i].operation.value);
    }
  }

  lemma AdvancesReflexive(a: Operation)
    ensures Advances(a, a)
  {
  }

  lemma AdvancesSame(a: Operation, b: Operation)
    requires Advances(a, b)
    ensures a.id == b.id
  {
  }

  // ------------------------------------------------------------ retries

  /** What a written command leaves behind that keeps the same command from writing again. */
  predicate Spent(n: State, c: Command) {
    match c
    case Claim(_, id, _, _) => id in n.used
    case BindCancellations(_, id, _, _) =>
      n.operation.Some? && n.operation.value.id == id && n.operation.value.cancellationDigest.Some?
    case BindPlan(_, id, _, _) => n.operation.Some? && n.operation.value.id == id && n.operation.value.grantDigest.Some?
    case Begin(_, id, _) => n.operation.Some? && n.operation.value.id == id && n.operation.value.phase == Replacing
    case Abort(_, id) => n.operation.Some? && n.operation.value.id == id && n.operation.value.phase == Aborted
    case Publish(_, _, _, _, row) => row in n.rows
    case Commit(_, id, _, _, _) => id in n.receipts
    case Admit(_, expected, _, _) => expected < n.revision
    case WriteChild(expected, _) => expected < n.revision
  }

  lemma WrittenIsSpent(s: State, c: Command)
    requires Attempt(s, c).Written?
    ensures Spent(Attempt(s, c).next, c)
  {
    if c.Publish? {
      assert c.row in Attempt(s, c).next.rows;
    }
  }

  lemma SpentStops(n: State, l: State, c: Command)
    requires Spent(n, c) && Since(n, l)
    requires SameOperation(n, l) ==> Advances(n.operation.value, l.operation.value)
    ensures !Attempt(l, c).Written?
  {
    match c
    case Claim(_, id, _, _) => UsedStays(n, l, id);
    case Publish(_, _, _, _, row) =>
      var i :| 0 <= i < |n.rows| && n.rows[i] == row;
      assert l.rows[..|n.rows|][i] == l.rows[i];
    case _ =>
  }

  lemma ExecIsAttempt(s: State, c: Command)
    ensures Exec(s, c).Written? ==> Exec(s, c) == Attempt(s, c)
  {
  }

  /** However often a client repeats a command whose answer it lost, and whatever others do
      in between, the command writes at most once. */
  lemma NoCommandWritesTwice(log: seq<State>, i: nat, j: nat, c: Command)
    requires Run(log) && i < j < |log| && Exec(log[i], c) == Written(log[i + 1])
    ensures !Exec(log[j], c).Written?
  {
    hide Attempt, Exec, Since, Advances, Spent;
    ExecIsAttempt(log[i], c);
    ExecIsAttempt(log[j], c);
    WrittenIsSpent(log[i], c);
    RunSince(log, i + 1, j);
    if SameOperation(log[i + 1], log[j]) {
      OperationAdvances(log, i + 1, j);
    }
    SpentStops(log[i + 1], log[j], c);
  }

  /** Only the owner changes assignment, inventory or authority; and the calls that name the
      revision they expect extend exactly that one. */
  lemma WhoMayWrite(log: seq<State>, i: nat, c: Command)
    requires Run(log) && i < |log| && Exec(log[i], c).Written?
    ensures !c.WriteChild? ==> c.actor == log[0].owner
    ensures c.Claim? || c.Admit? || c.WriteChild? ==> c.expected == i
  {
    RunInv(log, i);
    hide Parses;
  }
}
