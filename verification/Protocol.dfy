/** What clients of the assignment journal add to its guards: they bind digests of the
    documents they saved, publish only rows of those documents, and begin, grant or commit
    only on evidence evaluated over the very version they extend. The theorems hold for
    every history in which all clients keep that discipline. */
module Protocol {
  import opened Identity
  import opened Authority
  import opened Documents
  import opened Journal
  import opened JournalRuns
  import opened Reconcile

  /** What the planner makes: at most three cancellations for each destination. */
  predicate OfPlannerSize(doc: CancellationOperation) {
    doc.fence.Fence? ==> |doc.cancellations| <= 3 * |Elements(doc.fence.destinations)|
  }

  /** A cancellation document of the planner, bound to the scope of one operation. */
  predicate ScopedTo(doc: CancellationOperation, forum: ObjectId, op: Operation) {
    && doc.operation == op.id && doc.forum == forum && doc.agent == op.previous
    && doc.fence.Fence? && doc.fence == Fence(doc.forum, doc.agent, doc.operation, doc.fence.destinations)
    && NoDuplicates(doc.cancellations) && OfPlannerSize(doc)
    && (forall c | c in doc.cancellations :: IsCancellation(c))
  }

  /** It was prepared for the reassignment to the operation's own replacement. */
  predicate Intends(doc: CancellationOperation, op: Operation) {
    doc.replacement == Some(op.replacement)
  }

  /** It freezes exactly the registered destinations. */
  predicate CoversDestinations(doc: CancellationOperation, destinations: seq<ObjectId>) {
    doc.fence.Fence? && Elements(doc.fence.destinations) == Elements(destinations)
  }

  /** A grant plan bound to that document: positive direct grants with distinct addresses. */
  predicate PlanFor(doc: CancellationOperation, plan: GrantPlan) {
    && doc.fence.Fence?
    && plan.operation == doc.operation
    && plan.binding == PlanBinding(doc, doc.fence.destinations)
    && (forall g | g in plan.grants :: Candidate(g, doc.replacement, doc.fence.destinations))
    && (forall i, j :: 0 <= i < j < |plan.grants| ==> SoulOf(plan.grants[i]) != SoulOf(plan.grants[j]))
  }

  predicate HasDocument(s: State) {
    s.operation.Some? && s.operation.value.cancellationDigest.Some? &&
    s.operation.value.cancellationDigest.value.OfCancellations?
  }

  function DocumentOf(s: State): CancellationOperation
    requires HasDocument(s)
  {
    s.operation.value.cancellationDigest.value.document
  }

  predicate HasPlan(s: State) {
    HasDocument(s) && DocumentOf(s).fence.Fence? &&
    s.operation.value.grantDigest.Some? && s.operation.value.grantDigest.value.OfGrants?
  }

  function PlanOf(s: State): GrantPlan
    requires HasPlan(s)
  {
    s.operation.value.grantDigest.value.plan
  }

  function CaseOf(doc: CancellationOperation, grants: seq<Row>): Case
    requires doc.fence.Fence?
  {
    Case(doc, doc.replacement, grants, doc.fence.destinations)
  }

  /** The evaluation both bound documents call for. */
  function BoundCase(s: State): Case
    requires HasPlan(s)
  {
    CaseOf(DocumentOf(s), PlanOf(s).grants)
  }

  /** The discipline: what must be true of the version `s` that command `c` extends, given
      that its evidence, if it needs any, was evaluated at second `at`. */
  predicate Legal(cfg: Config, s: State, c: Command, at: nat) {
    match c
    case BindCancellations(_, _, _, digest) =>
      digest.OfCancellations? && s.operation.Some? &&
      ScopedTo(digest.document, s.forum, s.operation.value) && CoversDestinations(digest.document, s.destinations)
    case BindPlan(_, _, _, digest) =>
      HasDocument(s) && Intends(DocumentOf(s), s.operation.value) && digest.OfGrants? &&
        PlanFor(DocumentOf(s), digest.plan)
    case Begin(_, _, _) => HasPlan(s) && Verdict(cfg, ReplacementPreflight, BoundCase(s), s.rows, at) == None
    case Publish(_, _, _, Cancelling, row) =>
      HasDocument(s) && row in DocumentOf(s).cancellations && DocumentOf(s).fence.Fence? &&
      Verdict(cfg, CancellationPreflight, CancellationsOnly(CaseOf(DocumentOf(s), [])), s.rows, at) == None
    case Publish(_, _, _, _, row) =>
      HasPlan(s) && row in PlanOf(s).grants && Verdict(cfg, ReplacementPreflight, BoundCase(s), s.rows, at) == None
    case Commit(_, _, _, evidence, _) =>
      HasPlan(s) && evidence.evaluatedAt == at && Verdict(cfg, Reconciling, BoundCase(s), s.rows, at) == None
    case _ => true
  }

  ghost predicate LegalStep(cfg: Config, s: State, n: State) {
    exists c, at :: Exec(s, c) == Written(n) && Legal(cfg, s, c, at)
  }

  ghost predicate LegalRun(cfg: Config, log: seq<State>) {
    |log| > 0 && Genesis(log[0]) && forall i :: 0 <= i < |log| - 1 ==> LegalStep(cfg, log[i], log[i + 1])
  }

  lemma LegalRunIsRun(cfg: Config, log: seq<State>)
    requires LegalRun(cfg, log)
    ensures Run(log)
  {
    forall i | 0 <= i < |log| - 1 ensures Step(log[i], log[i + 1]) {
      assert LegalStep(cfg, log[i], log[i + 1]);
    }
  }

  lemma LegalLogStep(cfg: Config, log: seq<State>, i: nat) returns (c: Command, at: nat)
    requires LegalRun(cfg, log) && i + 1 < |log|
    ensures Exec(log[i], c) == Written(log[i + 1]) && Attempt(log[i], c) == Written(log[i + 1])
    ensures Legal(cfg, log[i], c, at)
  {
    assert LegalStep(cfg, log[i], log[i + 1]);
    c, at :| Exec(log[i], c) == Written(log[i + 1]) && Legal(cfg, log[i], c, at);
  }

  // ------------------------------------------------------------ bound material

  predicate SealedBy(forum: ObjectId, op: Operation) {
    && (op.cancellationDigest.Some? ==>
          op.cancellationDigest.value.OfCancellations? && ScopedTo(op.cancellationDigest.value.document, forum, op))
    && (op.grantDigest.Some? ==>
          op.cancellationDigest.Some? && op.grantDigest.value.OfGrants? &&
          Intends(op.cancellationDigest.value.document, op) &&
          PlanFor(op.cancellationDigest.value.document, op.grantDigest.value.plan))
  }

  /** The digests bound in a version are those of documents made for its operation, and
      while it is pending they cover exactly the frozen destinations. */
  predicate Material(s: State) {
    s.operation.Some? ==>
      && SealedBy(s.forum, s.operation.value)
      && (Pending(s) && s.operation.value.cancellationDigest.Some? ==>
            CoversDestinations(s.operation.value.cancellationDigest.value.document, s.destinations))
  }

  lemma BindMaterial(cfg: Config, s: State, c: Command, at: nat)
    requires Material(s) && Exec(s, c).Written? && Legal(cfg, s, c, at) && c.BindCancellations?
    ensures Material(Exec(s, c).next)
  {
    hide Verdict, Elements, PlanFor, CoversDestinations, NoDuplicates, IsCancellation;
    assert OperationAllowed(Exec(s, c).next, Exec(s, c).next.operation.value);
    hide Parses;
  }

  lemma PlanMaterial(cfg: Config, s: State, c: Command, at: nat)
    requires Material(s) && Exec(s, c).Written? && Legal(cfg, s, c, at) && c.BindPlan?
    ensures Material(Exec(s, c).next)
  {
    hide Verdict, Elements, PlanFor, CoversDestinations, NoDuplicates, IsCancellation, Parses;
  }

  /** Commands that bind nothing leave the bound material alone. */
  lemma OtherMaterial(s: State, c: Command)
    requires Material(s) && Exec(s, c).Written? && !c.BindCancellations? && !c.BindPlan?
    ensures Material(Exec(s, c).next)
  {
    hide Elements, PlanFor, CoversDestinations, NoDuplicates, IsCancellation, Parses;
  }

  lemma MaterialStep(cfg: Config, s: State, c: Command, at: nat)
    requires Material(s) && Exec(s, c).Written? && Legal(cfg, s, c, at)
    ensures Material(Exec(s, c).next)
  {
    hide Verdict, Elements, PlanFor, ScopedTo, CoversDestinations, Exec, Attempt, Legal, Material;
    match c
    case BindCancellations(_, _, _, _) => BindMaterial(cfg, s, c, at);
    case BindPlan(_, _, _, _) => PlanMaterial(cfg, s, c, at);
    case _ => OtherMaterial(s, c);
  }

  lemma {:induction false} RunMaterial(cfg: Config, log: seq<State>, i: nat)
    requires LegalRun(cfg, log) && i < |log|
    ensures Material(log[i])
  {
    hide Legal, Exec, Attempt, Material;
    if i == 0 {
      GenesisMaterial(log[0]);
    } else {
      RunMaterial(cfg, log, i - 1);
      var c, at := LegalLogStep(cfg, log, i - 1);
      MaterialStep(cfg, log[i - 1], c, at);
    }
  }

  lemma GenesisMaterial(s: State)
    requires Genesis(s)
    ensures Material(s)
  {
  }

  // ------------------------------------------------------------ cancel before grant

  /** Every saved cancellation is durable in this version. */
  predicate Cleared(s: State) {
    HasPlan(s) && Elements(DocumentOf(s).cancellations) <= Elements(s.rows)
  }

  lemma EvidenceClears(cfg: Config, s: State, mode: Mode, at: nat)
    requires HasPlan(s) && mode != CancellationPreflight && Verdict(cfg, mode, BoundCase(s), s.rows, at) == None
    ensures Cleared(s)
  {
    VerdictMeans(cfg, mode, BoundCase(s), s.rows, at);
    hide Verdict;
    assert CancellationsPresent(mode, BoundCase(s), Elements(s.rows));
  }

  lemma MoreRows(s: seq<Row>, n: seq<Row>)
    requires Prefix(s, n)
    ensures Elements(s) <= Elements(n)
  {
    forall r | r in s ensures r in n {
      var i :| 0 <= i < |s| && s[i] == r;
      assert n[..|s|][i] == n[i];
    }
  }

  lemma ClearedStep(cfg: Config, s: State, c: Command, at: nat)
    requires Attempt(s, c).Written? && Legal(cfg, s, c, at)
    requires s.operation.Some? && s.operation.value.phase in {Replacing, Complete} ==> Cleared(s)
    ensures var n := Attempt(s, c).next;
            n.operation.Some? && n.operation.value.phase in {Replacing, Complete} ==> Cleared(n)
  {
    StepSince(s, c);
    MoreRows(s.rows, Attempt(s, c).next.rows);
    if c.Begin? {
      EvidenceClears(cfg, s, ReplacementPreflight, at);
    } else if c.Commit? {
      EvidenceClears(cfg, s, Reconciling, at);
    }
    hide Verdict, Elements, Since;
  }

  /** From the replacement phase on, all cancellations of the operation are in the journal. */
  lemma {:induction false} ReplacementIsCleared(cfg: Config, log: seq<State>, i: nat)
    requires LegalRun(cfg, log) && i < |log|
    requires log[i].operation.Some? && log[i].operation.value.phase in {Replacing, Complete}
    ensures Cleared(log[i])
  {
    hide Legal, Exec, Attempt, Cleared;
    if i > 0 {
      var c, at := LegalLogStep(cfg, log, i - 1);
      if log[i - 1].operation.Some? && log[i - 1].operation.value.phase in {Replacing, Complete} {
        ReplacementIsCleared(cfg, log, i - 1);
      }
      ClearedStep(cfg, log[i - 1], c, at);
    }
  }

  lemma SameDestinationsLost(cfg: Config, rows: set<Row>, agent: Key, a: seq<ObjectId>, b: seq<ObjectId>, at: nat)
    requires Lost(cfg, rows, agent, a, at) && Elements(a) == Elements(b)
    ensures Lost(cfg, rows, agent, b, at)
  {
    forall d | d in b ensures d in a {
      assert d in Elements(b);
    }
  }

  /** Evidence for the replacement, over exactly the rows of a version: the old assignee has
      lost every destination there, with or without the grants. */
  lemma EvidenceShutsOut(cfg: Config, s: State, at: nat)
    requires HasPlan(s) && Material(s) && Pending(s) && s.operation.value.previous != s.operation.value.replacement
    requires |s.rows| <= MAX_ROWS
    requires Verdict(cfg, ReplacementPreflight, BoundCase(s), s.rows, at) == None
    ensures Cleared(s)
    ensures Lost(cfg, Elements(s.rows), s.operation.value.previous, s.destinations, at)
  {
    var k := BoundCase(s);
    EvidenceClears(cfg, s, ReplacementPreflight, at);
    VerdictMeans(cfg, ReplacementPreflight, k, s.rows, at);
    CancellationsStayReconciled(cfg, k, s.rows, s.rows, at);
    SameDestinationsLost(cfg, Elements(s.rows), k.saved.agent, k.registry, s.destinations, at);
  }

  /** In the replacement phase only a publication changes the rows, on a passing preflight. */
  lemma ReplacingStep(cfg: Config, s: State, c: Command, at: nat)
    requires Attempt(s, c).Written? && Legal(cfg, s, c, at)
    requires s.operation.Some? && s.operation.value.phase == Replacing && Attempt(s, c).next.rows != s.rows
    ensures HasPlan(s) && Pending(s) && Verdict(cfg, ReplacementPreflight, BoundCase(s), s.rows, at) == None
    ensures c.Publish? && c.row in PlanOf(s).grants && Attempt(s, c).next.rows == s.rows + [c.row]
  {
    hide Verdict, PlanFor;
    PendingFreezes(s, c);
  }

  lemma EnteringStep(cfg: Config, s: State, c: Command, at: nat)
    requires Attempt(s, c).Written? && Legal(cfg, s, c, at)
    requires s.operation.Some? && s.operation.value.phase == Cancelling
    requires Attempt(s, c).next.operation.Some? && Attempt(s, c).next.operation.value.phase == Replacing
    ensures HasPlan(s) && Pending(s) && Verdict(cfg, ReplacementPreflight, BoundCase(s), s.rows, at) == None
  {
    hide Verdict, PlanFor;
    PendingFreezes(s, c);
  }

  lemma VersionFacts(cfg: Config, log: seq<State>, i: nat)
    requires LegalRun(cfg, log) && i < |log| && log[i].operation.Some?
    ensures Material(log[i]) && |log[i].rows| <= MAX_ROWS
    ensures log[i].operation.value.previous != log[i].operation.value.replacement
  {
    LegalRunIsRun(cfg, log);
    RunInv(log, i);
    RunMaterial(cfg, log, i);
    hide Material;
  }

  /** Cancel before grant. A row enters the journal in the replacement phase only on top of
      a version that already holds every saved cancellation and in which the old assignee
      had, at some evaluated second, lost access to every destination. */
  lemma CancelBeforeGrant(cfg: Config, log: seq<State>, i: nat) returns (at: nat)
    requires LegalRun(cfg, log) && i + 1 < |log|
    requires log[i].operation.Some? && log[i].operation.value.phase == Replacing && log[i + 1].rows != log[i].rows
    ensures HasPlan(log[i]) && |log[i + 1].rows| == |log[i].rows| + 1
    ensures log[i + 1].rows == log[i].rows + [log[i + 1].rows[|log[i].rows|]]
    ensures log[i + 1].rows[|log[i].rows|] in PlanOf(log[i]).grants
    ensures Cleared(log[i])
    ensures Lost(cfg, Elements(log[i].rows), log[i].operation.value.previous, log[i].destinations, at)
  {
    hide Material, LegalRun, Legal, Exec, Attempt, Verdict, PlanFor, Lost;
    var c;
    VersionFacts(cfg, log, i);
    c, at := LegalLogStep(cfg, log, i);
    ReplacingStep(cfg, log[i], c, at);
    EvidenceShutsOut(cfg, log[i], at);
  }

  /** The replacement phase itself is entered on the same evidence. */
  lemma BeginIsCleared(cfg: Config, log: seq<State>, i: nat) returns (at: nat)
    requires LegalRun(cfg, log) && i + 1 < |log|
    requires log[i].operation.Some? && log[i].operation.value.phase == Cancelling
    requires log[i + 1].operation.Some? && log[i + 1].operation.value.phase == Replacing
    ensures Cleared(log[i])
    ensures Lost(cfg, Elements(log[i].rows), log[i].operation.value.previous, log[i].destinations, at)
  {
    hide Material, LegalRun, Legal, Exec, Attempt, Verdict, PlanFor, Lost;
    var c;
    VersionFacts(cfg, log, i);
    c, at := LegalLogStep(cfg, log, i);
    EnteringStep(cfg, log[i], c, at);
    EvidenceShutsOut(cfg, log[i], at);
  }

  // ------------------------------------------------------------ the commit fence

  /** Every receipt was committed on top of a version whose rows, and no others, were admitted and
      passed the final reconciliation at the recorded second; no row came in between, and all rows of
      both documents are in every later version. */
  lemma CommitFence(cfg: Config, log: seq<State>, j: nat, id: OperationId)
    requires LegalRun(cfg, log) && j < |log| && id in log[j].receipts
    ensures var r := log[j].receipts[id];
            && 0 < r.revision <= j
            && var s := log[r.revision - 1];
            && HasPlan(s) && s.operation.value.id == id && s.operation.value.replacement == r.replacement
            && Succeeds(cfg, Reconciling, BoundCase(s), s.rows, r.evaluatedAt)
            && log[r.revision].rows == s.rows && Admits(cfg, Elements(s.rows), r.evaluatedAt)
            && Lost(cfg, Elements(s.rows), s.operation.value.previous, s.destinations, r.evaluatedAt)
            && (forall g | g in PlanOf(s).grants ::
                  g.Direct? && GrantEffective(cfg, Elements(s.rows), g, r.evaluatedAt))
            && Elements(DocumentOf(s).cancellations) <= Elements(log[j].rows)
            && Elements(PlanOf(s).grants) <= Elements(log[j].rows)
  {
    LegalRunIsRun(cfg, log);
    hide LegalRun, Run, Lost, GrantEffective, Succeeds, PlanFor, Since, Admits;
    ReceiptsNameTheirCommit(log, j, id);
    var i := log[j].receipts[id].revision - 1;
    CommitStep(cfg, log, i, id);
    RunSince(log, i, j);
    RowsSince(log[i], log[j]);
    FinalAccess(cfg, log, i, log[j].receipts[id].evaluatedAt);
  }

  lemma RowsSince(s: State, n: State)
    requires Since(s, n)
    ensures Elements(s.rows) <= Elements(n.rows)
  {
    MoreRows(s.rows, n.rows);
  }

  /** The step that wrote a receipt. */
  lemma CommitStep(cfg: Config, log: seq<State>, i: nat, id: OperationId)
    requires LegalRun(cfg, log) && i + 1 < |log| && id !in log[i].receipts && id in log[i + 1].receipts
    ensures var s, r := log[i], log[i + 1].receipts[id];
            && HasPlan(s) && Pending(s) && s.operation.value.id == id && s.operation.value.replacement == r.replacement
            && Succeeds(cfg, Reconciling, BoundCase(s), s.rows, r.evaluatedAt) && log[i + 1].rows == s.rows
            && Elements(DocumentOf(s).cancellations) <= Elements(s.rows) &&
               Elements(PlanOf(s).grants) <= Elements(s.rows)
  {
    LegalRunIsRun(cfg, log);
    hide LegalRun, Exec, Succeeds, Verdict, PlanFor;
    var s := log[i];
    var c, at := LegalLogStep(cfg, log, i);
    NewReceipt(s, c, id);
    CommitEffect(s, c);
    RunInv(log, i);
    CommitPending(log[0], s, c);
    hide Attempt, Inv;
    EvidenceClears(cfg, s, Reconciling, at);
    VerdictMeans(cfg, Reconciling, BoundCase(s), s.rows, at);
    EvidenceGrants(cfg, s, at);
  }

  lemma CommitPending(genesis: State, s: State, c: Command)
    requires Inv(genesis, s) && c.Commit? && Attempt(s, c).Written?
    ensures Pending(s)
  {
    assert OperationAllowed(s, s.operation.value);
  }

  lemma CommitEffect(s: State, c: Command)
    requires c.Commit? && Attempt(s, c).Written?
    ensures var n := Attempt(s, c).next;
            && n.rows == s.rows && s.operation.Some? && s.operation.value.id == c.id
            && s.operation.value.replacement == c.to && c.evidence.evaluatedAt == c.now
            && c.id in n.receipts && n.receipts[c.id] == Receipt(c.id, c.to, s.revision + 1, c.now)
  {
  }

  /** What the final evidence says: the old assignee is out, the replacement is in. */
  lemma FinalAccess(cfg: Config, log: seq<State>, i: nat, at: nat)
    requires LegalRun(cfg, log) && i < |log| && Pending(log[i]) && HasPlan(log[i])
    requires Succeeds(cfg, Reconciling, BoundCase(log[i]), log[i].rows, at)
    ensures var s := log[i];
            && Admits(cfg, Elements(s.rows), at)
            && Lost(cfg, Elements(s.rows), s.operation.value.previous, s.destinations, at)
            && forall g | g in PlanOf(s).grants :: g.Direct? && GrantEffective(cfg, Elements(s.rows), g, at)
  {
    var s := log[i];
    RunMaterial(cfg, log, i);
    SameDestinationsLost(cfg, Elements(s.rows), s.operation.value.previous, DocumentOf(s).fence.destinations,
                         s.destinations, at);
    hide LegalRun, Admits, Lost, GrantEffective, Verdict;
    forall g | g in PlanOf(s).grants ensures g.Direct? && GrantEffective(cfg, Elements(s.rows), g, at) {
      assert GrantPresent(Reconciling, BoundCase(s), Elements(s.rows), g);
    }
  }

  lemma EvidenceGrants(cfg: Config, s: State, at: nat)
    requires HasPlan(s) && Succeeds(cfg, Reconciling, BoundCase(s), s.rows, at)
    ensures Elements(PlanOf(s).grants) <= Elements(s.rows)
  {
    forall g | g in PlanOf(s).grants ensures g in Elements(s.rows) {
      assert GrantPresent(Reconciling, BoundCase(s), Elements(s.rows), g);
    }
  }

  lemma InScopeAllowed(row: Row, agent: Key, registry: seq<ObjectId>, groups: set<(ObjectId, bool)>, forum: ObjectId,
                       destinations: seq<ObjectId>)
    requires InScope(row, agent, registry, groups) && WellFormed(row)
    requires Elements(registry) == Elements(destinations)
    ensures RowAllowed(row, destinations, forum)
  {
    forall d | d in registry ensures d in destinations {
      assert d in Elements(registry);
    }
  }
}
