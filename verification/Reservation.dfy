/** The row reservation made by `claim` (lib/delegation-journal.ts:94): room for three
    cancellations and two grants per destination is room for every row that the operation
    can still publish. */
module Reservation {
  import opened Identity
  import opened Authority
  import opened Documents
  import opened Journal
  import opened JournalRuns
  import opened Reconcile
  import opened Protocol

  function GrantTargets(grants: seq<Row>, post: bool): set<ObjectId> {
    set g | g in grants && g.Direct? && g.post == post :: g.target
  }

  lemma TargetsAppend(front: seq<Row>, last: Row, post: bool)
    requires last.Direct?
    ensures GrantTargets(front + [last], post) == GrantTargets(front, post) + if last.post == post then {last.target}
            else {}
  {
  }

  predicate DistinctSouls(grants: seq<Row>) {
    forall i, j :: 0 <= i < j < |grants| ==> SoulOf(grants[i]) != SoulOf(grants[j])
  }

  /** A candidate with a new address has a new target among those of its kind. */
  lemma NewTarget(front: seq<Row>, last: Row, to: Option<Key>, registry: seq<ObjectId>)
    requires Candidate(last, to, registry) && forall g | g in front ::
             Candidate(g, to, registry) && SoulOf(g) != SoulOf(last)
    ensures last.target !in GrantTargets(front, last.post)
  {
    forall g | g in front && g.Direct? && g.post == last.post ensures g.target != last.target {
      assert Candidate(g, to, registry);
    }
  }

  lemma {:induction false} TargetsCount(grants: seq<Row>, to: Option<Key>, registry: seq<ObjectId>)
    requires DistinctSouls(grants) && forall g | g in grants :: Candidate(g, to, registry)
    ensures |grants| == |GrantTargets(grants, true)| + |GrantTargets(grants, false)|
  {
    hide GrantTargets, SoulOf;
    if grants == [] {
      NoTargets(true);
      NoTargets(false);
    } else {
      var front, last := grants[..|grants| - 1], grants[|grants| - 1];
      assert grants == front + [last];
      assert Candidate(last, to, registry);
      forall g | g in front ensures Candidate(g, to, registry) && SoulOf(g) != SoulOf(last) {
        var i :| 0 <= i < |front| && front[i] == g;
        assert grants[i] == g;
      }
      NewTarget(front, last, to, registry);
      TargetsCount(front, to, registry);
      hide Candidate;
      TargetsAppend(front, last, true);
      TargetsAppend(front, last, false);
    }
  }

  lemma NoTargets(post: bool)
    ensures GrantTargets([], post) == {}
  {
  }

  /** Grants to one accessor with distinct addresses: at most two per destination. */
  lemma PlanSize(grants: seq<Row>, to: Option<Key>, registry: seq<ObjectId>)
    requires DistinctSouls(grants) && forall g | g in grants :: Candidate(g, to, registry)
    ensures |grants| <= 2 * |Elements(registry)|
  {
    TargetsCount(grants, to, registry);
    SubsetCount(GrantTargets(grants, true), Elements(registry));
    SubsetCount(GrantTargets(grants, false), Elements(registry));
  }

  /** Rows an operation may publish, as far as its digests are bound. */
  function Publishable(s: State): set<Row> {
    (if HasDocument(s) then Elements(DocumentOf(s).cancellations) else {}) +
    (if HasPlan(s) then Elements(PlanOf(s).grants) else {})
  }

  /** A bound document of the planner has at most three cancellations per destination. */
  lemma BoundSize(s: State)
    requires Material(s) && Pending(s) && NoDuplicates(s.destinations) && HasDocument(s)
    ensures |DocumentOf(s).cancellations| <= 3 * |s.destinations|
  {
    DistinctCount(s.destinations);
  }

  lemma PublishableSize(s: State)
    requires Material(s) && Pending(s) && NoDuplicates(s.destinations)
    ensures |Publishable(s)| <= 5 * |s.destinations|
  {
    var cancels := if HasDocument(s) then Elements(DocumentOf(s).cancellations) else {};
    var grants := if HasPlan(s) then Elements(PlanOf(s).grants) else {};
    DistinctCount(s.destinations);
    if HasDocument(s) {
      BoundSize(s);
      DistinctCount(DocumentOf(s).cancellations);
    }
    if HasPlan(s) {
      var doc := DocumentOf(s);
      PlanSize(PlanOf(s).grants, doc.replacement, doc.fence.destinations);
      DistinctCount(PlanOf(s).grants);
    }
    UnionSize(cancels, grants);
  }

  lemma UnionSize<T>(a: set<T>, b: set<T>)
    ensures |a + b| <= |a| + |b|
  {
    assert a + b == a + (b - a);
    SubsetCount(b - a, b);
  }

  /** `rows` is `base` and then distinct new rows, all of them from `allowed`. */
  predicate Grown(base: seq<Row>, rows: seq<Row>, allowed: set<Row>) {
    && Prefix(base, rows)
    && NoDuplicates(rows[|base|..])
    && forall r | r in rows[|base|..] :: r !in base && r in allowed
  }

  predicate OneMore(rows: seq<Row>, next: seq<Row>, allowed: set<Row>) {
    next == rows || (|next| == |rows| + 1 && Prefix(rows, next) && next[|rows|] !in rows && next[|rows|] in allowed)
  }

  lemma GrownStep(base: seq<Row>, rows: seq<Row>, next: seq<Row>, earlier: set<Row>, allowed: set<Row>)
    requires Grown(base, rows, earlier) && earlier <= allowed && OneMore(rows, next, allowed)
    ensures Grown(base, next, allowed)
  {
    PrefixTransitive(base, rows, next);
    var before := rows[|base|..];
    if next != rows {
      assert next == rows + [next[|rows|]];
      assert next[|base|..] == before + [next[|rows|]];
      assert rows == base + before;
    }
  }

  /** What `s` has beyond the claimed version `base`: distinct new rows of its documents. */
  predicate Reserved(base: State, s: State) {
    base.destinations == s.destinations && Grown(base.rows, s.rows, Publishable(s))
  }

  lemma PendingStep(cfg: Config, s: State, c: Command, at: nat)
    requires Pending(s) && Attempt(s, c).Written? && Legal(cfg, s, c, at) && Pending(Attempt(s, c).next)
    ensures var n := Attempt(s, c).next;
            && n.destinations == s.destinations && Publishable(s) <= Publishable(n)
            && OneMore(s.rows, n.rows, Publishable(n))
  {
    PendingFreezes(s, c);
    hide Verdict;
    var n := Attempt(s, c).next;
    assert Advances(s.operation.value, n.operation.value);
    assert c.Publish? ==> c.row in Publishable(s);
  }

  /** If an operation is pending now, it was current and pending ever since it was claimed. */
  lemma SameBefore(log: seq<State>, i: nat, j: nat)
    requires Run(log) && i < j < |log|
    requires log[i].operation.Some? && SameOperation(log[i], log[j]) && Pending(log[j])
    ensures SameOperation(log[i], log[j - 1]) && Pending(log[j - 1])
  {
    hide Attempt, Exec, Since, Advances;
    CurrentIsUsed(log, i);
    RunSince(log, i, j - 1);
    UsedStays(log[i], log[j - 1], log[i].operation.value.id);
    OperationStays(log, i, j - 1);
    var c := LogStep(log, j - 1);
    OperationStep(log[j - 1], c);
    AdvancesBack(log[j - 1].operation.value, log[j].operation.value);
  }

  lemma AdvancesBack(a: Operation, b: Operation)
    ensures Advances(a, b) ==>
            a.id == b.id && (b.phase in {Cancelling, Replacing} ==> a.phase in {Cancelling, Replacing})
  {
  }

  /** From the claimed version on, while the operation is pending. */
  lemma {:induction false} ReservationHolds(cfg: Config, log: seq<State>, i: nat, j: nat)
    requires LegalRun(cfg, log) && i <= j < |log|
    requires Pending(log[i]) && SameOperation(log[i], log[j]) && Pending(log[j])
    ensures Reserved(log[i], log[j])
    decreases j
  {
    hide Legal, Attempt, Exec, Publishable;
    LegalRunIsRun(cfg, log);
    if i < j {
      SameBefore(log, i, j);
      var c, at := LegalLogStep(cfg, log, j - 1);
      ReservationHolds(cfg, log, i, j - 1);
      PendingStep(cfg, log[j - 1], c, at);
      GrownStep(log[i].rows, log[j - 1].rows, log[j].rows, Publishable(log[j - 1]), Publishable(log[j]));
    }
  }

  lemma ReservedSize(base: State, s: State)
    requires Reserved(base, s) && Material(s) && Pending(s) && NoDuplicates(s.destinations)
    ensures |s.rows| <= |base.rows| + 5 * |s.destinations|
    ensures (exists r :: r in Publishable(s) && r !in s.rows) ==> |s.rows| < |base.rows| + 5 * |s.destinations|
  {
    var added := s.rows[|base.rows|..];
    DistinctCount(added);
    PublishableSize(s);
    SubsetCount(Elements(added), Publishable(s));
    assert |s.rows| == |base.rows| + |added|;
    if r :| r in Publishable(s) && r !in s.rows {
      assert r !in Elements(added);
      SubsetCount(Elements(added), Publishable(s) - {r});
    }
  }

  /** A legal publication is of a document's row, about a registered destination. */
  lemma LegalRowAllowed(cfg: Config, s: State, c: Command, at: nat)
    requires Material(s) && c.Publish? && Attempt(s, c).Written? && Legal(cfg, s, c, at)
    ensures c.row in Publishable(s) && c.row !in s.rows && Pending(s)
    ensures RowAllowed(c.row, s.destinations, s.forum)
  {
    assert Pending(s) && HasDocument(s) && WellFormed(c.row) && CoversDestinations(DocumentOf(s), s.destinations);
    if c.phase == Cancelling {
      var k := CancellationsOnly(CaseOf(DocumentOf(s), []));
      VerdictMeans(cfg, CancellationPreflight, k, s.rows, at);
      hide Attempt, Verdict, RowAllowed, WellFormed;
      assert InScope(c.row, k.saved.agent, k.registry, Groups(Elements(s.rows), k.registry));
      InScopeAllowed(c.row, k.saved.agent, k.registry, Groups(Elements(s.rows), k.registry), s.forum, s.destinations);
    } else {
      var k := BoundCase(s);
      assert Candidate(c.row, k.to, k.registry);
      hide Attempt, Verdict;
      assert c.row.target in Elements(k.registry);
    }
  }

  /** Every pending operation was claimed, on a version that had the room it reserved. */
  lemma {:induction false} PendingWasClaimed(log: seq<State>, j: nat) returns (i: nat)
    requires Run(log) && j < |log| && Pending(log[j])
    ensures i <= j && Pending(log[i]) && SameOperation(log[i], log[j])
    ensures |log[i].rows| + 5 * |log[i].destinations| <= MAX_JOURNAL_ROWS
  {
    hide Attempt, Exec;
    if j == 0 {
      assert false;
    } else {
      var c := LogStep(log, j - 1);
      PendingFrom(log[j - 1], c);
      if Pending(log[j - 1]) && SameOperation(log[j - 1], log[j]) {
        i := PendingWasClaimed(log, j - 1);
      } else {
        i := j;
      }
    }
  }

  lemma PendingFrom(s: State, c: Command)
    requires Attempt(s, c).Written? && Pending(Attempt(s, c).next)
    ensures var n := Attempt(s, c).next;
            (Pending(s) && SameOperation(s, n)) || |n.rows| + 5 * |n.destinations| <= MAX_JOURNAL_ROWS
  {
  }

  /** The reservation suffices for the journal: as long as an operation is pending, no legal
      publication by any client is ever refused for lack of row capacity or for an
      unregistered destination. Only an exhausted revision counter could stop it. */
  lemma ClaimReservesPublication(cfg: Config, log: seq<State>, j: nat, c: Command, at: nat)
    requires LegalRun(cfg, log) && j < |log|
    requires c.Publish? && Attempt(log[j], c).Written? && Legal(cfg, log[j], c, at)
    ensures |log[j].rows| < MAX_JOURNAL_ROWS
    ensures Exec(log[j], c).Written? <==> log[j].revision < MAX_SAFE_INTEGER
  {
    LegalRunIsRun(cfg, log);
    RunMaterial(cfg, log, j);
    RunInv(log, j);
    LegalRowAllowed(cfg, log[j], c, at);
    ReparseExactly(log[0], log[j], c);
    assert NoDuplicates(log[j].destinations);
    hide Legal, Attempt, Exec, Inv, Material, Publishable, RowAllowed;
    var i := PendingWasClaimed(log, j);
    ReservationHolds(cfg, log, i, j);
    ReservedSize(log[i], log[j]);
  }
}
