/** The evidence check (lib/delegation-reconcile.ts) in its three modes. `Verdict` says
    what the check decides; `Evaluate` computes it the way the source does, over the
    graph of one refresh. */
module Reconcile {
  import opened Identity
  import opened Authority
  import opened Documents
  import Refresh

  datatype Mode = Reconciling | ReplacementPreflight | CancellationPreflight

  datatype Failure =
    | MissingOperation | NotFrozen | IntentMismatch | MissingPlan
    | CancellationOutside | InvalidCandidate | Unverified | MissingCancellation
    | MissingDestination | AccessRemains | MissingGrant | AccessMissing
    | OperationChanged | PlanChanged | StaleEvaluation

  /** What one evaluation is about: the saved cancellations, the replacement plan when a
      replacement was asked for, and the frozen registry. */
  datatype Case = Case(saved: CancellationOperation, to: Option<Key>, grants: seq<Row>, registry: seq<ObjectId>)

  /** Relations that a signed, positive object-set row links to a registered destination. */
  function Groups(rows: set<Row>, registry: seq<ObjectId>): set<(ObjectId, bool)> {
    set row | row in rows && row.ObjectSet? && row.stated && row.target in registry :: (row.group, row.circle)
  }

  predicate InScope(row: Row, agent: Key, registry: seq<ObjectId>, groups: set<(ObjectId, bool)>) {
    && IsCancellation(row)
    && match row
       case Ownership(_, _, _) => false
       case Direct(_, target, accessor, _, _, _, _, _, _) => accessor == agent && target in registry
       case ObjectSet(target, _, _, _, _, _, _, _) => target in registry
       case Membership(_, circle, group, member, _, _, _, _, _) => member == agent && (group, circle) in groups
       case GroupCancel(of, _, _, _, _, _) =>
         match of
         case ObjectSetSoul(_, _, target) => target in registry
         case MemberSoul(circle, group, member) => member == agent && (group, circle) in groups
         case _ => false
  }

  /** A positive direct grant to the replacement at a registered destination. */
  predicate Candidate(row: Row, to: Option<Key>, registry: seq<ObjectId>) {
    row.Direct? && row.stated && Some(row.accessor) == to && row.target in registry
  }

  /** The rows the refresh verifies: durable evidence plus the candidates of a preflight.
      A candidate that is already published appears twice. */
  function Prospective(mode: Mode, k: Case, rows: seq<Row>): seq<Row> {
    match mode
    case Reconciling => rows
    case ReplacementPreflight => rows + k.grants
    case CancellationPreflight => rows + k.saved.cancellations
  }

  /** First destination the old assignee's loss of access does not hold for. */
  function ScanDestinations(cfg: Config, rows: set<Row>, agent: Key, registry: seq<ObjectId>,
                            at: nat): Option<Failure> {
    if registry == [] then None
    else if !Owned(rows, registry[0]) then Some(MissingDestination)
    else if AnyAccess(cfg, rows, registry[0], agent, at) then Some(AccessRemains)
    else ScanDestinations(cfg, rows, agent, registry[1..], at)
  }

  predicate GrantPresent(mode: Mode, k: Case, evidence: set<Row>, grant: Row) {
    Candidate(grant, k.to, k.registry) && (mode == ReplacementPreflight || grant in evidence)
  }

  predicate GrantEffective(cfg: Config, rows: set<Row>, grant: Row, at: nat)
    requires grant.Direct?
  {
    grant.from <= at < grant.until && CanDirect(cfg, rows, grant.post, grant.target, grant.accessor, at)
  }

  function ScanGrants(cfg: Config, mode: Mode, k: Case, evidence: set<Row>, rows: set<Row>, grants: seq<Row>,
                      at: nat): Option<Failure> {
    if grants == [] then None
    else if !GrantPresent(mode, k, evidence, grants[0]) then Some(MissingGrant)
    else if !GrantEffective(cfg, rows, grants[0], at) then Some(AccessMissing)
    else ScanGrants(cfg, mode, k, evidence, rows, grants[1..], at)
  }

  /** None when the check succeeds. */
  function Verdict(cfg: Config, mode: Mode, k: Case, rows: seq<Row>, at: nat): Option<Failure> {
    var all := Prospective(mode, k, rows);
    if Rejected(mode, k, rows).Some? then Rejected(mode, k, rows)
    else if |all| > MAX_ROWS || !Admits(cfg, Elements(all), at) then Some(Unverified)
    else if !CancellationsPresent(mode, k, Elements(rows)) then Some(MissingCancellation)
    else if ScanDestinations(cfg, Elements(all), k.saved.agent, k.registry, at).Some?
    then ScanDestinations(cfg, Elements(all), k.saved.agent, k.registry, at)
    else ScanGrants(cfg, mode, k, Elements(rows), Elements(all), k.grants, at)
  }

  // ------------------------------------------------------------ the evaluation

  /** Why a preflight refuses its candidates, or none. */
  function Rejected(mode: Mode, k: Case, rows: seq<Row>): Option<Failure> {
    if mode == CancellationPreflight &&
       exists c :: c in k.saved.cancellations &&
         !InScope(c, k.saved.agent, k.registry, Groups(Elements(rows), k.registry))
    then Some(CancellationOutside)
    else if mode == ReplacementPreflight && exists g :: g in k.grants && !Candidate(g, k.to, k.registry)
    then Some(InvalidCandidate)
    else None
  }

  method Gather(mode: Mode, k: Case, rows: seq<Row>) returns (failure: Option<Failure>, all: seq<Row>)
    ensures failure == Rejected(mode, k, rows)
    ensures failure == None ==> all == Prospective(mode, k, rows)
  {
    all := rows;
    if mode == CancellationPreflight {
      var groups := Groups(Elements(rows), k.registry);
      for i := 0 to |k.saved.cancellations|
        invariant forall c :: c in k.saved.cancellations[..i] ==> InScope(c, k.saved.agent, k.registry, groups)
        invariant all == rows + k.saved.cancellations[..i]
      {
        var c := k.saved.cancellations[i];
        if !InScope(c, k.saved.agent, k.registry, groups) {
          return Some(CancellationOutside), all;
        }
        all := all + [c];
      }
    }
    if mode == ReplacementPreflight {
      for i := 0 to |k.grants|
        invariant forall g :: g in k.grants[..i] ==> Candidate(g, k.to, k.registry)
        invariant all == rows + k.grants[..i]
      {
        if !Candidate(k.grants[i], k.to, k.registry) {
          return Some(InvalidCandidate), all;
        }
        all := all + [k.grants[i]];
      }
    }
    failure := None;
  }

  /** Every saved cancellation is one and, outside its own preflight, is durable evidence. */
  predicate CancellationsPresent(mode: Mode, k: Case, evidence: set<Row>) {
    forall c | c in k.saved.cancellations :: IsCancellation(c) && (mode == CancellationPreflight || c in evidence)
  }

  method CheckCancellations(mode: Mode, k: Case, rows: seq<Row>) returns (present: bool)
    ensures present == CancellationsPresent(mode, k, Elements(rows))
  {
    for i := 0 to |k.saved.cancellations|
      invariant forall c :: c in k.saved.cancellations[..i] ==>
                IsCancellation(c) && (mode == CancellationPreflight || c in rows)
    {
      var c := k.saved.cancellations[i];
      if !IsCancellation(c) || (mode != CancellationPreflight && c !in rows) {
        assert c in k.saved.cancellations;
        return false;
      }
    }
    return true;
  }

  /** The loops of the source, over the maps of a merged graph. */
  method Evaluate(cfg: Config, mode: Mode, k: Case, rows: seq<Row>, at: nat) returns (failure: Option<Failure>)
    requires FaithfulBytes(cfg)
    ensures failure == Verdict(cfg, mode, k, rows, at)
  {
    var all;
    failure, all := Gather(mode, k, rows);
    if failure != None {
      return;
    }
    var graph := Refresh.Refresh(cfg, all, at);
    if graph.None? {
      return Some(Unverified);
    }
    var present := CheckCancellations(mode, k, rows);
    if !present {
      return Some(MissingCancellation);
    }
    failure := CheckDestinations(cfg, k, all, graph.value);
    if failure == None {
      failure := CheckGrants(cfg, mode, k, rows, all, graph.value);
    }
  }

  method CheckDestinations(cfg: Config, k: Case, all: seq<Row>, graph: Graph) returns (failure: Option<Failure>)
    requires FaithfulBytes(cfg) && Installed(cfg, Elements(all), graph.at, graph)
    ensures failure == ScanDestinations(cfg, Elements(all), k.saved.agent, k.registry, graph.at)
  {
    var agent := k.saved.agent;
    for i := 0 to |k.registry|
      invariant ScanDestinations(cfg, Elements(all), agent, k.registry, graph.at) ==
                ScanDestinations(cfg, Elements(all), agent, k.registry[i..], graph.at)
    {
      var destination := k.registry[i];
      OwnerAgrees(cfg, Elements(all), graph.at, graph, destination);
      DirectAgrees(cfg, Elements(all), graph.at, graph, true, destination, agent);
      DirectAgrees(cfg, Elements(all), graph.at, graph, false, destination, agent);
      GroupAgrees(cfg, Elements(all), graph.at, graph, destination, agent);
      assert k.registry[i..][1..] == k.registry[i + 1..];
      if !graph.HasOwner(destination) {
        return Some(MissingDestination);
      }
      if graph.Direct(true, destination, agent) || graph.Direct(false, destination, agent) ||
         graph.ForumSee(destination, agent) {
        return Some(AccessRemains);
      }
    }
    return None;
  }

  method CheckGrants(cfg: Config, mode: Mode, k: Case, rows: seq<Row>, all: seq<Row>, graph: Graph)
    returns (failure: Option<Failure>)
    requires FaithfulBytes(cfg) && Installed(cfg, Elements(all), graph.at, graph)
    ensures failure == ScanGrants(cfg, mode, k, Elements(rows), Elements(all), k.grants, graph.at)
  {
    for i := 0 to |k.grants|
      invariant ScanGrants(cfg, mode, k, Elements(rows), Elements(all), k.grants, graph.at) ==
                ScanGrants(cfg, mode, k, Elements(rows), Elements(all), k.grants[i..], graph.at)
    {
      var grant := k.grants[i];
      assert k.grants[i..][1..] == k.grants[i + 1..];
      if !GrantPresent(mode, k, Elements(rows), grant) {
        return Some(MissingGrant);
      }
      DirectAgrees(cfg, Elements(all), graph.at, graph, grant.post, grant.target, grant.accessor);
      if !(grant.from <= graph.at < grant.until) || !graph.Direct(grant.post, grant.target, grant.accessor) {
        return Some(AccessMissing);
      }
    }
    return None;
  }

  // ------------------------------------------------------------ what success means

  predicate Lost(cfg: Config, rows: set<Row>, agent: Key, registry: seq<ObjectId>, at: nat) {
    forall d | d in registry :: Owned(rows, d) && !AnyAccess(cfg, rows, d, agent, at)
  }

  lemma {:induction false} ScanDestinationsMeans(cfg: Config, rows: set<Row>, agent: Key, registry: seq<ObjectId>,
                                                 at: nat)
    ensures ScanDestinations(cfg, rows, agent, registry, at) == None <==> Lost(cfg, rows, agent, registry, at)
  {
    if registry != [] {
      ScanDestinationsMeans(cfg, rows, agent, registry[1..], at);
      assert registry == [registry[0]] + registry[1..];
    }
  }

  predicate GrantsHold(cfg: Config, mode: Mode, k: Case, evidence: set<Row>, rows: set<Row>, grants: seq<Row>,
                       at: nat) {
    forall g | g in grants :: GrantPresent(mode, k, evidence, g) && GrantEffective(cfg, rows, g, at)
  }

  lemma {:induction false} ScanGrantsMeans(cfg: Config, mode: Mode, k: Case, evidence: set<Row>, rows: set<Row>,
                                           grants: seq<Row>, at: nat)
    ensures ScanGrants(cfg, mode, k, evidence, rows, grants, at) == None <==>
            GrantsHold(cfg, mode, k, evidence, rows, grants, at)
  {
    if grants != [] {
      ScanGrantsMeans(cfg, mode, k, evidence, rows, grants[1..], at);
      assert grants == [grants[0]] + grants[1..];
    }
  }

  /** The conditions for success that depend on the set of rows only. */
  predicate Sound(cfg: Config, mode: Mode, k: Case, rows: seq<Row>, at: nat) {
    var evidence := Elements(rows);
    var all := Elements(Prospective(mode, k, rows));
    && (mode == CancellationPreflight ==>
          forall c | c in k.saved.cancellations :: InScope(c, k.saved.agent, k.registry, Groups(evidence, k.registry)))
    && (mode == ReplacementPreflight ==> forall g | g in k.grants :: Candidate(g, k.to, k.registry))
    && Admits(cfg, all, at)
    && CancellationsPresent(mode, k, evidence)
    && Lost(cfg, all, k.saved.agent, k.registry, at)
    && GrantsHold(cfg, mode, k, evidence, all, k.grants, at)
  }

  /** Success: sound evidence in a list that the refresh accepts. */
  predicate Succeeds(cfg: Config, mode: Mode, k: Case, rows: seq<Row>, at: nat) {
    Sound(cfg, mode, k, rows, at) && |Prospective(mode, k, rows)| <= MAX_ROWS
  }

  lemma VerdictMeans(cfg: Config, mode: Mode, k: Case, rows: seq<Row>, at: nat)
    ensures Verdict(cfg, mode, k, rows, at) == None <==> Succeeds(cfg, mode, k, rows, at)
  {
    var all := Elements(Prospective(mode, k, rows));
    ScanDestinationsMeans(cfg, all, k.saved.agent, k.registry, at);
    ScanGrantsMeans(cfg, mode, k, Elements(rows), all, k.grants, at);
  }

  lemma SoundVerdict(cfg: Config, mode: Mode, k: Case, rows: seq<Row>, at: nat)
    requires Sound(cfg, mode, k, rows, at)
    ensures Verdict(cfg, mode, k, rows, at) == None <==> |Prospective(mode, k, rows)| <= MAX_ROWS
  {
    VerdictMeans(cfg, mode, k, rows, at);
  }

  lemma AbsentCancellationFails(cfg: Config, k: Case, rows: seq<Row>, at: nat, c: Row)
    requires c in k.saved.cancellations && c !in rows
    ensures Verdict(cfg, Reconciling, k, rows, at) != None
  {
    VerdictMeans(cfg, Reconciling, k, rows, at);
    hide Verdict;
  }

  lemma AbsentGrantFails(cfg: Config, k: Case, rows: seq<Row>, at: nat, g: Row)
    requires g in k.grants && g !in rows
    ensures Verdict(cfg, Reconciling, k, rows, at) != None
  {
    VerdictMeans(cfg, Reconciling, k, rows, at);
    hide Verdict;
    assert !GrantPresent(Reconciling, k, Elements(rows), g);
  }

  /** What a sound preflight says of each row it would publish. */
  lemma SoundCandidates(cfg: Config, mode: Mode, k: Case, rows: seq<Row>, at: nat)
    requires Sound(cfg, mode, k, rows, at)
    ensures mode == CancellationPreflight ==> forall c | c in k.saved.cancellations ::
              WellFormed(c) && InScope(c, k.saved.agent, k.registry, Groups(Elements(rows), k.registry))
    ensures mode == ReplacementPreflight ==> forall g | g in k.grants :: WellFormed(g) && Candidate(g, k.to, k.registry)
  {
    hide WellFormed, InScope, Candidate, Groups;
    assert forall r | r in Prospective(mode, k, rows) :: r in Elements(Prospective(mode, k, rows));
  }

  // ------------------------------------------------------------ publication leaves the verdict alone

  /** `later` is `rows` after publishing some of `plan`, in any order. */
  predicate Published(rows: seq<Row>, plan: seq<Row>, later: seq<Row>) {
    Elements(rows) <= Elements(later) <= Elements(rows) + Elements(plan)
  }

  lemma ElementsConcat<T>(a: seq<T>, b: seq<T>)
    ensures Elements(a + b) == Elements(a) + Elements(b)
  {
  }

  lemma CancellationsAddNoGroups(rows: seq<Row>, k: Case, later: seq<Row>)
    requires forall c | c in k.saved.cancellations :: IsCancellation(c)
    requires Published(rows, k.saved.cancellations, later)
    ensures Groups(Elements(later), k.registry) == Groups(Elements(rows), k.registry)
  {
    forall row | row in Elements(later) && row.ObjectSet? && row.stated ensures row in Elements(rows) {
      assert !IsCancellation(row);
    }
  }

  /** Soundness looks at the set of rows only, not at order or repetition. */
  lemma SoundBySet(cfg: Config, mode: Mode, k: Case, rows: seq<Row>, later: seq<Row>, at: nat)
    requires Elements(rows) == Elements(later)
    ensures Sound(cfg, mode, k, rows, at) == Sound(cfg, mode, k, later, at)
  {
    ElementsConcat(rows, k.grants);
    ElementsConcat(later, k.grants);
    ElementsConcat(rows, k.saved.cancellations);
    ElementsConcat(later, k.saved.cancellations);
    assert Elements(Prospective(mode, k, rows)) == Elements(Prospective(mode, k, later));
  }

  /** Publishing saved cancellations never changes a sound cancellation preflight. */
  lemma CancellationPreflightStable(cfg: Config, k: Case, rows: seq<Row>, later: seq<Row>, at: nat)
    requires k.grants == [] && Sound(cfg, CancellationPreflight, k, rows, at)
    requires Published(rows, k.saved.cancellations, later)
    ensures Sound(cfg, CancellationPreflight, k, later, at)
  {
    CancellationsAddNoGroups(rows, k, later);
    ElementsConcat(rows, k.saved.cancellations);
    ElementsConcat(later, k.saved.cancellations);
    assert Elements(rows + k.saved.cancellations) == Elements(later + k.saved.cancellations);
  }

  /** Once every saved cancellation is durable, the preflight's success is the real one. */
  lemma CancellationsReconcile(cfg: Config, k: Case, rows: seq<Row>, later: seq<Row>, at: nat)
    requires k.grants == [] && Sound(cfg, CancellationPreflight, k, rows, at)
    requires Published(rows, k.saved.cancellations, later) && Elements(k.saved.cancellations) <= Elements(later)
    ensures Sound(cfg, Reconciling, k, later, at)
  {
    ElementsConcat(rows, k.saved.cancellations);
    assert Elements(rows + k.saved.cancellations) == Elements(later);
    forall c | c in k.saved.cancellations ensures c in Elements(later) {
      assert c in Elements(k.saved.cancellations);
    }
  }

  /** Likewise for the grants of the plan. */
  lemma ReplacementPreflightStable(cfg: Config, k: Case, rows: seq<Row>, later: seq<Row>, at: nat)
    requires Sound(cfg, ReplacementPreflight, k, rows, at) && Published(rows, k.grants, later)
    ensures Sound(cfg, ReplacementPreflight, k, later, at)
  {
    ElementsConcat(rows, k.grants);
    ElementsConcat(later, k.grants);
    assert Elements(rows + k.grants) == Elements(later + k.grants);
  }

  lemma GrantsReconcile(cfg: Config, k: Case, rows: seq<Row>, later: seq<Row>, at: nat)
    requires Sound(cfg, ReplacementPreflight, k, rows, at) && Published(rows, k.grants, later)
    requires Elements(k.grants) <= Elements(later)
    ensures Sound(cfg, Reconciling, k, later, at)
  {
    ElementsConcat(rows, k.grants);
    assert Elements(rows + k.grants) == Elements(later);
    forall g | g in k.grants ensures g in Elements(later) {
      assert g in Elements(k.grants);
    }
  }

  /** The same operation, asked about the old assignee only. */
  function CancellationsOnly(k: Case): Case {
    k.(to := None, grants := [])
  }

  /** However much of the replacement plan is published, the old assignee stays shut out:
      prospective or durable grants to the replacement cannot restore old access. */
  lemma CancellationsStayReconciled(cfg: Config, k: Case, rows: seq<Row>, later: seq<Row>, at: nat)
    requires Sound(cfg, ReplacementPreflight, k, rows, at) && Published(rows, k.grants, later)
    requires k.to.Some? && k.to.value != k.saved.agent
    ensures Sound(cfg, Reconciling, CancellationsOnly(k), later, at)
  {
    var agent, to := k.saved.agent, k.to.value;
    var grants := Elements(k.grants);
    ElementsConcat(rows, k.grants);
    assert GrantsTo(grants, to);
    assert Elements(later) + grants == Elements(rows + k.grants);
    AdmitsFewerGrants(cfg, Elements(later), grants, to, at);
    forall d | d in k.registry
      ensures Owned(Elements(later), d) && !AnyAccess(cfg, Elements(later), d, agent, at)
    {
      OwnedElsewhere(Elements(later), grants, to, d);
      GrantsAreIndependent(cfg, Elements(later), grants, to, d, agent, at);
    }
  }
}
