/** The plans of the runtime (lib/delegation-runtime.ts:66-111 and 137-143): withdraw what the
    old assignee has, then grant the replacement. What is proved is that a plan does what it
    is for: over the rows it was planned on, both preflights can only fail on admission. */
module Planner {
  import opened Identity
  import opened Authority
  import Refresh
  import opened Documents
  import opened Protocol
  import opened Deployment

  const GRANT_SECONDS := 86400

  /** The signer, and the digest that names a membership cancellation. */
  datatype Signer = Signer(sign: Row -> Proof, cancelId: (OperationId, Soul) -> CancelId)

  /** A direct row that outranks every row of its address in `rows`. */
  predicate NextDirect(row: Row, rows: seq<Row>, post: bool, target: ObjectId, accessor: Key, stated: bool) {
    && row.Direct? && row.post == post && row.target == target && row.accessor == accessor && row.stated == stated
    && row.until == row.from + GRANT_SECONDS && row.issuedAt == row.from
    && forall r | r in rows && r.Direct? && SlotOf(r) == SlotOf(row) :: r.hamState < row.hamState
  }

  /** Post and see for each destination, in order. */
  predicate DirectPlan(plan: seq<Row>, rows: seq<Row>, destinations: seq<ObjectId>, accessor: Key, stated: bool) {
    && |plan| == 2 * |destinations|
    && (forall k | 0 <= k < |destinations| :: NextDirect(plan[2 * k], rows, true, destinations[k], accessor, stated))
    && (forall k | 0 <= k < |destinations| ::
        NextDirect(plan[2 * k + 1], rows, false, destinations[k], accessor, stated))
  }

  /** The highest HAM state among direct rows of a slot, zero without any. */
  function Highest(rows: seq<Row>, slot: Slot): (high: nat)
    ensures forall r | r in rows && r.Direct? && SlotOf(r) == slot :: r.hamState <= high
    ensures high == 0 || exists r :: r in rows && r.Direct? && SlotOf(r) == slot && r.hamState == high
  {
    if rows == [] then 0
    else
      var front, last := rows[..|rows| - 1], rows[|rows| - 1];
      assert rows == front + [last];
      if last.Direct? && SlotOf(last) == slot && last.hamState > Highest(front, slot) then last.hamState
      else Highest(front, slot)
  }

  /** The row that is signed next for a slot, at second `at`. */
  function DirectRow(signer: Signer, rows: seq<Row>, post: bool, target: ObjectId, accessor: Key, stated: bool,
                     at: nat): (row: Row)
    ensures NextDirect(row, rows, post, target, accessor, stated)
  {
    var high := Highest(rows, GrantSlot(post, target, accessor));
    var content := Direct(post, target, accessor, stated, at, at + GRANT_SECONDS, high + 1, at, NO_PROOF);
    WithProof(content, signer.sign(content))
  }

  /** Post and see for each destination, all signed at second `at`. */
  function DirectRows(signer: Signer, rows: seq<Row>, destinations: seq<ObjectId>, accessor: Key, stated: bool,
                      at: nat): (plan: seq<Row>)
    ensures DirectPlan(plan, rows, destinations, accessor, stated)
  {
    if destinations == [] then []
    else
      var front, d := destinations[..|destinations| - 1], destinations[|destinations| - 1];
      var plan := DirectRows(signer, rows, front, accessor, stated, at);
      var post := DirectRow(signer, rows, true, d, accessor, stated, at);
      var see := DirectRow(signer, rows, false, d, accessor, stated, at);
      PlanExtends(plan, rows, destinations, |front|, accessor, stated, post, see);
      assert destinations[..|front| + 1] == destinations;
      plan + [post, see]
  }

  /** Every next state for this accessor is still a safe integer. */
  predicate StatesLeft(rows: seq<Row>, accessor: Key) {
    forall r | r in rows && r.Direct? && r.accessor == accessor :: r.hamState < MAX_SAFE_INTEGER
  }

  lemma HighestBelow(rows: seq<Row>, slot: Slot)
    requires slot.GrantSlot? && StatesLeft(rows, slot.accessor)
    ensures Highest(rows, slot) < MAX_SAFE_INTEGER
  {
    if rows != [] {
      var front, last := rows[..|rows| - 1], rows[|rows| - 1];
      assert rows == front + [last];
      HighestBelow(front, slot);
    }
  }

  /** Rows about other accessors. */
  predicate Elsewhere(more: seq<Row>, accessor: Key) {
    forall r | r in more && r.Direct? :: r.accessor != accessor
  }

  lemma {:induction false} HighestElsewhere(rows: seq<Row>, more: seq<Row>, slot: Slot)
    requires slot.GrantSlot? && Elsewhere(more, slot.accessor)
    ensures Highest(rows + more, slot) == Highest(rows, slot)
  {
    if more == [] {
      assert rows + more == rows;
    } else {
      assert (rows + more)[..|rows + more| - 1] == rows + more[..|more| - 1];
      HighestElsewhere(rows, more[..|more| - 1], slot);
    }
  }

  lemma StatesElsewhere(rows: seq<Row>, more: seq<Row>, accessor: Key)
    requires Elsewhere(more, accessor)
    ensures StatesLeft(rows + more, accessor) == StatesLeft(rows, accessor)
  {
    if StatesLeft(rows + more, accessor) {
      forall r | r in rows && r.Direct? && r.accessor == accessor ensures r.hamState < MAX_SAFE_INTEGER {
        assert r in rows + more;
      }
    }
  }

  lemma DirectRowElsewhere(signer: Signer, rows: seq<Row>, more: seq<Row>, post: bool, d: ObjectId, accessor: Key,
                           stated: bool, at: nat)
    requires Elsewhere(more, accessor)
    ensures DirectRow(signer, rows + more, post, d, accessor, stated, at) == DirectRow(signer, rows, post, d, accessor,
            stated, at)
  {
    HighestElsewhere(rows, more, GrantSlot(post, d, accessor));
    hide Highest, Elsewhere;
  }

  /** What is planned for one accessor does not depend on rows about others. */
  lemma {:induction false} DirectRowsElsewhere(signer: Signer, rows: seq<Row>, more: seq<Row>,
                                               destinations: seq<ObjectId>, accessor: Key, stated: bool, at: nat)
    requires Elsewhere(more, accessor)
    ensures DirectRows(signer, rows + more, destinations, accessor, stated, at) ==
            DirectRows(signer, rows, destinations, accessor, stated, at)
  {
    hide DirectPlan, NextDirect, DirectRow, Elsewhere;
    if destinations != [] {
      var d := destinations[|destinations| - 1];
      DirectRowsElsewhere(signer, rows, more, destinations[..|destinations| - 1], accessor, stated, at);
      DirectRowElsewhere(signer, rows, more, true, d, accessor, stated, at);
      DirectRowElsewhere(signer, rows, more, false, d, accessor, stated, at);
    }
  }

  method HighestState(rows: seq<Row>, slot: Slot) returns (high: nat)
    ensures high == Highest(rows, slot)
  {
    high := 0;
    for i := 0 to |rows|
      invariant high == Highest(rows[..i], slot)
    {
      assert rows[..i + 1][..i] == rows[..i];
      if rows[i].Direct? && SlotOf(rows[i]) == slot && rows[i].hamState > high {
        high := rows[i].hamState;
      }
    }
    assert rows[..|rows|] == rows;
  }

  method PlanOne(w: World, signer: Signer, rows: seq<Row>, post: bool, target: ObjectId, accessor: Key, stated: bool)
    returns (row: Option<Row>)
    requires w.Valid()
    modifies w
    ensures w.Valid() && Follows(old(w.Trail()), w.Trail()) && (old(w.Calm()) ==> w.Still())
    ensures row.Some? ==> NextDirect(row.value, rows, post, target, accessor, stated)
    ensures old(w.Calm()) && StatesLeft(rows, accessor) ==>
            row == Some(DirectRow(signer, rows, post, target, accessor, stated, w.clock))
  {
    hide LegalRun, Orderly, FaithfulBytes, Highest;
    var at := w.clock;
    var alive := w.Await();
    if !alive {
      return None;
    }
    var high := HighestState(rows, GrantSlot(post, target, accessor));
    if StatesLeft(rows, accessor) {
      HighestBelow(rows, GrantSlot(post, target, accessor));
    }
    if high + 1 > MAX_SAFE_INTEGER {
      return None;
    }
    var content := Direct(post, target, accessor, stated, at, at + GRANT_SECONDS, high + 1, at, NO_PROOF);
    return Some(WithProof(content, signer.sign(content)));
  }

  lemma PlanExtends(plan: seq<Row>, rows: seq<Row>, destinations: seq<ObjectId>, i: nat, accessor: Key, stated: bool,
                    post: Row, see: Row)
    requires i < |destinations| && DirectPlan(plan, rows, destinations[..i], accessor, stated)
    requires NextDirect(post, rows, true, destinations[i], accessor, stated) &&
             NextDirect(see, rows, false, destinations[i], accessor, stated)
    ensures DirectPlan(plan + [post, see], rows, destinations[..i + 1], accessor, stated)
    ensures destinations[..i + 1][..i] == destinations[..i]
  {
    hide NextDirect;
  }

  method PlanDirect(w: World, signer: Signer, rows: seq<Row>, destinations: seq<ObjectId>, accessor: Key, stated: bool)
    returns (plan: Option<seq<Row>>)
    requires w.Valid()
    modifies w
    ensures w.Valid() && Follows(old(w.Trail()), w.Trail()) && (old(w.Calm()) ==> w.Still())
    ensures plan.Some? ==> DirectPlan(plan.value, rows, destinations, accessor, stated)
    ensures old(w.Calm()) && StatesLeft(rows, accessor) ==>
              plan == Some(DirectRows(signer, rows, destinations, accessor, stated, w.clock))
  {
    hide LegalRun, NextDirect, StatesLeft, DirectRow, DirectPlan, Orderly, FaithfulBytes;
    var planned: seq<Row> := [];
    assert DirectPlan(planned, rows, destinations[..0], accessor, stated) by {
      assert DirectRows(signer, rows, [], accessor, stated, w.clock) == planned;
    }
    for i := 0 to |destinations|
      invariant w.Valid() && Follows(old(w.Trail()), w.Trail()) && (old(w.Calm()) ==> w.Still())
      invariant DirectPlan(planned, rows, destinations[..i], accessor, stated)
      invariant old(w.Calm()) && StatesLeft(rows, accessor) ==>
                  planned == DirectRows(signer, rows, destinations[..i], accessor, stated, w.clock)
    {
      var post := PlanOne(w, signer, rows, true, destinations[i], accessor, stated);
      if post.None? {
        return None;
      }
      var see := PlanOne(w, signer, rows, false, destinations[i], accessor, stated);
      if see.None? {
        return None;
      }
      PlanExtends(planned, rows, destinations, i, accessor, stated, post.value, see.value);
      planned := planned + [post.value, see.value];
    }
    assert destinations[..|destinations|] == destinations;
    return Some(planned);
  }

  // ------------------------------------------------------------ group memberships

  /** The membership through which `agent` reads `destination`, by its live edge. */
  predicate ThroughSoul(cfg: Config, rows: set<Row>, destination: ObjectId, agent: Key, soul: Soul) {
    exists edge :: edge in rows && edge.ObjectSet? && EdgeLive(cfg, rows, edge, destination) &&
                   soul == MemberSoul(edge.circle, edge.group, agent)
  }

  /** The membership through which `agent` does read `destination`. */
  predicate Through(cfg: Config, rows: set<Row>, destination: ObjectId, agent: Key, soul: Soul) {
    CanByGroup(cfg, rows, destination, agent) && ThroughSoul(cfg, rows, destination, agent, soul)
  }

  /** Souls that cover every group reading of every destination, and nothing else. */
  ghost predicate Covers(cfg: Config, rows: set<Row>, destinations: seq<ObjectId>, agent: Key, souls: seq<Soul>) {
    && NoDuplicates(souls) && |souls| <= |destinations|
    && (forall soul | soul in souls :: exists d :: d in destinations && Through(cfg, rows, d, agent, soul))
    && (forall d | d in destinations && CanByGroup(cfg, rows, d, agent) ::
          forall soul | ThroughSoul(cfg, rows, d, agent, soul) :: soul in souls)
  }

  lemma OneSoul(cfg: Config, rows: set<Row>, at: nat, graph: Graph, d: ObjectId, agent: Key, soul: Soul)
    requires FaithfulBytes(cfg) && Installed(cfg, rows, at, graph) && ThroughSoul(cfg, rows, d, agent, soul)
    ensures EdgeSlot(d) in graph.held && graph.held[EdgeSlot(d)].ObjectSet?
    ensures soul == MemberSoul(graph.held[EdgeSlot(d)].circle, graph.held[EdgeSlot(d)].group, agent)
  {
    var edge :| edge in rows && edge.ObjectSet? && EdgeLive(cfg, rows, edge, d) &&
        soul == MemberSoul(edge.circle, edge.group, agent);
    assert SlotOf(edge) == EdgeSlot(d);
    HoldsUnique(cfg, rows, edge, graph.held[EdgeSlot(d)]);
  }

  /** The soul that a refreshed graph reports for a destination is the only one. */
  lemma HeldSoul(cfg: Config, rows: set<Row>, at: nat, graph: Graph, d: ObjectId, agent: Key)
    requires FaithfulBytes(cfg) && Installed(cfg, rows, at, graph)
    ensures graph.Grouped(d, agent) == CanByGroup(cfg, rows, d, agent)
    ensures graph.Grouped(d, agent) ==>
              var edge := graph.held[EdgeSlot(d)];
              forall soul :: ThroughSoul(cfg, rows, d, agent, soul) <==>
                     soul == MemberSoul(edge.circle, edge.group, agent)
  {
    GroupAgrees(cfg, rows, at, graph, d, agent);
    if graph.Grouped(d, agent) {
      var edge := graph.held[EdgeSlot(d)];
      assert Holds(cfg, rows, edge);
      assert EdgeLive(cfg, rows, edge, d);
      forall soul | ThroughSoul(cfg, rows, d, agent, soul) ensures soul == MemberSoul(edge.circle, edge.group, agent) {
        OneSoul(cfg, rows, at, graph, d, agent, soul);
      }
    }
  }

  lemma CoversMore(cfg: Config, rows: set<Row>, front: seq<ObjectId>, d: ObjectId, agent: Key, souls: seq<Soul>,
                   soul: Soul)
    requires Covers(cfg, rows, front, agent, souls) && CanByGroup(cfg, rows, d, agent)
    requires forall other :: ThroughSoul(cfg, rows, d, agent, other) <==> other == soul
    ensures Covers(cfg, rows, front + [d], agent, if soul in souls then souls else souls + [soul])
  {
    hide ThroughSoul, CanByGroup;
    var next := if soul in souls then souls else souls + [soul];
    forall s | s in next ensures exists e :: e in front + [d] && Through(cfg, rows, e, agent, s) {
      if s in souls {
        var e :| e in front && Through(cfg, rows, e, agent, s);
        assert e in front + [d];
      } else {
        assert d in front + [d];
      }
    }
  }

  lemma CoversSame(cfg: Config, rows: set<Row>, front: seq<ObjectId>, d: ObjectId, agent: Key, souls: seq<Soul>)
    requires Covers(cfg, rows, front, agent, souls) && !CanByGroup(cfg, rows, d, agent)
    ensures Covers(cfg, rows, front + [d], agent, souls)
  {
    hide ThroughSoul, CanByGroup;
    forall s | s in souls ensures exists e :: e in front + [d] && Through(cfg, rows, e, agent, s) {
      var e :| e in front && Through(cfg, rows, e, agent, s);
      assert e in front + [d];
    }
  }

  method GroupsOf(cfg: Config, ghost rows: seq<Row>, graph: Graph, destinations: seq<ObjectId>, agent: Key,
                  ghost at: nat)
    returns (souls: seq<Soul>)
    requires FaithfulBytes(cfg) && Installed(cfg, Elements(rows), at, graph)
    ensures Covers(cfg, Elements(rows), destinations, agent, souls)
    ensures forall soul | soul in souls :: soul.MemberSoul? && soul.member == agent
  {
    var held := graph.held;
    ghost var all := Elements(rows);
    souls := [];
    hide CanByGroup, ThroughSoul, Elements;
    for i := 0 to |destinations|
      invariant Covers(cfg, all, destinations[..i], agent, souls)
      invariant forall soul | soul in souls :: soul.MemberSoul? && soul.member == agent
    {
      var d := destinations[i];
      assert destinations[..i + 1] == destinations[..i] + [d];
      HeldSoul(cfg, all, at, graph, d, agent);
      hide Covers, Installed;
      if graph.Grouped(d, agent) {
        var soul := MemberSoul(held[EdgeSlot(d)].circle, held[EdgeSlot(d)].group, agent);
        CoversMore(cfg, all, destinations[..i], d, agent, souls, soul);
        if soul !in souls {
          souls := souls + [soul];
        }
      } else {
        CoversSame(cfg, all, destinations[..i], d, agent, souls);
      }
    }
    assert destinations[..|destinations|] == destinations;
  }

  /** One cancellation per membership, naming all earlier ones as its predecessors. */
  predicate CancelsMembership(row: Row, rows: seq<Row>, owner: Key, soul: Soul, cancelId: CancelId) {
    row.GroupCancel? && row.of == soul && row.signer == owner && row.cancelId == cancelId &&
    row.prior == CancelsAt(Elements(rows), soul)
  }

  /** The cancellation of one membership, signed at second `at`. */
  function GroupRow(signer: Signer, rows: seq<Row>, soul: Soul, owner: Key, id: OperationId, at: nat): (row: Row)
    ensures CancelsMembership(row, rows, owner, soul, signer.cancelId(id, soul))
  {
    var content := GroupCancel(soul, owner, signer.cancelId(id, soul), CancelsAt(Elements(rows), soul), at, NO_PROOF);
    WithProof(content, signer.sign(content))
  }

  function GroupRows(signer: Signer, rows: seq<Row>, souls: seq<Soul>, owner: Key, id: OperationId,
                     at: nat): (plan: seq<Row>)
    ensures |plan| == |souls|
    ensures forall k | 0 <= k < |souls| :: plan[k] == GroupRow(signer, rows, souls[k], owner, id, at)
  {
    seq(|souls|, k requires 0 <= k < |souls| => GroupRow(signer, rows, souls[k], owner, id, at))
  }

  /** The owner can sign for every set through which `agent` reads a destination. */
  predicate OwnsGroups(cfg: Config, rows: set<Row>, destinations: seq<ObjectId>, agent: Key, owner: Key) {
    forall d, edge | d in destinations && edge in rows && edge.ObjectSet? && EdgeLive(cfg, rows, edge, d) &&
                     CanByGroup(cfg, rows, d, agent) :: PrincipalOf(edge.group) == owner
  }

  lemma CoveredIsOwned(cfg: Config, rows: set<Row>, destinations: seq<ObjectId>, agent: Key, owner: Key,
                       souls: seq<Soul>)
    requires Covers(cfg, rows, destinations, agent, souls) && OwnsGroups(cfg, rows, destinations, agent, owner)
    ensures forall soul | soul in souls :: soul.MemberSoul? && PrincipalOf(soul.group) == owner
  {
    forall soul | soul in souls ensures soul.MemberSoul? && PrincipalOf(soul.group) == owner {
      var d :| d in destinations && Through(cfg, rows, d, agent, soul);
      var edge :| edge in rows && edge.ObjectSet? && EdgeLive(cfg, rows, edge, d) &&
                  soul == MemberSoul(edge.circle, edge.group, agent);
    }
  }

  method PlanGroups(w: World, signer: Signer, rows: seq<Row>, destinations: seq<ObjectId>, agent: Key, owner: Key,
                    id: OperationId)
    returns (plan: Option<seq<Row>>, ghost souls: seq<Soul>)
    requires w.Valid()
    modifies w
    ensures w.Valid() && Follows(old(w.Trail()), w.Trail()) && (old(w.Calm()) ==> w.Still())
    ensures plan.Some? ==>
              && Covers(w.cfg, Elements(rows), destinations, agent, souls) && |plan.value| == |souls|
              && forall k | 0 <= k < |souls| ::
                   && souls[k].MemberSoul? && souls[k].member == agent && PrincipalOf(souls[k].group) == owner
                   && CancelsMembership(plan.value[k], rows, owner, souls[k], signer.cancelId(id, souls[k]))
    ensures old(w.Calm()) && |rows| <= MAX_ROWS && Admits(w.cfg, Elements(rows), w.clock) &&
            OwnsGroups(w.cfg, Elements(rows), destinations, agent, owner) ==>
              plan == Some(GroupRows(signer, rows, souls, owner, id, w.clock))
  {
    hide LegalRun, CanByGroup, ThroughSoul, FaithfulBytes, CancelsAt, Admits, OwnsGroups, GroupRow;
    var found: Option<seq<Soul>> := None;
    for attempt := 0 to 3
      invariant w.Valid() && Follows(old(w.Trail()), w.Trail()) && (old(w.Calm()) ==> w.Still() && attempt == 0)
      invariant found == None
    {
      var at := w.clock;
      var alive := w.Await();
      if !alive {
        return None, [];
      }
      if w.clock == at {
        var graph := Refresh.Refresh(w.cfg, rows, at);
        if graph.None? {
          return None, [];
        }
        var covering := GroupsOf(w.cfg, rows, graph.value, destinations, agent, at);
        found := Some(covering);
        break;
      }
    }
    if found.None? {
      return None, [];
    }
    souls := found.value;
    if OwnsGroups(w.cfg, Elements(rows), destinations, agent, owner) {
      CoveredIsOwned(w.cfg, Elements(rows), destinations, agent, owner, souls);
    }
    hide Covers;
    var planned := CancelGroups(w, signer, rows, found.value, owner, id);
    return planned, souls;
  }

  method CancelGroups(w: World, signer: Signer, rows: seq<Row>, souls: seq<Soul>, owner: Key, id: OperationId)
    returns (plan: Option<seq<Row>>)
    requires w.Valid() && forall soul | soul in souls :: soul.MemberSoul?
    modifies w
    ensures w.Valid() && Follows(old(w.Trail()), w.Trail()) && (old(w.Calm()) ==> w.Still())
    ensures plan.Some? ==> |plan.value| == |souls| && forall k | 0 <= k < |souls| ::
              PrincipalOf(souls[k].group) == owner &&
              CancelsMembership(plan.value[k], rows, owner, souls[k], signer.cancelId(id, souls[k]))
    ensures old(w.Calm()) && (forall soul | soul in souls :: PrincipalOf(soul.group) == owner) ==>
              plan == Some(GroupRows(signer, rows, souls, owner, id, w.clock))
  {
    hide LegalRun, CancelsAt;
    var planned: seq<Row> := [];
    for i := 0 to |souls|
      invariant w.Valid() && Follows(old(w.Trail()), w.Trail()) && (old(w.Calm()) ==> w.Still())
      invariant |planned| == i && forall k | 0 <= k < i ::
                  PrincipalOf(souls[k].group) == owner &&
                  CancelsMembership(planned[k], rows, owner, souls[k], signer.cancelId(id, souls[k]))
      invariant old(w.Calm()) ==> forall k | 0 <= k < i ::
                planned[k] == GroupRow(signer, rows, souls[k], owner, id, w.clock)
    {
      var soul := souls[i];
      if PrincipalOf(soul.group) != owner {
        return None;
      }
      var content := GroupCancel(soul, owner, signer.cancelId(id, soul), CancelsAt(Elements(rows), soul), w.clock,
                                 NO_PROOF);
      var alive := w.Await();
      if !alive {
        return None;
      }
      planned := planned + [WithProof(content, signer.sign(content))];
    }
    if old(w.Calm()) {
      assert planned == GroupRows(signer, rows, souls, owner, id, w.clock);
    }
    return Some(planned);
  }
}
