/** Why a plan works: added to the rows it was planned on, the cancellations end every access
    of the old assignee and the grants take effect for the replacement. */
module PlannerSound {
  import opened Identity
  import opened Authority
  import opened Documents
  import opened Journal
  import opened Reconcile
  import opened Protocol
  import opened Resumption
  import opened Planner

  // ------------------------------------------------------------ cancellations

  lemma WithdrawnShutsOut(cfg: Config, rows: set<Row>, plan: set<Row>, w: Row, post: bool, target: ObjectId,
                          accessor: Key, now: nat)
    requires w in plan && w.Direct? && !w.stated && SlotOf(w) == GrantSlot(post, target, accessor)
    requires forall r | r in rows && r.Direct? && SlotOf(r) == SlotOf(w) :: r.hamState < w.hamState
    requires forall r | r in plan && r.Direct? :: !r.stated
    requires accessor != PrincipalOf(target)
    ensures !CanDirect(cfg, rows + plan, post, target, accessor, now)
  {
    forall r | r in rows + plan && r.Direct? && SlotOf(r) == SlotOf(w) && r.stated
      ensures !Holds(cfg, rows + plan, r)
    {
      assert Beats(cfg, w, r);
      assert w in rows + plan;
    }
  }

  /** No assent at the cancelled relation was signed with this cancellation in view. */
  predicate Fresh(rows: set<Row>, c: Row)
    requires c.GroupCancel?
  {
    forall m | m in rows && m.Membership? && SoulOf(m) == c.of :: c.cancelId !in m.cancels
  }

  lemma HoldsFewer(cfg: Config, rows: set<Row>, plan: set<Row>, row: Row)
    requires row in rows && Holds(cfg, rows + plan, row)
    ensures Holds(cfg, rows, row)
  {
  }

  lemma CancelsGrow(rows: set<Row>, plan: set<Row>, soul: Soul)
    ensures CancelsAt(rows, soul) <= CancelsAt(rows + plan, soul)
  {
  }

  /** Cancellations and direct rows never make a group relation live. */
  lemma GroupFewer(cfg: Config, rows: set<Row>, plan: set<Row>, edge: Row, target: ObjectId, agent: Key)
    requires forall r | r in plan :: r.Direct? || r.GroupCancel?
    requires edge.ObjectSet? && EdgeLive(cfg, rows + plan, edge, target)
    requires Assented(cfg, rows + plan, true, edge, agent) && Assented(cfg, rows + plan, false, edge, agent)
    requires Owned(rows, target)
    ensures EdgeLive(cfg, rows, edge, target) && CanByGroup(cfg, rows, target, agent)
  {
    HoldsFewer(cfg, rows, plan, edge);
    CancelsGrow(rows, plan, SoulOf(edge));
    AssentFewer(cfg, rows, plan, edge, true, agent);
    AssentFewer(cfg, rows, plan, edge, false, agent);
  }

  lemma AssentFewer(cfg: Config, rows: set<Row>, plan: set<Row>, edge: Row, role: bool, agent: Key)
    requires forall r | r in plan :: r.Direct? || r.GroupCancel?
    requires edge.ObjectSet? && Assented(cfg, rows + plan, role, edge, agent)
    ensures Assented(cfg, rows, role, edge, agent)
  {
    var m :| m in rows + plan && AssentLive(cfg, rows + plan, m, role, edge, agent);
    HoldsFewer(cfg, rows, plan, m);
    CancelsGrow(rows, plan, SoulOf(m));
    assert AssentLive(cfg, rows, m, role, edge, agent);
  }

  lemma CancelledAssent(cfg: Config, rows: set<Row>, m: Row, role: bool, edge: Row, agent: Key, c: Row)
    requires edge.ObjectSet? && m.Membership? && c.GroupCancel? && c in rows
    requires c.of == SoulOf(m) && c.cancelId !in m.cancels
    ensures !AssentLive(cfg, rows, m, role, edge, agent)
  {
    assert c.cancelId in CancelsAt(rows, SoulOf(m));
  }

  lemma CancelledShutsOut(cfg: Config, rows: set<Row>, plan: set<Row>, target: ObjectId, agent: Key)
    requires (forall r | r in plan :: r.Direct? || r.GroupCancel?) && Owned(rows, target)
    requires CanByGroup(cfg, rows, target, agent) ==>
               forall soul | ThroughSoul(cfg, rows, target, agent, soul) ::
                 exists c :: c in plan && c.GroupCancel? && c.of == soul && Fresh(rows, c)
    ensures !CanByGroup(cfg, rows + plan, target, agent)
  {
    if CanByGroup(cfg, rows + plan, target, agent) {
      var edge :| edge in rows + plan && edge.ObjectSet? && EdgeLive(cfg, rows + plan, edge, target) &&
                  Assented(cfg, rows + plan, true, edge, agent) && Assented(cfg, rows + plan, false, edge, agent);
      GroupFewer(cfg, rows, plan, edge, target, agent);
      var soul := MemberSoul(edge.circle, edge.group, agent);
      assert ThroughSoul(cfg, rows, target, agent, soul);
      var c :| c in plan && c.GroupCancel? && c.of == soul && Fresh(rows, c);
      var m :| m in rows + plan && AssentLive(cfg, rows + plan, m, true, edge, agent);
      CancelledAssent(cfg, rows + plan, m, true, edge, agent, c);
    }
  }

  /** The group part of a plan: one fresh cancellation per covered membership. */
  predicate GroupPlan(groups: seq<Row>, rows: set<Row>, souls: seq<Soul>, agent: Key) {
    && |groups| == |souls|
    && (forall k | 0 <= k < |souls| :: souls[k].MemberSoul? && souls[k].member == agent)
    && (forall k | 0 <= k < |groups| :: groups[k].GroupCancel? && groups[k].of == souls[k] && Fresh(rows, groups[k]))
  }

  /** The cancellation id of a new operation is a digest that no earlier row mentions. */
  ghost predicate NewIds(signer: Signer, id: OperationId, rows: set<Row>) {
    && (forall m | m in rows && m.Membership? :: signer.cancelId(id, SoulOf(m)) !in m.cancels)
    && (forall c | c in rows && c.GroupCancel? :: signer.cancelId(id, c.of) != c.cancelId)
  }

  /** What the planner makes: the direct withdrawals, then one cancellation per membership. */
  ghost predicate CancellationPlan(cfg: Config, signer: Signer, s: State, agent: Key, id: OperationId, plan: seq<Row>,
                                   souls: seq<Soul>) {
    var direct := 2 * |s.destinations|;
    && |plan| == direct + |souls|
    && DirectPlan(plan[..direct], s.rows, s.destinations, agent, false)
    && Planner.Covers(cfg, Elements(s.rows), s.destinations, agent, souls)
    && (forall k | 0 <= k < |souls| ::
          && souls[k].MemberSoul? && souls[k].member == agent && PrincipalOf(souls[k].group) == s.owner
          && CancelsMembership(plan[direct + k], s.rows, s.owner, souls[k], signer.cancelId(id, souls[k])))
  }

  lemma DirectMember(plan: seq<Row>, rows: seq<Row>, destinations: seq<ObjectId>, accessor: Key, stated: bool, row: Row)
    requires DirectPlan(plan, rows, destinations, accessor, stated) && row in plan
    ensures row.Direct? && row.target in destinations && row.accessor == accessor && row.stated == stated
    ensures NextDirect(row, rows, row.post, row.target, accessor, stated)
  {
    var i :| 0 <= i < |plan| && plan[i] == row;
    var k := i / 2;
    assert i == 2 * k || i == 2 * k + 1;
    assert destinations[k] in destinations;
    assert NextDirect(plan[2 * k], rows, true, destinations[k], accessor, stated);
    assert NextDirect(plan[2 * k + 1], rows, false, destinations[k], accessor, stated);
  }

  /** The planned cancellations end every access, whenever it is evaluated. */
  lemma PlanShutsOut(cfg: Config, rows: seq<Row>, direct: seq<Row>, groups: seq<Row>, souls: seq<Soul>,
                     destinations: seq<ObjectId>, agent: Key, at: nat)
    requires DirectPlan(direct, rows, destinations, agent, false)
    requires Planner.Covers(cfg, Elements(rows), destinations, agent, souls) &&
             GroupPlan(groups, Elements(rows), souls, agent)
    requires forall d | d in destinations :: Owned(Elements(rows), d) && PrincipalOf(d) != agent
    ensures Lost(cfg, Elements(rows) + Elements(direct + groups), agent, destinations, at)
  {
    var all, plan := Elements(rows), Elements(direct + groups);
    forall r | r in plan ensures r.Direct? || r.GroupCancel?
      ensures r.Direct? ==> !r.stated
    {
      if r in direct { DirectMember(direct, rows, destinations, agent, false, r); }
    }
    forall d | d in destinations ensures Owned(all + plan, d) && !AnyAccess(cfg, all + plan, d, agent, at) {
      var k :| 0 <= k < |destinations| && destinations[k] == d;
      OwnedMore(all, plan, d);
      var post, see := direct[2 * k], direct[2 * k + 1];
      assert post in plan && see in plan;
      WithdrawnHere(cfg, rows, plan, post, true, d, agent, at);
      WithdrawnHere(cfg, rows, plan, see, false, d, agent, at);
      GroupHere(cfg, all, direct, groups, souls, destinations, d, agent);
      hide CanDirect, CanByGroup;
    }
  }

  lemma OwnedMore(rows: set<Row>, plan: set<Row>, d: ObjectId)
    requires Owned(rows, d)
    ensures Owned(rows + plan, d)
  {
    var row :| row in rows && row.Ownership? && row.target == d;
    assert row in rows + plan;
  }

  lemma WithdrawnHere(cfg: Config, rows: seq<Row>, plan: set<Row>, w: Row, post: bool, d: ObjectId, agent: Key, at: nat)
    requires NextDirect(w, rows, post, d, agent, false) && w in plan && PrincipalOf(d) != agent
    requires forall r | r in plan && r.Direct? :: !r.stated
    ensures !CanDirect(cfg, Elements(rows) + plan, post, d, agent, at)
  {
    WithdrawnShutsOut(cfg, Elements(rows), plan, w, post, d, agent, at);
  }

  lemma GroupHere(cfg: Config, rows: set<Row>, direct: seq<Row>, groups: seq<Row>, souls: seq<Soul>,
                  destinations: seq<ObjectId>, d: ObjectId, agent: Key)
    requires Planner.Covers(cfg, rows, destinations, agent, souls) && GroupPlan(groups, rows, souls, agent)
    requires d in destinations && Owned(rows, d)
    requires forall r | r in Elements(direct + groups) :: r.Direct? || r.GroupCancel?
    ensures !CanByGroup(cfg, rows + Elements(direct + groups), d, agent)
  {
    hide CanByGroup, ThroughSoul, Fresh, Owned;
    if CanByGroup(cfg, rows, d, agent) {
      forall soul | ThroughSoul(cfg, rows, d, agent, soul)
        ensures exists c :: c in Elements(direct + groups) && c.GroupCancel? && c.of == soul && Fresh(rows, c)
      {
        var k :| 0 <= k < |souls| && souls[k] == soul;
        assert groups[k] in Elements(direct + groups) && groups[k].of == soul;
      }
    }
    CancelledShutsOut(cfg, rows, Elements(direct + groups), d, agent);
  }

  lemma DirectDistinct(plan: seq<Row>, rows: seq<Row>, destinations: seq<ObjectId>, accessor: Key, stated: bool, i: nat,
                       j: nat)
    requires DirectPlan(plan, rows, destinations, accessor, stated) && NoDuplicates(destinations) && i < j < |plan|
    ensures SoulOf(plan[i]) != SoulOf(plan[j])
  {
    var k, l := i / 2, j / 2;
    assert i == 2 * k || i == 2 * k + 1;
    assert j == 2 * l || j == 2 * l + 1;
    assert k < l ==> destinations[k] != destinations[l];
  }

  /** A plan fits its document: distinct cancellations, at most three per destination, all of
      them in the scope that the preflight enforces. */
  lemma PlanFitsScope(cfg: Config, rows: seq<Row>, direct: seq<Row>, groups: seq<Row>, souls: seq<Soul>,
                      destinations: seq<ObjectId>, agent: Key)
    requires DirectPlan(direct, rows, destinations, agent, false) && NoDuplicates(destinations)
    requires Planner.Covers(cfg, Elements(rows), destinations, agent, souls) &&
             GroupPlan(groups, Elements(rows), souls, agent)
    ensures |direct + groups| <= 3 * |destinations| && NoDuplicates(direct + groups)
    ensures forall c | c in direct + groups ::
              IsCancellation(c) && InScope(c, agent, destinations, Groups(Elements(rows), destinations))
  {
    var all := direct + groups;
    forall i, j | 0 <= i < j < |all| ensures all[i] != all[j] {
      if j < |direct| {
        DirectDistinct(direct, rows, destinations, agent, false, i, j);
      } else if i < |direct| {
        DirectMember(direct, rows, destinations, agent, false, all[i]);
      } else {
        assert souls[i - |direct|] != souls[j - |direct|];
      }
    }
    forall c | c in all ensures IsCancellation(c) &&
           InScope(c, agent, destinations, Groups(Elements(rows), destinations)) {
      if c in direct {
        DirectMember(direct, rows, destinations, agent, false, c);
      } else {
        var k :| 0 <= k < |groups| && groups[k] == c;
        assert souls[k] in souls;
        var d :| d in destinations && Through(cfg, Elements(rows), d, agent, souls[k]);
        GroupInScope(cfg, rows, destinations, d, agent, souls[k]);
      }
    }
  }

  lemma GroupInScope(cfg: Config, rows: seq<Row>, destinations: seq<ObjectId>, d: ObjectId, agent: Key, soul: Soul)
    requires d in destinations && ThroughSoul(cfg, Elements(rows), d, agent, soul)
    ensures soul.MemberSoul? && soul.member == agent &&
            (soul.group, soul.circle) in Groups(Elements(rows), destinations)
  {
    var edge :| edge in Elements(rows) && edge.ObjectSet? && EdgeLive(cfg, Elements(rows), edge, d) &&
                soul == MemberSoul(edge.circle, edge.group, agent);
    assert edge in Elements(rows) && edge.stated && edge.target in destinations;
  }

  // ------------------------------------------------------------ everybody else

  /** Cancellations of one member's assents. */
  predicate CancelsOf(cancels: set<Row>, agent: Key) {
    forall c | c in cancels :: c.GroupCancel? && c.of.MemberSoul? && c.of.member == agent
  }

  lemma SparedRow(cfg: Config, rows: set<Row>, cancels: set<Row>, agent: Key, row: Row)
    requires CancelsOf(cancels, agent) && !row.GroupCancel?
    ensures row in rows + cancels <==> row in rows
    ensures Holds(cfg, rows + cancels, row) == Holds(cfg, rows, row)
  {
  }

  lemma SparedSoul(rows: set<Row>, cancels: set<Row>, agent: Key, soul: Soul)
    requires CancelsOf(cancels, agent) && (soul.MemberSoul? ==> soul.member != agent)
    ensures CancelsAt(rows + cancels, soul) == CancelsAt(rows, soul)
  {
  }

  lemma SparedAssent(cfg: Config, rows: set<Row>, cancels: set<Row>, agent: Key, other: Key, role: bool, edge: Row)
    requires CancelsOf(cancels, agent) && other != agent && edge.ObjectSet?
    ensures Assented(cfg, rows + cancels, role, edge, other) == Assented(cfg, rows, role, edge, other)
  {
    forall m: Row | m.Membership?
      ensures m in rows + cancels <==> m in rows
      ensures AssentLive(cfg, rows + cancels, m, role, edge, other) == AssentLive(cfg, rows, m, role, edge, other)
    {
      SparedRow(cfg, rows, cancels, agent, m);
      if SlotOf(m) == MemberSlot(role, edge.circle, edge.group, other) {
        SparedSoul(rows, cancels, agent, SoulOf(m));
      }
    }
  }

  lemma SparedGroup(cfg: Config, rows: set<Row>, cancels: set<Row>, agent: Key, other: Key, target: ObjectId)
    requires CancelsOf(cancels, agent) && other != agent
    ensures CanByGroup(cfg, rows + cancels, target, other) == CanByGroup(cfg, rows, target, other)
    ensures Owned(rows + cancels, target) == Owned(rows, target)
  {
    forall row: Row | !row.GroupCancel? ensures row in rows + cancels <==> row in rows {
      SparedRow(cfg, rows, cancels, agent, row);
    }
    forall edge: Row | edge.ObjectSet?
      ensures EdgeLive(cfg, rows + cancels, edge, target) == EdgeLive(cfg, rows, edge, target)
      ensures Assented(cfg, rows + cancels, true, edge, other) == Assented(cfg, rows, true, edge, other)
      ensures Assented(cfg, rows + cancels, false, edge, other) == Assented(cfg, rows, false, edge, other)
    {
      SparedRow(cfg, rows, cancels, agent, edge);
      SparedSoul(rows, cancels, agent, SoulOf(edge));
      SparedAssent(cfg, rows, cancels, agent, other, true, edge);
      SparedAssent(cfg, rows, cancels, agent, other, false, edge);
    }
    hide EdgeLive, Assented, CancelsOf;
  }

  lemma SparedDirect(cfg: Config, rows: set<Row>, cancels: set<Row>, agent: Key, post: bool, target: ObjectId,
                     other: Key, at: nat)
    requires CancelsOf(cancels, agent) && Owned(rows + cancels, target) == Owned(rows, target)
    ensures CanDirect(cfg, rows + cancels, post, target, other, at) == CanDirect(cfg, rows, post, target, other, at)
  {
    forall row: Row | row.Direct?
      ensures row in rows + cancels <==> row in rows
      ensures Holds(cfg, rows + cancels, row) == Holds(cfg, rows, row)
    {
      SparedRow(cfg, rows, cancels, agent, row);
    }
    hide Holds, CancelsOf, Owned;
  }

  /** The planned cancellations change nothing for anybody else, in any group, at any object. */
  lemma PlanSparesOthers(cfg: Config, rows: seq<Row>, direct: seq<Row>, groups: seq<Row>, souls: seq<Soul>,
                         destinations: seq<ObjectId>, agent: Key, other: Key, target: ObjectId, at: nat)
    requires DirectPlan(direct, rows, destinations, agent, false) && GroupPlan(groups, Elements(rows), souls, agent)
    requires other != agent
    ensures AnyAccess(cfg, Elements(rows) + Elements(direct + groups), target, other, at) ==
              AnyAccess(cfg, Elements(rows), target, other, at)
  {
    var all, cancels, withdrawn := Elements(rows), Elements(groups), Elements(direct);
    ElementsConcat(direct, groups);
    assert all + Elements(direct + groups) == (all + cancels) + withdrawn;
    assert CancelsOf(cancels, agent) by {
      forall c | c in cancels ensures c.GroupCancel? && c.of.MemberSoul? && c.of.member == agent {
        var k :| 0 <= k < |groups| && groups[k] == c;
      }
    }
    forall g | g in withdrawn ensures g.Direct? && g.accessor == agent {
      DirectMember(direct, rows, destinations, agent, false, g);
    }
    hide CanDirect, CanByGroup, CancelsOf, Owned, DirectPlan, GroupPlan, Elements;
    SparedGroup(cfg, all, cancels, agent, other, target);
    SparedDirect(cfg, all, cancels, agent, true, target, other, at);
    SparedDirect(cfg, all, cancels, agent, false, target, other, at);
    GrantsAreIndependent(cfg, all + cancels, withdrawn, agent, target, other, at);
  }

  // ------------------------------------------------------------ grants

  /** A planned grant takes effect on top of the rows it was planned on, whatever else is
      added at other addresses. */
  lemma PlannedGrantWorks(cfg: Config, rows: set<Row>, plan: set<Row>, g: Row, at: nat)
    requires g in plan && g.Direct? && g.stated && g.from <= at < g.until && Owned(rows, g.target)
    requires forall r | r in rows && r.Direct? && SlotOf(r) == SlotOf(g) :: r.hamState < g.hamState
    requires forall r | r in plan && !r.GroupCancel? && SlotOf(r) == SlotOf(g) :: r == g
    ensures GrantEffective(cfg, rows + plan, g, at)
  {
    OwnedMore(rows, plan, g.target);
    assert g in rows + plan;
    BeatsIrreflexive(cfg, g);
    assert Holds(cfg, rows + plan, g);
  }

  lemma GrantsHoldHere(cfg: Config, rows: seq<Row>, grants: seq<Row>, destinations: seq<ObjectId>, to: Key, k: Case,
                       at: nat)
    requires DirectPlan(grants, rows, destinations, to, true) && NoDuplicates(destinations)
    requires k.grants == grants && k.to == Some(to) && Elements(k.registry) == Elements(destinations)
    requires forall d | d in destinations :: Owned(Elements(rows), d)
    requires forall g | g in grants && g.Direct? :: g.from <= at < g.until
    ensures GrantsHold(cfg, ReplacementPreflight, k, Elements(rows), Elements(rows) + Elements(grants), grants, at)
  {
    var all := Elements(rows) + Elements(grants);
    forall g | g in grants
      ensures GrantPresent(ReplacementPreflight, k, Elements(rows), g) && GrantEffective(cfg, all, g, at)
    {
      DirectMember(grants, rows, destinations, to, true, g);
      assert g.target in Elements(k.registry);
      forall r | r in Elements(grants) && !r.GroupCancel? && SlotOf(r) == SlotOf(g) ensures r == g {
        SameGrant(grants, rows, destinations, to, g, r);
      }
      PlannedGrantWorks(cfg, Elements(rows), Elements(grants), g, at);
    }
  }

  lemma SameGrant(grants: seq<Row>, rows: seq<Row>, destinations: seq<ObjectId>, to: Key, g: Row, r: Row)
    requires DirectPlan(grants, rows, destinations, to, true) && NoDuplicates(destinations)
    requires g in grants && r in grants && !g.GroupCancel? && !r.GroupCancel? && SlotOf(r) == SlotOf(g)
    ensures r == g
  {
    DirectMember(grants, rows, destinations, to, true, g);
    DirectMember(grants, rows, destinations, to, true, r);
    var i :| 0 <= i < |grants| && grants[i] == g;
    var j :| 0 <= j < |grants| && grants[j] == r;
    if i < j { DirectDistinct(grants, rows, destinations, to, true, i, j); }
    if j < i { DirectDistinct(grants, rows, destinations, to, true, j, i); }
  }

  // ------------------------------------------------------------ planned operations are ready

  /** Two documents that were planned, the grants on top of the cancellations. */
  ghost predicate PlannedDocuments(cfg: Config, job: Job, rows: seq<Row>, direct: seq<Row>, groups: seq<Row>,
                                   souls: seq<Soul>, destinations: seq<ObjectId>)
  {
    && Prepared(job) && NoDuplicates(destinations) && Elements(job.doc.fence.destinations) == Elements(destinations)
    && job.doc.cancellations == direct + groups
    && DirectPlan(direct, rows, destinations, job.doc.agent, false)
    && Planner.Covers(cfg, Elements(rows), destinations, job.doc.agent, souls) &&
       GroupPlan(groups, Elements(rows), souls, job.doc.agent)
    && DirectPlan(job.plan.grants, rows + job.doc.cancellations, destinations, job.to, true)
    && (forall d | d in destinations :: Owned(Elements(rows), d) && PrincipalOf(d) != job.doc.agent)
  }

  /** Every grant of the plan has begun, and none has run out. */
  predicate GrantsLive(plan: GrantPlan, at: nat) {
    forall g | g in plan.grants && g.Direct? :: g.from <= at < g.until
  }

  /** A job at a second at which its grants are live. */
  ghost predicate PlannedJob(cfg: Config, job: Job, rows: seq<Row>, direct: seq<Row>, groups: seq<Row>,
                             souls: seq<Soul>, destinations: seq<ObjectId>)
  {
    PlannedDocuments(cfg, job, rows, direct, groups, souls, destinations) && GrantsLive(job.plan, job.at)
  }

  lemma SameRegistry(agent: Key, a: seq<ObjectId>, b: seq<ObjectId>, rows: set<Row>, c: Row)
    requires Elements(a) == Elements(b)
    ensures Groups(rows, a) == Groups(rows, b)
    ensures InScope(c, agent, a, Groups(rows, a)) == InScope(c, agent, b, Groups(rows, b))
  {
    assert forall d :: d in a <==> d in Elements(a);
    assert forall d :: d in b <==> d in Elements(b);
  }

  lemma PlannedCancellationPreflight(cfg: Config, job: Job, rows: seq<Row>, direct: seq<Row>, groups: seq<Row>,
                                     souls: seq<Soul>, destinations: seq<ObjectId>)
    requires PlannedJob(cfg, job, rows, direct, groups, souls, destinations)
    requires Admits(cfg, Elements(rows) + Elements(job.doc.cancellations), job.at)
    ensures Sound(cfg, CancellationPreflight, CancelCase(job), rows, job.at)
  {
    var registry := job.doc.fence.destinations;
    PlanShutsOut(cfg, rows, direct, groups, souls, destinations, job.doc.agent, job.at);
    PlanFitsScope(cfg, rows, direct, groups, souls, destinations, job.doc.agent);
    ElementsConcat(rows, job.doc.cancellations);
    forall c | c in job.doc.cancellations ensures InScope(c, job.doc.agent, registry,
                                                          Groups(Elements(rows), registry)) {
      SameRegistry(job.doc.agent, destinations, registry, Elements(rows), c);
    }
    hide InScope, IsCancellation, Admits, AnyAccess, Owned, Groups, DirectPlan, Planner.Covers, GroupPlan;
    SameDestinationsLost(cfg, Elements(rows) + Elements(job.doc.cancellations), job.doc.agent, destinations, registry,
                         job.at);
  }

  /** A planned operation passes both preflights as soon as its rows are admitted: signatures,
      histories and capacity are all that can still stand in its way. */
  lemma PlannedIsReady(cfg: Config, job: Job, rows: seq<Row>, direct: seq<Row>, groups: seq<Row>, souls: seq<Soul>,
                       destinations: seq<ObjectId>)
    requires PlannedJob(cfg, job, rows, direct, groups, souls, destinations)
    requires Admits(cfg, Elements(rows + job.doc.cancellations + job.plan.grants), job.at)
    ensures RowsReady(cfg, job, rows, Cancelling)
  {
    var later := rows + job.doc.cancellations;
    var registry := job.doc.fence.destinations;
    ElementsConcat(rows, job.doc.cancellations);
    ElementsConcat(later, job.plan.grants);
    var grants := Elements(job.plan.grants);
    forall g | g in grants ensures g.Direct? && g.accessor == job.to {
      DirectMember(job.plan.grants, later, destinations, job.to, true, g);
    }
    AdmitsFewerGrants(cfg, Elements(later), grants, job.to, job.at);
    PlannedCancellationPreflight(cfg, job, rows, direct, groups, souls, destinations);
    forall d | d in destinations ensures Owned(Elements(later), d) {
      OwnedMore(Elements(rows), Elements(job.doc.cancellations), d);
    }
    GrantsHoldHere(cfg, later, job.plan.grants, destinations, job.to, FullCase(job), job.at);
    PlanShutsOut(cfg, rows, direct, groups, souls, destinations, job.doc.agent, job.at);
    SameDestinationsLost(cfg, Elements(later), job.doc.agent, destinations, registry, job.at);
    LostWithGrants(cfg, Elements(later), grants, job.to, job.doc.agent, registry, job.at);
    CandidatesHere(job, later, destinations);
    PlanFitsScope(cfg, rows, direct, groups, souls, destinations, job.doc.agent);
    hide Admits, Lost, GrantsHold, DirectPlan, Planner.Covers, GroupPlan, Candidate, IsCancellation, InScope;
    PresentHere(job, rows);
    ReadyParts(cfg, job, rows, later);
  }

  lemma ReadyParts(cfg: Config, job: Job, rows: seq<Row>, later: seq<Row>)
    requires Prepared(job) && later == rows + job.doc.cancellations
    requires Sound(cfg, CancellationPreflight, CancelCase(job), rows, job.at)
    requires Admits(cfg, Elements(later + job.plan.grants), job.at)
    requires forall g | g in job.plan.grants :: Candidate(g, Some(job.to), job.doc.fence.destinations)
    requires CancellationsPresent(ReplacementPreflight, FullCase(job), Elements(later))
    requires Lost(cfg, Elements(later) + Elements(job.plan.grants), job.doc.agent, job.doc.fence.destinations, job.at)
    requires GrantsHold(cfg, ReplacementPreflight, FullCase(job), Elements(later),
                        Elements(later) + Elements(job.plan.grants), job.plan.grants, job.at)
    ensures RowsReady(cfg, job, rows, Cancelling)
  {
    ElementsConcat(later, job.plan.grants);
    hide Admits, Lost, GrantsHold, Candidate, CancellationsPresent;
    assert Sound(cfg, ReplacementPreflight, FullCase(job), later, job.at);
    hide Sound;
  }

  lemma PresentHere(job: Job, rows: seq<Row>)
    requires Prepared(job)
    ensures CancellationsPresent(ReplacementPreflight, FullCase(job), Elements(rows + job.doc.cancellations))
  {
  }

  lemma CandidatesHere(job: Job, rows: seq<Row>, destinations: seq<ObjectId>)
    requires DirectPlan(job.plan.grants, rows, destinations, job.to, true)
    requires job.doc.fence.Fence? && Elements(job.doc.fence.destinations) == Elements(destinations)
    ensures forall g | g in job.plan.grants :: Candidate(g, Some(job.to), job.doc.fence.destinations)
  {
    forall g | g in job.plan.grants ensures Candidate(g, Some(job.to), job.doc.fence.destinations) {
      DirectMember(job.plan.grants, rows, destinations, job.to, true, g);
      assert g.target in Elements(job.doc.fence.destinations);
    }
  }

  lemma LostWithGrants(cfg: Config, rows: set<Row>, grants: set<Row>, to: Key, agent: Key, registry: seq<ObjectId>,
                       at: nat)
    requires GrantsTo(grants, to) && agent != to && Lost(cfg, rows, agent, registry, at)
    ensures Lost(cfg, rows + grants, agent, registry, at)
  {
    forall d | d in registry ensures Owned(rows + grants, d) && !AnyAccess(cfg, rows + grants, d, agent, at) {
      OwnedElsewhere(rows, grants, to, d);
      GrantsAreIndependent(cfg, rows, grants, to, d, agent, at);
    }
  }
}
