/** The rows of a plan are admitted wherever the rows it was planned on are: what a claim of an
    owner whose evidence is in order needs in order to go through. */
module Admission {
  import opened Identity
  import opened Authority
  import opened Documents
  import opened Planner
  import opened PlannerSound

  /** The signatures that the owner makes at this second verify, and so does its key history. */
  ghost predicate SignerWorks(cfg: Config, signer: Signer, owner: Key, at: nat) {
    && cfg.historyOk(owner, at)
    && forall row: Row | WellFormed(row) && SignerOf(row) == owner && row.issuedAt == at &&
       row.proof == signer.sign(Content(row)) ::
         cfg.proofOk(row, at)
  }

  /** Well-formed rows that the owner signed at this second. */
  ghost predicate SignedNow(signer: Signer, rows: set<Row>, owner: Key, at: nat) {
    forall r | r in rows :: WellFormed(r) && SignerOf(r) == owner && r.issuedAt == at &&
           r.proof == signer.sign(Content(r))
  }

  /** A cancellation with an id of its own, whose predecessors are all known. */
  predicate OwnCancel(rows: set<Row>, plan: set<Row>, c: Row)
    requires c.GroupCancel?
  {
    && (forall p | p in c.prior :: p in CancelsAt(rows, c.of))
    && (forall d | d in rows + plan && d.GroupCancel? && d.of == c.of && d.cancelId == c.cancelId :: d == c)
    && c !in rows
  }

  function CancelsIn(rows: set<Row>): set<Row> {
    set row | row in rows && row.GroupCancel?
  }

  predicate SameId(c: Row, d: Row) {
    c.GroupCancel? && d.GroupCancel? && c.of == d.of && c.cancelId == d.cancelId
  }

  /** More cancellations, under ids of their own, and more that is settled. */
  lemma RipenedMore(cancels: set<Row>, more: set<Row>, done: set<(Soul, CancelId)>, further: set<(Soul, CancelId)>)
    requires cancels <= more && done <= further
    requires forall c, d | c in cancels && d in more && SameId(c, d) :: d in cancels
    ensures Ripened(cancels, done) <= Ripened(more, further)
  {
    forall c | c in cancels && c.GroupCancel? && Ripe(cancels, c, done) ensures Ripe(more, c, further) {
      assert forall d | d in more && SameId(c, d) :: d in cancels;
    }
  }

  lemma {:induction false} SettledMore(cancels: set<Row>, n: nat)
    ensures Settled(cancels, n) <= Settled(cancels, n + 1)
  {
    hide Ripened;
    if n > 0 {
      SettledMore(cancels, n - 1);
      var done, further := Settled(cancels, n - 1), Settled(cancels, n);
      RipenedMore(cancels, cancels, done, further);
      assert Settled(cancels, n) == Ripened(cancels, done) && Settled(cancels, n + 1) == Ripened(cancels, further);
    }
  }

  lemma {:induction false} SettledUpTo(cancels: set<Row>, m: nat, n: nat)
    requires m <= n
    ensures Settled(cancels, m) <= Settled(cancels, n)
    decreases n
  {
    hide Settled;
    if m < n {
      SettledUpTo(cancels, m, n - 1);
      SettledMore(cancels, n - 1);
    }
  }

  /** One more cancellation under a new id settles as soon as all that it names have. */
  lemma SettlesNext(all: set<Row>, c: Row, n: nat)
    requires c in all && c.GroupCancel? && (forall d | d in all && SameId(c, d) :: d == c)
    requires forall p | p in c.prior :: (c.of, p) in Settled(all, n)
    ensures (c.of, c.cancelId) in Settled(all, n + 1)
  {
    assert Ripe(all, c, Settled(all, n)) by {
      hide Settled;
    }
    hide Ripe;
  }

  lemma {:induction false} SettledStays(cancels: set<Row>, more: set<Row>, n: nat)
    requires cancels <= more
    requires forall c, d | c in cancels && d in more && SameId(c, d) :: d in cancels
    ensures Settled(cancels, n) <= Settled(more, n)
  {
    if n > 0 {
      SettledStays(cancels, more, n - 1);
      RipenedMore(cancels, more, Settled(cancels, n - 1), Settled(more, n - 1));
    }
  }

  lemma StillGrounded(rows: set<Row>, plan: set<Row>)
    requires GroundedCancels(rows) && forall c | c in plan && c.GroupCancel? :: OwnCancel(rows, plan, c)
    ensures GroundedCancels(rows + plan)
  {
    var old_, all := CancelsIn(rows), CancelsIn(rows + plan);
    hide Settled;
    forall c, d | c in old_ && d in all && SameId(c, d) ensures d in old_ {
      if d in plan { assert OwnCancel(rows, plan, d); }
    }
    SettledStays(old_, all, |old_|);
    SubsetCount(old_, all);
    SettledUpTo(all, |old_|, |all|);
    forall c | c in all && c !in old_ ensures (c.of, c.cancelId) in Settled(all, |all|) {
      assert OwnCancel(rows, plan, c);
      NewSettles(rows, plan, c);
    }
  }

  lemma NewSettles(rows: set<Row>, plan: set<Row>, c: Row)
    requires c in plan && c.GroupCancel? && OwnCancel(rows, plan, c)
    requires forall d | d in CancelsIn(rows) :: (d.of, d.cancelId) in Settled(CancelsIn(rows + plan), |CancelsIn(rows)|)
    ensures (c.of, c.cancelId) in Settled(CancelsIn(rows + plan), |CancelsIn(rows + plan)|)
  {
    var old_, all := CancelsIn(rows), CancelsIn(rows + plan);
    hide Settled;
    WithOne(old_, c);
    SubsetCount(old_ + {c}, all);
    forall p | p in c.prior ensures (c.of, p) in Settled(all, |old_|) {
      var d :| d in rows && d.GroupCancel? && d.of == c.of && d.cancelId == p;
      assert d in old_;
    }
    SettlesNext(all, c, |old_|);
    SettledUpTo(all, |old_| + 1, |all|);
  }

  lemma GroundedTogether(cfg: Config, rows: set<Row>, plan: set<Row>, at: nat)
    requires Admits(cfg, rows, at) && forall c | c in plan && c.GroupCancel? :: OwnCancel(rows, plan, c)
    ensures GroundedCancels(rows + plan)
  {
    hide GroundedCancels, OwnCancel;
    StillGrounded(rows, plan);
  }

  /** Signed rows on top of admitted ones are admitted, as long as the principals still fit. */
  lemma PlannedRowsAdmitted(cfg: Config, signer: Signer, rows: set<Row>, plan: set<Row>, owner: Key, at: nat)
    requires Admits(cfg, rows, at) && owner in Signers(rows) && SignerWorks(cfg, signer, owner, at)
    requires SignedNow(signer, plan, owner, at) && forall c | c in plan && c.GroupCancel? :: OwnCancel(rows, plan, c)
    requires |Signers(rows) + Accessors(rows) + cfg.accounts(at) + Accessors(plan)| <= MAX_PRINCIPALS
    ensures Admits(cfg, rows + plan, at)
  {
    hide GroundedCancels, OwnCancel, WellFormed, SignerOf, Content;
    GroundedTogether(cfg, rows, plan, at);
    assert Signers(rows + plan) == Signers(rows);
    assert Accessors(rows + plan) == Accessors(rows) + Accessors(plan);
    assert Signers(rows) + (Accessors(rows) + Accessors(plan)) + cfg.accounts(at) ==
           Signers(rows) + Accessors(rows) + cfg.accounts(at) + Accessors(plan);
  }

  // ------------------------------------------------------------ the planner's rows

  /** A planned direct row, signed by the owner for one accessor. */
  predicate SignedFor(signer: Signer, r: Row, accessor: Key, owner: Key, at: nat) {
    && r.Direct? && r.accessor == accessor
    && WellFormed(r) && SignerOf(r) == owner && r.issuedAt == at && r.proof == signer.sign(Content(r))
  }

  lemma DirectRowSigned(signer: Signer, rows: seq<Row>, post: bool, d: ObjectId, accessor: Key, stated: bool,
                        owner: Key, at: nat)
    requires IsSeaPubkey(accessor) && IsObjectId(d) && PrincipalOf(d) == owner
    ensures SignedFor(signer, DirectRow(signer, rows, post, d, accessor, stated, at), accessor, owner, at)
  {
  }

  lemma {:induction false} DirectRowsSigned(signer: Signer, rows: seq<Row>, destinations: seq<ObjectId>, accessor: Key,
                                            stated: bool, owner: Key, at: nat)
    requires IsSeaPubkey(accessor) && forall d | d in destinations :: IsObjectId(d) && PrincipalOf(d) == owner
    ensures forall r | r in DirectRows(signer, rows, destinations, accessor, stated, at) ::
            SignedFor(signer, r, accessor, owner, at)
  {
    hide SignedFor, DirectRow, DirectPlan, PrincipalOf, IsObjectId;
    if destinations != [] {
      var front, d := destinations[..|destinations| - 1], destinations[|destinations| - 1];
      assert destinations == front + [d];
      DirectRowsSigned(signer, rows, front, accessor, stated, owner, at);
      DirectRowSigned(signer, rows, true, d, accessor, stated, owner, at);
      DirectRowSigned(signer, rows, false, d, accessor, stated, owner, at);
    }
  }

  lemma GroupRowsSigned(cfg: Config, signer: Signer, rows: seq<Row>, destinations: seq<ObjectId>, agent: Key,
                        souls: seq<Soul>, owner: Key, id: OperationId, at: nat)
    requires Planner.Covers(cfg, Elements(rows), destinations, agent, souls) && IsSeaPubkey(agent)
    requires OwnsGroups(cfg, Elements(rows), destinations, agent, owner) && NewIds(signer, id, Elements(rows))
    requires forall r | r in rows :: WellFormed(r)
    ensures var plan := GroupRows(signer, rows, souls, owner, id, at);
            && SignedNow(signer, Elements(plan), owner, at)
            && forall r | r in plan :: r.GroupCancel? && OwnCancel(Elements(rows), Elements(plan), r)
  {
    var plan := GroupRows(signer, rows, souls, owner, id, at);
    forall r | r in plan
      ensures WellFormed(r) && SignerOf(r) == owner && r.issuedAt == at && r.proof == signer.sign(Content(r))
      ensures r.GroupCancel? && OwnCancel(Elements(rows), Elements(plan), r)
    {
      var k :| 0 <= k < |souls| && r == GroupRow(signer, rows, souls[k], owner, id, at);
      assert souls[k] in souls;
      SoulWellFormed(cfg, rows, destinations, agent, souls, souls[k], owner);
      GroupRowIsNew(signer, rows, souls, owner, id, at, k);
    }
  }

  lemma SoulWellFormed(cfg: Config, rows: seq<Row>, destinations: seq<ObjectId>, agent: Key, souls: seq<Soul>,
                       soul: Soul, owner: Key)
    requires Planner.Covers(cfg, Elements(rows), destinations, agent, souls) && soul in souls
    requires OwnsGroups(cfg, Elements(rows), destinations, agent, owner)
    requires forall r | r in rows :: WellFormed(r)
    ensures soul.MemberSoul? && soul.member == agent && IsObjectIdOf(soul.group, SetObject) &&
            PrincipalOf(soul.group) == owner
  {
    var d :| d in destinations && Through(cfg, Elements(rows), d, agent, soul);
    var edge :| edge in Elements(rows) && edge.ObjectSet? && EdgeLive(cfg, Elements(rows), edge, d) &&
                soul == MemberSoul(edge.circle, edge.group, agent);
    hide EdgeLive, CanByGroup;
    assert WellFormed(edge);
  }

  lemma GroupRowIsNew(signer: Signer, rows: seq<Row>, souls: seq<Soul>, owner: Key, id: OperationId, at: nat, k: nat)
    requires NewIds(signer, id, Elements(rows)) && k < |souls|
    ensures var r := GroupRow(signer, rows, souls[k], owner, id, at);
            r.cancelId !in r.prior && OwnCancel(Elements(rows), Elements(GroupRows(signer, rows, souls, owner, id, at)),
                                                r)
  {
    var plan := GroupRows(signer, rows, souls, owner, id, at);
    var r := plan[k];
    forall d | d in Elements(rows) + Elements(plan) && d.GroupCancel? && d.of == r.of &&
           d.cancelId == r.cancelId ensures d == r {
      if d in plan {
        var j :| 0 <= j < |souls| && plan[j] == d;
      }
    }
  }
}
