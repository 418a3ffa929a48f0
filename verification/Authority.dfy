/** The signed authority graph (lib/identity/forum-authority.ts) as a function of
    the set of admitted rows. Signature, key-history and serialization checks stay
    uninterpreted: they are the function-valued fields of `Config`. */
module Authority {
  import opened Identity

  type CancelId = nat

  datatype Proof = Proof(signature: nat, attest: Option<nat>)

  /** Parsed authority rows (lib/identity/forum-authority-records.ts). A record is
      its own canonical form, so two rows are the same evidence when they are equal. */
  datatype Row =
    | Ownership(target: ObjectId, issuedAt: nat, proof: Proof)
    | Direct(post: bool, target: ObjectId, accessor: Key, stated: bool, from: nat, until: nat,
             hamState: nat, issuedAt: nat, proof: Proof)
    | Membership(byMember: bool, circle: bool, group: ObjectId, member: Key, stated: bool,
                 hamState: nat, issuedAt: nat, cancels: set<CancelId>, proof: Proof)
    | ObjectSet(target: ObjectId, circle: bool, group: ObjectId, stated: bool,
                hamState: nat, issuedAt: nat, cancels: set<CancelId>, proof: Proof)
    | GroupCancel(of: Soul, signer: Key, cancelId: CancelId, prior: set<CancelId>, issuedAt: nat, proof: Proof)

  /** The storage address of a row. */
  datatype Soul =
    | ObjectSoul(target: ObjectId)
    | GrantSoul(post: bool, target: ObjectId, accessor: Key)
    | MemberSoul(circle: bool, group: ObjectId, member: Key)
    | ObjectSetSoul(circle: bool, group: ObjectId, target: ObjectId)

  function SoulOf(row: Row): Soul {
    match row
    case Ownership(target, _, _) => ObjectSoul(target)
    case Direct(post, target, accessor, _, _, _, _, _, _) => GrantSoul(post, target, accessor)
    case Membership(_, circle, group, member, _, _, _, _, _) => MemberSoul(circle, group, member)
    case ObjectSet(target, circle, group, _, _, _, _, _) => ObjectSetSoul(circle, group, target)
    case GroupCancel(of, _, _, _, _, _) => of
  }

  /** True for the negative rows: withdrawn statements and group cancellations. */
  predicate IsCancellation(row: Row) {
    match row
    case Ownership(_, _, _) => false
    case GroupCancel(_, _, _, _, _, _) => true
    case _ => !row.stated
  }

  function SignerOf(row: Row): Key {
    match row
    case Ownership(target, _, _) => PrincipalOf(target)
    case Direct(_, target, _, _, _, _, _, _, _) => PrincipalOf(target)
    case Membership(byMember, _, group, member, _, _, _, _, _) => if byMember then member else PrincipalOf(group)
    case ObjectSet(target, _, _, _, _, _, _, _) => PrincipalOf(target)
    case GroupCancel(_, signer, _, _, _, _) => signer
  }

  /** The shape checks of `parseForumAuthority`. */
  predicate WellFormed(row: Row) {
    match row
    case Ownership(target, _, _) => IsObjectId(target)
    case Direct(_, target, accessor, _, from, until, _, _, _) =>
      IsObjectId(target) && IsSeaPubkey(accessor) && from <= until
    case Membership(_, _, group, member, _, _, _, _, _) =>
      IsObjectIdOf(group, SetObject) && IsSeaPubkey(member)
    case ObjectSet(target, _, group, _, _, _, _, _) =>
      IsObjectId(target) && IsObjectIdOf(group, SetObject)
    case GroupCancel(of, signer, cancelId, prior, _, _) =>
      && cancelId !in prior
      && match of
         case MemberSoul(_, group, member) =>
           IsObjectIdOf(group, SetObject) && IsSeaPubkey(member) && (signer == member || signer == PrincipalOf(group))
         case ObjectSetSoul(_, group, target) =>
           IsObjectIdOf(group, SetObject) && IsObjectId(target) && signer == PrincipalOf(target)
         case _ => false
  }

  /** The parts of verification that depend on keys and clocks outside the rows. */
  datatype Config = Config(
    bytes: Row -> seq<nat>,
    proofOk: (Row, nat) -> bool,
    historyOk: (Key, nat) -> bool,
    accounts: nat -> set<Key>)

  const NO_PROOF := Proof(0, None)

  /** What a row says, without the signature on it. */
  function Content(row: Row): Row {
    WithProof(row, NO_PROOF)
  }

  function WithProof(row: Row, proof: Proof): Row {
    row.(proof := proof)
  }

  /** Signing bytes are length-prefixed, so they determine the content. */
  ghost predicate FaithfulBytes(cfg: Config) {
    forall a, b :: cfg.bytes(a) == cfg.bytes(b) ==> Content(a) == Content(b)
  }

  // ------------------------------------------------------------ HAM merge

  predicate LexLess(a: seq<nat>, b: seq<nat>) {
    if b == [] then false
    else if a == [] then true
    else a[0] < b[0] || (a[0] == b[0] && LexLess(a[1..], b[1..]))
  }

  lemma {:induction false} LexTransitive(a: seq<nat>, b: seq<nat>, c: seq<nat>)
    requires LexLess(a, b) && LexLess(b, c)
    ensures LexLess(a, c)
  {
    if a != [] && a[0] == b[0] == c[0] {
      LexTransitive(a[1..], b[1..], c[1..]);
    }
  }

  lemma {:induction false} LexTotal(a: seq<nat>, b: seq<nat>)
    ensures LexLess(a, b) || LexLess(b, a) || a == b
    ensures !(LexLess(a, b) && LexLess(b, a))
  {
    if a != [] && b != [] {
      LexTotal(a[1..], b[1..]);
      assert a == [a[0]] + a[1..] && b == [b[0]] + b[1..];
    }
  }

  /** The texts agree up to a place where the first one ends or has the smaller byte. */
  predicate Under(a: seq<nat>, b: seq<nat>, i: nat) {
    i <= |a| && i < |b| && a[..i] == b[..i] && (i == |a| || a[i] < b[i])
  }

  lemma {:induction false} LexLessMeans(a: seq<nat>, b: seq<nat>)
    ensures LexLess(a, b) <==> exists i: nat :: Under(a, b, i)
  {
    if b != [] && a == [] {
      assert Under(a, b, 0);
    } else if b != [] {
      LexLessMeans(a[1..], b[1..]);
      if a[0] < b[0] {
        assert Under(a, b, 0);
      } else if i: nat :| Under(a, b, i) {
        assert i > 0 && a[..i][0] == b[..i][0];
        assert a[1..][..i - 1] == a[..i][1..] && b[1..][..i - 1] == b[..i][1..];
        assert Under(a[1..], b[1..], i - 1);
      } else if i: nat :| a[0] == b[0] && Under(a[1..], b[1..], i) {
        assert a[..i + 1] == [a[0]] + a[1..][..i] && b[..i + 1] == [b[0]] + b[1..][..i];
        assert Under(a, b, i + 1);
      }
    }
  }

  /** Key under which a refresh keeps one row: the winner among competitors. */
  datatype Slot =
    | OwnerSlot(target: ObjectId)
    | GrantSlot(post: bool, target: ObjectId, accessor: Key)
    | MemberSlot(byMember: bool, circle: bool, group: ObjectId, member: Key)
    | EdgeSlot(target: ObjectId)

  function SlotOf(row: Row): Slot
    requires !row.GroupCancel?
  {
    match row
    case Ownership(target, _, _) => OwnerSlot(target)
    case Direct(post, target, accessor, _, _, _, _, _, _) => GrantSlot(post, target, accessor)
    case Membership(byMember, circle, group, member, _, _, _, _, _) => MemberSlot(byMember, circle, group, member)
    case ObjectSet(target, _, _, _, _, _, _, _) => EdgeSlot(target)
  }

  /** Higher state, then the negative statement, then smaller bytes. */
  predicate Beats(cfg: Config, next: Row, prev: Row)
    requires !next.GroupCancel? && !prev.GroupCancel?
  {
    if next.Ownership? || prev.Ownership? then next.issuedAt > prev.issuedAt
    else if next.hamState != prev.hamState then next.hamState > prev.hamState
    else if next.stated != prev.stated then !next.stated
    else LexLess(cfg.bytes(next), cfg.bytes(prev))
  }

  lemma BeatsTransitive(cfg: Config, a: Row, b: Row, c: Row)
    requires !a.GroupCancel? && !b.GroupCancel? && !c.GroupCancel?
    requires SlotOf(a) == SlotOf(b) == SlotOf(c)
    requires Beats(cfg, a, b) && Beats(cfg, b, c)
    ensures Beats(cfg, a, c)
  {
    if !a.Ownership? && a.hamState == c.hamState && a.stated == c.stated {
      LexTransitive(cfg.bytes(a), cfg.bytes(b), cfg.bytes(c));
    }
  }

  lemma BeatsIrreflexive(cfg: Config, a: Row)
    requires !a.GroupCancel?
    ensures !Beats(cfg, a, a)
  {
    LexTotal(cfg.bytes(a), cfg.bytes(a));
  }

  /** Rows that no competitor in the set beats. */
  predicate Holds(cfg: Config, rows: set<Row>, row: Row) {
    row in rows && !row.GroupCancel? &&
    forall other | other in rows && !other.GroupCancel? && SlotOf(other) == SlotOf(row) ::
      !Beats(cfg, other, row)
  }

  /** The map a refresh keeps: one winner for every slot that occurs. */
  ghost predicate Winners(cfg: Config, rows: set<Row>, held: map<Slot, Row>) {
    && (forall row | row in rows && !row.GroupCancel? :: SlotOf(row) in held)
    && (forall slot | slot in held :: Holds(cfg, rows, held[slot]) && SlotOf(held[slot]) == slot)
  }

  lemma WinnersExtend(cfg: Config, rows: set<Row>, held: map<Slot, Row>, row: Row)
    requires Winners(cfg, rows, held) && !row.GroupCancel?
    ensures SlotOf(row) in held && !Beats(cfg, row, held[SlotOf(row)]) ==> Winners(cfg, rows + {row}, held)
    ensures SlotOf(row) !in held || Beats(cfg, row, held[SlotOf(row)]) ==>
              Winners(cfg, rows + {row}, held[SlotOf(row) := row])
  {
    var slot := SlotOf(row);
    BeatsIrreflexive(cfg, row);
    if slot in held && Beats(cfg, row, held[slot]) {
      forall other | other in rows && !other.GroupCancel? && SlotOf(other) == slot
        ensures !Beats(cfg, other, row)
      {
        if Beats(cfg, other, row) {
          BeatsTransitive(cfg, other, row, held[slot]);
        }
      }
    }
  }

  /** The merge loop of `refresh`: whatever the order and repetition of the rows,
      it ends with a winner for each slot of the row set. */
  method Merge(cfg: Config, rows: seq<Row>) returns (held: map<Slot, Row>, cancels: map<Soul, set<CancelId>>)
    ensures Winners(cfg, Elements(rows), held)
    ensures forall soul: Soul :: CancelsAt(Elements(rows), soul) == if soul in cancels then cancels[soul] else {}
  {
    held, cancels := map[], map[];
    for i := 0 to |rows|
      invariant Winners(cfg, Elements(rows[..i]), held)
      invariant forall soul: Soul :: CancelsAt(Elements(rows[..i]), soul) == if soul in cancels then cancels[soul]
                else {}
    {
      var row := rows[i];
      assert Elements(rows[..i + 1]) == Elements(rows[..i]) + {row} by {
        assert rows[..i + 1] == rows[..i] + [row];
      }
      if row.GroupCancel? {
        var ids := if row.of in cancels then cancels[row.of] else {};
        cancels := cancels[row.of := ids + {row.cancelId}];
        CancelsExtend(Elements(rows[..i]), row);
      } else {
        WinnersExtend(cfg, Elements(rows[..i]), held, row);
        if SlotOf(row) !in held || Beats(cfg, row, held[SlotOf(row)]) {
          held := held[SlotOf(row) := row];
        }
        CancelsExtend(Elements(rows[..i]), row);
      }
    }
    assert rows[..|rows|] == rows;
  }

  /** Cancellations recorded against a group relation. */
  function CancelsAt(rows: set<Row>, soul: Soul): set<CancelId> {
    set row | row in rows && row.GroupCancel? && row.of == soul :: row.cancelId
  }

  lemma CancelsExtend(rows: set<Row>, row: Row)
    ensures forall soul: Soul :: CancelsAt(rows + {row}, soul) ==
              CancelsAt(rows, soul) + if row.GroupCancel? && row.of == soul then {row.cancelId} else {}
  {
  }

  // ------------------------------------------------------------ admission

  const MAX_ROWS := 1024
  const MAX_SIGNERS := 32
  const MAX_PRINCIPALS := 128

  function Signers(rows: set<Row>): set<Key> {
    set row | row in rows :: SignerOf(row)
  }

  function Accessors(rows: set<Row>): set<Key> {
    set row | row in rows && row.Direct? :: row.accessor
  }

  /** All cancellations under the id of `c` have their predecessors in `done`. */
  predicate Ripe(cancels: set<Row>, c: Row, done: set<(Soul, CancelId)>)
    requires c.GroupCancel?
  {
    forall d, p | d in cancels && d.GroupCancel? && d.of == c.of && d.cancelId == c.cancelId && p in d.prior ::
           (c.of, p) in done
  }

  function Ripened(cancels: set<Row>, done: set<(Soul, CancelId)>): set<(Soul, CancelId)> {
    set c | c in cancels && c.GroupCancel? && Ripe(cancels, c, done) :: (c.of, c.cancelId)
  }

  /** Cancellations whose predecessors are all settled after `n` rounds. */
  function Settled(cancels: set<Row>, n: nat): set<(Soul, CancelId)> {
    if n == 0 then {} else Ripened(cancels, Settled(cancels, n - 1))
  }

  /** Every cancellation names known predecessors, without a cycle. */
  predicate GroundedCancels(rows: set<Row>) {
    var cancels := set row | row in rows && row.GroupCancel?;
    forall c | c in cancels :: (c.of, c.cancelId) in Settled(cancels, |cancels|)
  }

  /** `refresh` succeeds without a diagnostic. Apart from the length bound on the
      list, the verdict depends on the set of rows only. */
  predicate Admits(cfg: Config, rows: set<Row>, at: nat) {
    && (forall row | row in rows :: WellFormed(row) && row.issuedAt <= at && cfg.proofOk(row, at))
    && |Signers(rows)| <= MAX_SIGNERS
    && |Signers(rows) + Accessors(rows) + cfg.accounts(at)| <= MAX_PRINCIPALS
    && (forall key | key in Signers(rows) :: cfg.historyOk(key, at))
    && GroundedCancels(rows)
  }

  // ------------------------------------------------------------ access checks

  predicate Owned(rows: set<Row>, target: ObjectId) {
    exists row :: row in rows && row.Ownership? && row.target == target
  }

  predicate GrantLive(row: Row, now: nat)
    requires row.Direct?
  {
    row.stated && row.from <= now < row.until
  }

  /** Direct see or post, from the winning grant or from ownership. */
  predicate CanDirect(cfg: Config, rows: set<Row>, post: bool, target: ObjectId, accessor: Key, now: nat) {
    && Owned(rows, target)
    && (accessor == PrincipalOf(target) ||
        exists row :: row in rows && row.Direct? && SlotOf(row) == GrantSlot(post, target, accessor) &&
                      Holds(cfg, rows, row) && GrantLive(row, now))
  }

  /** A grant in force at its address: it is stated, its time has come and is not over, and no other
      row there has a later state, or the same state and withdraws it or has smaller bytes. */
  predicate InForce(cfg: Config, rows: set<Row>, post: bool, target: ObjectId, accessor: Key, at: nat) {
    exists row :: row in rows && row.Direct? && SoulOf(row) == Soul.GrantSoul(post, target, accessor) &&
                  row.stated && row.from <= at < row.until && Unrivalled(cfg, rows, row)
  }

  predicate Unrivalled(cfg: Config, rows: set<Row>, row: Row)
    requires row.Direct?
  {
    forall other | other in rows && other.Direct? && SoulOf(other) == SoulOf(row) ::
      || other.hamState < row.hamState
      || (other.hamState == row.hamState && other.stated && !LexLess(cfg.bytes(other), cfg.bytes(row)))
  }

  lemma UnrivalledHolds(cfg: Config, rows: set<Row>, row: Row)
    requires row in rows && row.Direct? && row.stated
    ensures Unrivalled(cfg, rows, row) <==> Holds(cfg, rows, row)
  {
    forall other | other in rows && !other.GroupCancel? && SlotOf(other) == SlotOf(row)
      ensures other.Direct? && SoulOf(other) == SoulOf(row)
    {
    }
    forall other | other in rows && other.Direct? && SoulOf(other) == SoulOf(row)
      ensures !other.GroupCancel? && SlotOf(other) == SlotOf(row)
    {
    }
  }

  /** Direct access is that of the owner, or of whoever has a grant in force. */
  lemma DirectIsInForce(cfg: Config, rows: set<Row>, post: bool, target: ObjectId, accessor: Key, at: nat)
    ensures CanDirect(cfg, rows, post, target, accessor, at) <==>
              Owned(rows, target) && (accessor == PrincipalOf(target) || InForce(cfg, rows, post, target, accessor, at))
  {
    forall row | row in rows && row.Direct? && row.stated
      ensures Unrivalled(cfg, rows, row) <==> Holds(cfg, rows, row)
    {
      UnrivalledHolds(cfg, rows, row);
    }
  }

  predicate EdgeLive(cfg: Config, rows: set<Row>, edge: Row, target: ObjectId) {
    edge in rows && edge.ObjectSet? && edge.target == target && Holds(cfg, rows, edge) && edge.stated &&
    CancelsAt(rows, SoulOf(edge)) <= edge.cancels
  }

  predicate AssentLive(cfg: Config, rows: set<Row>, assent: Row, byMember: bool, edge: Row, accessor: Key)
    requires edge.ObjectSet?
  {
    assent in rows && assent.Membership? &&
    SlotOf(assent) == MemberSlot(byMember, edge.circle, edge.group, accessor) &&
    Holds(cfg, rows, assent) && assent.stated && CancelsAt(rows, SoulOf(assent)) <= assent.cancels
  }

  predicate Assented(cfg: Config, rows: set<Row>, byMember: bool, edge: Row, accessor: Key)
    requires edge.ObjectSet?
  {
    exists assent :: assent in rows && AssentLive(cfg, rows, assent, byMember, edge, accessor)
  }

  /** Group read: a live edge to a set that both the member and the set owner assent to. */
  predicate CanByGroup(cfg: Config, rows: set<Row>, target: ObjectId, accessor: Key) {
    && Owned(rows, target)
    && exists edge :: edge in rows && edge.ObjectSet? && EdgeLive(cfg, rows, edge, target) &&
         Assented(cfg, rows, true, edge, accessor) && Assented(cfg, rows, false, edge, accessor)
  }

  predicate CanForumSee(cfg: Config, rows: set<Row>, target: ObjectId, accessor: Key, now: nat) {
    CanDirect(cfg, rows, false, target, accessor, now) || CanByGroup(cfg, rows, target, accessor)
  }

  predicate AnyAccess(cfg: Config, rows: set<Row>, target: ObjectId, accessor: Key, now: nat) {
    || CanDirect(cfg, rows, true, target, accessor, now)
    || CanDirect(cfg, rows, false, target, accessor, now)
    || CanForumSee(cfg, rows, target, accessor, now)
  }

  // ------------------------------------------------------------ the graph a refresh installs

  /** The maps kept by a successful refresh at second `at`; reads consult nothing else. */
  datatype Graph = Graph(held: map<Slot, Row>, cancels: map<Soul, set<CancelId>>, at: nat) {

    predicate HasOwner(target: ObjectId) {
      OwnerSlot(target) in held
    }

    predicate Direct(post: bool, target: ObjectId, accessor: Key) {
      var slot := GrantSlot(post, target, accessor);
      && HasOwner(target)
      && (accessor == PrincipalOf(target) || (slot in held && held[slot].Direct? && GrantLive(held[slot], at)))
    }

    predicate Covers(row: Row)
      requires row.ObjectSet? || row.Membership?
    {
      SoulOf(row) !in cancels || cancels[SoulOf(row)] <= row.cancels
    }

    predicate Assents(slot: Slot) {
      slot in held && held[slot].Membership? && held[slot].stated && Covers(held[slot])
    }

    predicate Grouped(target: ObjectId, accessor: Key) {
      && HasOwner(target)
      && EdgeSlot(target) in held
      && var edge := held[EdgeSlot(target)];
      && edge.ObjectSet? && edge.stated && Covers(edge)
      && Assents(MemberSlot(true, edge.circle, edge.group, accessor))
      && Assents(MemberSlot(false, edge.circle, edge.group, accessor))
    }

    predicate ForumSee(target: ObjectId, accessor: Key) {
      Direct(false, target, accessor) || Grouped(target, accessor)
    }
  }

  ghost predicate Installed(cfg: Config, rows: set<Row>, at: nat, graph: Graph) {
    && graph.at == at
    && Winners(cfg, rows, graph.held)
    && (forall soul: Soul :: CancelsAt(rows, soul) == if soul in graph.cancels then graph.cancels[soul] else {})
  }

  /** Two winners of one slot say the same thing. */
  lemma HoldsUnique(cfg: Config, rows: set<Row>, a: Row, b: Row)
    requires FaithfulBytes(cfg)
    requires Holds(cfg, rows, a) && Holds(cfg, rows, b) && SlotOf(a) == SlotOf(b)
    ensures a.Ownership? || Content(a) == Content(b)
  {
    assert !Beats(cfg, a, b) && !Beats(cfg, b, a);
    LexTotal(cfg.bytes(a), cfg.bytes(b));
  }

  lemma OwnerAgrees(cfg: Config, rows: set<Row>, at: nat, graph: Graph, target: ObjectId)
    requires Installed(cfg, rows, at, graph)
    ensures graph.HasOwner(target) == Owned(rows, target)
  {
    if Owned(rows, target) {
      var row :| row in rows && row.Ownership? && row.target == target;
      assert SlotOf(row) in graph.held;
    }
  }

  lemma DirectAgrees(cfg: Config, rows: set<Row>, at: nat, graph: Graph, post: bool, target: ObjectId, accessor: Key)
    requires FaithfulBytes(cfg) && Installed(cfg, rows, at, graph)
    ensures graph.Direct(post, target, accessor) == CanDirect(cfg, rows, post, target, accessor, at)
  {
    OwnerAgrees(cfg, rows, at, graph, target);
    var slot := GrantSlot(post, target, accessor);
    forall row | row in rows && row.Direct? && SlotOf(row) == slot && Holds(cfg, rows, row)
      ensures slot in graph.held && GrantLive(row, at) == GrantLive(graph.held[slot], at)
    {
      HoldsUnique(cfg, rows, row, graph.held[slot]);
    }
    if slot in graph.held {
      assert Holds(cfg, rows, graph.held[slot]);
    }
  }

  lemma AssentAgrees(cfg: Config, rows: set<Row>, at: nat, graph: Graph, byMember: bool, edge: Row, accessor: Key)
    requires FaithfulBytes(cfg) && Installed(cfg, rows, at, graph) && edge.ObjectSet?
    ensures graph.Assents(MemberSlot(byMember, edge.circle, edge.group, accessor)) ==
              Assented(cfg, rows, byMember, edge, accessor)
  {
    var slot := MemberSlot(byMember, edge.circle, edge.group, accessor);
    forall m | m in rows && AssentLive(cfg, rows, m, byMember, edge, accessor)
      ensures graph.Assents(slot)
    {
      HoldsUnique(cfg, rows, m, graph.held[slot]);
    }
    if graph.Assents(slot) {
      assert AssentLive(cfg, rows, graph.held[slot], byMember, edge, accessor);
    }
  }

  lemma GroupAgrees(cfg: Config, rows: set<Row>, at: nat, graph: Graph, target: ObjectId, accessor: Key)
    requires FaithfulBytes(cfg) && Installed(cfg, rows, at, graph)
    ensures graph.Grouped(target, accessor) == CanByGroup(cfg, rows, target, accessor)
  {
    OwnerAgrees(cfg, rows, at, graph, target);
    var slot := EdgeSlot(target);
    forall edge | edge in rows && edge.ObjectSet? && EdgeLive(cfg, rows, edge, target)
      ensures slot in graph.held && Content(edge) == Content(graph.held[slot])
    {
      HoldsUnique(cfg, rows, edge, graph.held[slot]);
    }
    if slot in graph.held {
      var edge := graph.held[slot];
      assert Holds(cfg, rows, edge) && edge.ObjectSet?;
      AssentAgrees(cfg, rows, at, graph, true, edge, accessor);
      AssentAgrees(cfg, rows, at, graph, false, edge, accessor);
      forall other | other in rows && other.ObjectSet? && EdgeLive(cfg, rows, other, target)
        ensures graph.Covers(edge) && edge.stated
        ensures forall role :: Assented(cfg, rows, role, other, accessor) == Assented(cfg, rows, role, edge, accessor)
      {
        assert Content(other) == Content(edge);
        assert forall m, role ::
               AssentLive(cfg, rows, m, role, other, accessor) == AssentLive(cfg, rows, m, role, edge, accessor);
      }
      if edge.stated && graph.Covers(edge) {
        assert EdgeLive(cfg, rows, edge, target);
      }
    }
  }

  // ------------------------------------------------------------ independence of grants

  /** Positive direct grants to one accessor, as a replacement plan holds them. */
  predicate GrantsTo(grants: set<Row>, accessor: Key) {
    forall g | g in grants :: g.Direct? && g.accessor == accessor
  }

  lemma HoldsElsewhere(cfg: Config, rows: set<Row>, grants: set<Row>, to: Key, row: Row)
    requires GrantsTo(grants, to) && (row.Direct? ==> row.accessor != to)
    ensures Holds(cfg, rows + grants, row) == Holds(cfg, rows, row)
  {
  }

  lemma OwnedElsewhere(rows: set<Row>, grants: set<Row>, to: Key, target: ObjectId)
    requires GrantsTo(grants, to)
    ensures Owned(rows + grants, target) == Owned(rows, target)
  {
    if Owned(rows, target) {
      var row :| row in rows && row.Ownership? && row.target == target;
      assert row in rows + grants;
    }
  }

  lemma DirectElsewhere(cfg: Config, rows: set<Row>, grants: set<Row>, to: Key, post: bool, target: ObjectId,
                        accessor: Key, now: nat)
    requires GrantsTo(grants, to) && accessor != to
    ensures CanDirect(cfg, rows + grants, post, target, accessor, now) == CanDirect(cfg, rows, post, target, accessor,
            now)
  {
    OwnedElsewhere(rows, grants, to, target);
    forall row: Row | row.Direct? && row.accessor == accessor
      ensures Holds(cfg, rows + grants, row) == Holds(cfg, rows, row)
    {
      HoldsElsewhere(cfg, rows, grants, to, row);
    }
    if CanDirect(cfg, rows, post, target, accessor, now) && accessor != PrincipalOf(target) {
      var row :| row in rows && row.Direct? && SlotOf(row) == GrantSlot(post, target, accessor) &&
                 Holds(cfg, rows, row) && GrantLive(row, now);
      assert row in rows + grants && Holds(cfg, rows + grants, row);
    }
  }

  lemma CancelsElsewhere(rows: set<Row>, grants: set<Row>, to: Key, soul: Soul)
    requires GrantsTo(grants, to)
    ensures CancelsAt(rows + grants, soul) == CancelsAt(rows, soul)
  {
  }

  lemma GroupRowElsewhere(cfg: Config, rows: set<Row>, grants: set<Row>, to: Key, row: Row)
    requires GrantsTo(grants, to) && (row.ObjectSet? || row.Membership?)
    ensures row in rows + grants <==> row in rows
    ensures Holds(cfg, rows + grants, row) == Holds(cfg, rows, row)
    ensures CancelsAt(rows + grants, SoulOf(row)) == CancelsAt(rows, SoulOf(row))
  {
    HoldsElsewhere(cfg, rows, grants, to, row);
    CancelsElsewhere(rows, grants, to, SoulOf(row));
  }

  lemma AssentedElsewhere(cfg: Config, rows: set<Row>, grants: set<Row>, to: Key, byMember: bool, edge: Row,
                          accessor: Key)
    requires GrantsTo(grants, to) && edge.ObjectSet?
    ensures Assented(cfg, rows + grants, byMember, edge, accessor) == Assented(cfg, rows, byMember, edge, accessor)
  {
    forall m: Row | m.Membership?
      ensures AssentLive(cfg, rows + grants, m, byMember, edge, accessor) == AssentLive(cfg, rows, m, byMember, edge,
              accessor)
      ensures m in rows + grants <==> m in rows
    {
      GroupRowElsewhere(cfg, rows, grants, to, m);
    }
  }

  lemma GroupElsewhere(cfg: Config, rows: set<Row>, grants: set<Row>, to: Key, target: ObjectId, accessor: Key)
    requires GrantsTo(grants, to)
    ensures CanByGroup(cfg, rows + grants, target, accessor) == CanByGroup(cfg, rows, target, accessor)
  {
    OwnedElsewhere(rows, grants, to, target);
    forall edge: Row | edge.ObjectSet?
      ensures edge in rows + grants <==> edge in rows
      ensures EdgeLive(cfg, rows + grants, edge, target) == EdgeLive(cfg, rows, edge, target)
      ensures Assented(cfg, rows + grants, true, edge, accessor) == Assented(cfg, rows, true, edge, accessor)
      ensures Assented(cfg, rows + grants, false, edge, accessor) == Assented(cfg, rows, false, edge, accessor)
    {
      GroupRowElsewhere(cfg, rows, grants, to, edge);
      AssentedElsewhere(cfg, rows, grants, to, true, edge, accessor);
      AssentedElsewhere(cfg, rows, grants, to, false, edge, accessor);
    }
  }

  /** Direct grants to one accessor never change what another accessor can do. */
  lemma GrantsAreIndependent(cfg: Config, rows: set<Row>, grants: set<Row>, to: Key, target: ObjectId, accessor: Key,
                             now: nat)
    requires GrantsTo(grants, to) && accessor != to
    ensures AnyAccess(cfg, rows + grants, target, accessor, now) == AnyAccess(cfg, rows, target, accessor, now)
  {
    DirectElsewhere(cfg, rows, grants, to, true, target, accessor, now);
    DirectElsewhere(cfg, rows, grants, to, false, target, accessor, now);
    GroupElsewhere(cfg, rows, grants, to, target, accessor);
  }

  /** Leaving direct grants out of an admissible row set keeps it admissible. */
  lemma AdmitsFewerGrants(cfg: Config, rows: set<Row>, grants: set<Row>, to: Key, at: nat)
    requires GrantsTo(grants, to) && Admits(cfg, rows + grants, at)
    ensures Admits(cfg, rows, at)
  {
    var all := rows + grants;
    assert Signers(rows) <= Signers(all) by {
      forall key | key in Signers(rows) ensures key in Signers(all) {
        var row :| row in rows && SignerOf(row) == key;
        assert row in all;
      }
    }
    assert Accessors(rows) <= Accessors(all) by {
      forall key | key in Accessors(rows) ensures key in Accessors(all) {
        var row :| row in rows && row.Direct? && row.accessor == key;
        assert row in all;
      }
    }
    SubsetCount(Signers(rows), Signers(all));
    SubsetCount(Signers(rows) + Accessors(rows) + cfg.accounts(at), Signers(all) + Accessors(all) + cfg.accounts(at));
    assert (set row | row in rows && row.GroupCancel?) == (set row | row in all && row.GroupCancel?);
  }
}
