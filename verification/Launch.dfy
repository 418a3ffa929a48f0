/** An undertaking of the owner, from a state whose evidence is in order: the documents that the
    planner makes for it, that they are accepted wherever they go, and that the driver has all
    it needs once they are bound. */
module Launch {
  import opened Identity
  import opened Authority
  import opened Documents
  import opened Journal
  import opened Reconcile
  import opened Protocol
  import opened Resumption
  import opened Deployment
  import opened Outbox
  import opened Planner
  import opened PlannerSound
  import opened Admission
  import opened SinglePass
  import opened Publisher

  /** The evidence of version `s` is in order, and the owner can sign all that a reassignment to
      `to` takes: it owns the destinations and the sets through which the assignee reads them. */
  ghost predicate InOrder(cfg: Config, signer: Signer, s: State, id: OperationId, to: Key, at: nat) {
    var rows := Elements(s.rows);
    && |s.rows| <= MAX_ROWS && Admits(cfg, rows, at) && s.owner in Signers(rows)
    && (forall d | d in s.destinations :: Owned(rows, d) && PrincipalOf(d) == s.owner)
    && OwnsGroups(cfg, rows, s.destinations, s.assignee, s.owner)
    && StatesLeft(s.rows, s.assignee) && StatesLeft(s.rows, to)
    && NewIds(signer, id, rows) && SignerWorks(cfg, signer, s.owner, at)
    && |Signers(rows) + Accessors(rows) + cfg.accounts(at) + {s.assignee, to}| <= MAX_PRINCIPALS
  }

  /** A version that can be planned on: the reassignment of its assignee to another key. */
  predicate Assignable(s: State, id: OperationId, to: Key) {
    Parses(s) && id.Hex? && IsSeaPubkey(to) && to != s.assignee && to != s.owner
  }

  /** What is planned on version `s` at second `at`, with the memberships to be cancelled. */
  datatype Undertaking = Undertaking(signer: Signer, s: State, id: OperationId, to: Key, souls: seq<Soul>, at: nat) {

    function Withdrawn(): seq<Row> {
      DirectRows(signer, s.rows, s.destinations, s.assignee, false, at)
    }

    function Groups(): seq<Row> {
      GroupRows(signer, s.rows, souls, s.owner, id, at)
    }

    function Granted(): seq<Row> {
      DirectRows(signer, s.rows, s.destinations, to, true, at)
    }

    function Registry(): seq<ObjectId> {
      SortedSet(s.destinations)
    }

    function Document(): CancellationOperation {
      CancellationOperation(id, s.forum, s.assignee, Fence.Fence(s.forum, s.assignee, id, Registry()), Some(to),
                            Withdrawn() + Groups())
    }

    function Job(): Job {
      Resumption.Job(s.owner, id, to, Document(), GrantPlan(id, PlanBinding(Document(), Registry()), Granted()), at)
    }

    /** Every row of both documents. */
    function Rows(): set<Row> {
      Elements(Withdrawn() + Groups()) + Elements(Granted())
    }

    ghost predicate Sound(cfg: Config) {
      && Assignable(s, id, to) && InOrder(cfg, signer, s, id, to, at)
      && Planner.Covers(cfg, Elements(s.rows), s.destinations, s.assignee, souls)
    }

    /** What is planned, without how. */
    ghost predicate Planned(cfg: Config) {
      && DirectPlan(Withdrawn(), s.rows, s.destinations, s.assignee, false)
      && Planner.Covers(cfg, Elements(s.rows), s.destinations, s.assignee, souls)
      && GroupPlan(Groups(), Elements(s.rows), souls, s.assignee)
      && DirectPlan(Granted(), s.rows + Document().cancellations, s.destinations, to, true)
      && NoDuplicates(s.destinations)
    }

    /** And signed. */
    ghost predicate Signed() {
      && (forall r | r in Withdrawn() :: SignedFor(signer, r, s.assignee, s.owner, at))
      && (forall r | r in Granted() :: SignedFor(signer, r, to, s.owner, at))
      && (forall r | r in Groups() :: r.GroupCancel? && OwnCancel(Elements(s.rows), Elements(Groups()), r))
      && SignedNow(signer, Elements(Groups()), s.owner, at)
    }
  }

  // ------------------------------------------------------------ planned and signed

  lemma SoundFacts(u: Undertaking, cfg: Config)
    requires u.Sound(cfg)
    ensures NoDuplicates(u.s.destinations) && 0 < |u.s.destinations| <= MAX_ASSIGNMENT_DESTINATIONS
    ensures forall d | d in u.s.destinations ::
            IsObjectId(d) && Owned(Elements(u.s.rows), d) && PrincipalOf(d) == u.s.owner
    ensures IsSeaPubkey(u.s.assignee) && IsObjectIdOf(u.s.forum, Forum) && u.s.assignee != u.s.owner
    ensures u.id.Hex? && IsSeaPubkey(u.to) && u.to != u.s.assignee && u.to != u.s.owner
    ensures forall r | r in u.s.rows :: WellFormed(r)
  {
    forall r | r in u.s.rows ensures WellFormed(r) { assert r in Elements(u.s.rows); }
  }

  lemma UndertakingSigned(u: Undertaking, cfg: Config)
    requires u.Sound(cfg)
    ensures u.Signed()
  {
    SoundFacts(u, cfg);
    hide Admits, StatesLeft, WellFormed, CancelsAt, Parses, DirectRows, GroupRows, SignerWorks, Owned, OwnCancel,
         SignedFor, SignedNow;
    DirectRowsSigned(u.signer, u.s.rows, u.s.destinations, u.s.assignee, false, u.s.owner, u.at);
    DirectRowsSigned(u.signer, u.s.rows, u.s.destinations, u.to, true, u.s.owner, u.at);
    hide DirectPlan;
    GroupRowsSigned(cfg, u.signer, u.s.rows, u.s.destinations, u.s.assignee, u.souls, u.s.owner, u.id, u.at);
  }

  lemma GroupsFresh(u: Undertaking, cfg: Config)
    requires u.Sound(cfg)
    ensures GroupPlan(u.Groups(), Elements(u.s.rows), u.souls, u.s.assignee)
  {
    hide Admits, Planner.Covers, SignerWorks, StatesLeft, OwnsGroups, WellFormed, CancelsAt, Parses, Owned;
    SoundFacts(u, cfg);
    forall k | 0 <= k < |u.souls| ensures u.souls[k].MemberSoul? && u.souls[k].member == u.s.assignee {
      assert u.souls[k] in u.souls;
      SoulWellFormed(cfg, u.s.rows, u.s.destinations, u.s.assignee, u.souls, u.souls[k], u.s.owner);
    }
  }

  lemma CancellationsElsewhere(u: Undertaking)
    requires u.to != u.s.assignee
    ensures Elsewhere(u.Document().cancellations, u.to)
  {
    hide DirectRows, DirectPlan, NextDirect;
    forall r | r in u.Document().cancellations && r.Direct? ensures r.accessor != u.to {
      if r in u.Withdrawn() {
        DirectMember(u.Withdrawn(), u.s.rows, u.s.destinations, u.s.assignee, false, r);
      }
    }
  }

  lemma UndertakingPlanned(u: Undertaking, cfg: Config)
    requires u.Sound(cfg)
    ensures u.Planned(cfg)
  {
    GroupsFresh(u, cfg);
    SoundFacts(u, cfg);
    CancellationsElsewhere(u);
    hide Admits, SignerWorks, StatesLeft, OwnsGroups, WellFormed, Parses, Planner.Covers, GroupPlan, DirectPlan,
         Elsewhere, Owned, NewIds;
    DirectRowsElsewhere(u.signer, u.s.rows, u.Document().cancellations, u.s.destinations, u.to, true, u.at);
  }

  // ------------------------------------------------------------ the documents are accepted

  /** The cancellations meet the outbox's conditions and the planner's size. */
  lemma DocumentIsValid(u: Undertaking, cfg: Config)
    requires u.Sound(cfg)
    ensures ValidDocument(u.Document()) && OfPlannerSize(u.Document())
    ensures |u.Document().cancellations| == 2 * |u.s.destinations| + |u.souls| <= 3 * |u.s.destinations|
    ensures |u.Granted()| == 2 * |u.s.destinations|
  {
    hide Undertaking.Sound, Undertaking.Planned, Undertaking.Signed, Undertaking.Withdrawn, Undertaking.Groups,
         Undertaking.Granted, WellFormed, Owned, IsCancellation, NoDuplicates;
    SoundFacts(u, cfg);
    UndertakingPlanned(u, cfg);
    UndertakingSigned(u, cfg);
    RowsWellFormed(u);
    PlanIsScoped(u, cfg);
    DistinctCount(u.s.destinations);
    forall c | c in u.Document().cancellations ensures WellFormed(c) { assert c in u.Rows(); }
  }

  lemma PlanIsScoped(u: Undertaking, cfg: Config)
    requires u.Planned(cfg)
    ensures var plan := u.Document().cancellations;
            && |plan| == 2 * |u.s.destinations| + |u.souls| <= 3 * |u.s.destinations| && NoDuplicates(plan)
            && (forall c | c in plan :: IsCancellation(c)) && |u.Granted()| == 2 * |u.s.destinations|
            && Elements(u.Registry()) == Elements(u.s.destinations)
  {
    hide Undertaking.Withdrawn, Undertaking.Groups, Undertaking.Granted, NextDirect, InScope, Reconcile.Groups,
         IsCancellation, NoDuplicates, ThroughSoul, CanByGroup, Fresh;
    PlanFitsScope(cfg, u.s.rows, u.Withdrawn(), u.Groups(), u.souls, u.s.destinations, u.s.assignee);
  }

  lemma RowsWellFormed(u: Undertaking)
    requires u.Signed()
    ensures forall r | r in u.Rows() ::
            WellFormed(r) && SignerOf(r) == u.s.owner && r.issuedAt == u.at && r.proof == u.signer.sign(Content(r))
  {
    hide WellFormed, DirectRows, GroupRows, OwnCancel;
    forall r | r in u.Rows()
      ensures WellFormed(r) && SignerOf(r) == u.s.owner && r.issuedAt == u.at && r.proof == u.signer.sign(Content(r))
    {
      if r in u.Groups() {
        assert r in Elements(u.Groups());
      }
    }
  }

  lemma GrantsPlanned(u: Undertaking)
    requires u.Signed()
    ensures DirectPlan(u.Granted(), u.s.rows, u.s.destinations, u.to, true) && forall g | g in u.Granted() ::
            WellFormed(g)
  {
    hide Undertaking.Withdrawn, Undertaking.Groups, WellFormed, NextDirect;
  }

  lemma GrantsAreValid(u: Undertaking, cfg: Config)
    requires u.Sound(cfg)
    ensures ValidGrants(u.Granted()) && GrantsInIntent(u.Granted(), u.to, u.Registry())
    ensures PlanFor(u.Document(), u.Job().plan)
  {
    hide Undertaking.Sound, Undertaking.Signed, Undertaking.Granted, Undertaking.Withdrawn, Undertaking.Groups,
         WellFormed, SortedSet, NextDirect, Owned, NoDuplicates, SoulOf, IsCancellation;
    SoundFacts(u, cfg);
    UndertakingSigned(u, cfg);
    GrantsPlanned(u);
    SortedMembers(u.s.destinations);
    GrantsAsCandidates(u.Granted(), u.s.rows, u.s.destinations, u.to, u.Registry());
  }

  lemma GrantsAsCandidates(grants: seq<Row>, rows: seq<Row>, destinations: seq<ObjectId>, to: Key,
                           registry: seq<ObjectId>)
    requires DirectPlan(grants, rows, destinations, to, true) && NoDuplicates(destinations)
    requires forall d | d in destinations :: d in registry
    ensures forall g | g in grants :: !IsCancellation(g) && Candidate(g, Some(to), registry) && g.Direct?
    ensures |grants| == 2 * |destinations| && forall i, j :: 0 <= i < j < |grants| ==>
            SoulOf(grants[i]) != SoulOf(grants[j])
  {
    hide NextDirect, NoDuplicates, SoulOf;
    forall g | g in grants ensures !IsCancellation(g) && Candidate(g, Some(to), registry) && g.Direct? {
      DirectMember(grants, rows, destinations, to, true, g);
    }
    forall i, j | 0 <= i < j < |grants| ensures SoulOf(grants[i]) != SoulOf(grants[j]) {
      DirectDistinct(grants, rows, destinations, to, true, i, j);
    }
  }

  lemma UndertakingPrepared(u: Undertaking, cfg: Config)
    requires u.Sound(cfg)
    ensures Prepared(u.Job())
  {
    SoundFacts(u, cfg);
    DocumentIsValid(u, cfg);
    GrantsAreValid(u, cfg);
    UndertakingPlanned(u, cfg);
    PlanIsScoped(u, cfg);
    hide Undertaking.Sound, Undertaking.Planned, Undertaking.Withdrawn, Undertaking.Groups, Undertaking.Granted,
         SortedSet, WellFormed, PlanFor, ValidGrants, GrantsInIntent, IsCancellation, NoDuplicates, Owned;
  }

  // ------------------------------------------------------------ and so is the evidence

  lemma OwnWithDirect(rows: set<Row>, groups: set<Row>, direct: set<Row>, c: Row)
    requires c.GroupCancel? && OwnCancel(rows, groups, c) && forall r | r in direct :: r.Direct?
    ensures OwnCancel(rows, groups + direct, c)
  {
  }

  lemma RowsOwn(u: Undertaking)
    requires u.Signed()
    ensures Accessors(u.Rows()) <= {u.s.assignee, u.to}
    ensures forall c | c in u.Rows() && c.GroupCancel? :: OwnCancel(Elements(u.s.rows), u.Rows(), c)
  {
    hide WellFormed, DirectRows, GroupRows, OwnCancel, SignedNow, SignerOf;
    var direct := Elements(u.Withdrawn()) + Elements(u.Granted());
    assert u.Rows() == Elements(u.Groups()) + direct;
    forall c | c in u.Rows() && c.GroupCancel? ensures OwnCancel(Elements(u.s.rows), u.Rows(), c) {
      assert c in u.Groups();
      OwnWithDirect(Elements(u.s.rows), Elements(u.Groups()), direct, c);
    }
  }

  lemma UndertakingAdmitted(u: Undertaking, cfg: Config)
    requires u.Sound(cfg)
    ensures Admits(cfg, Elements(u.s.rows + u.Job().doc.cancellations + u.Job().plan.grants), u.at)
  {
    UndertakingSigned(u, cfg);
    RowsWellFormed(u);
    RowsOwn(u);
    RowsTogether(u);
    PrincipalsFit(u, cfg);
    hide Undertaking.Signed, Undertaking.Rows, Undertaking.Withdrawn, Undertaking.Groups, Undertaking.Granted,
         WellFormed, Owned, OwnCancel, Admits, Parses, OwnsGroups, StatesLeft, NewIds, Planner.Covers, SignerWorks,
         Elements, Signers, Accessors;
    PlannedRowsAdmitted(cfg, u.signer, Elements(u.s.rows), u.Rows(), u.s.owner, u.at);
  }

  lemma RowsTogether(u: Undertaking)
    ensures Elements(u.s.rows + u.Job().doc.cancellations + u.Job().plan.grants) == Elements(u.s.rows) + u.Rows()
  {
    hide Undertaking.Withdrawn, Undertaking.Groups, Undertaking.Granted, SortedSet;
    ElementsConcat(u.s.rows, u.Document().cancellations);
    ElementsConcat(u.s.rows + u.Document().cancellations, u.Granted());
  }

  lemma PrincipalsFit(u: Undertaking, cfg: Config)
    requires u.Sound(cfg) && Accessors(u.Rows()) <= {u.s.assignee, u.to}
    ensures var rows := Elements(u.s.rows);
            |Signers(rows) + Accessors(rows) + cfg.accounts(u.at) + Accessors(u.Rows())| <= MAX_PRINCIPALS
  {
    hide Undertaking.Rows, Owned, Admits, Parses, OwnsGroups, StatesLeft, NewIds, Planner.Covers, SignerWorks, Elements,
         Signers, Accessors;
    var rows := Elements(u.s.rows);
    SubsetCount(Signers(rows) + Accessors(rows) + cfg.accounts(u.at) + Accessors(u.Rows()),
                Signers(rows) + Accessors(rows) + cfg.accounts(u.at) + {u.s.assignee, u.to});
  }

  lemma {:induction false} RowsLive(signer: Signer, rows: seq<Row>, destinations: seq<ObjectId>, to: Key, at: nat)
    ensures forall g | g in DirectRows(signer, rows, destinations, to, true, at) && g.Direct? :: g.from <= at < g.until
  {
    hide DirectPlan, NextDirect, Highest;
    if destinations != [] {
      RowsLive(signer, rows, destinations[..|destinations| - 1], to, at);
    }
  }

  lemma GrantedLive(u: Undertaking)
    ensures GrantsLive(u.Job().plan, u.at)
  {
    RowsLive(u.signer, u.s.rows, u.s.destinations, u.to, u.at);
    hide DirectRows;
  }

  /** What the planner's properties are for: the whole undertaking is a planned job, and its
      preflights succeed on the version it was planned on. */
  lemma UndertakingReady(u: Undertaking, cfg: Config)
    requires u.Sound(cfg)
    ensures PlannedJob(cfg, u.Job(), u.s.rows, u.Withdrawn(), u.Groups(), u.souls, u.s.destinations)
    ensures RowsReady(cfg, u.Job(), u.s.rows, Cancelling)
  {
    hide Undertaking.Sound, Undertaking.Withdrawn, Undertaking.Groups, Undertaking.Granted, SortedSet, WellFormed,
         Owned, Admits, Prepared, DirectPlan, Planner.Covers, GroupPlan, NoDuplicates, ValidDocument, OfPlannerSize,
         Elements, RowsReady;
    SoundFacts(u, cfg);
    UndertakingPlanned(u, cfg);
    UndertakingPrepared(u, cfg);
    UndertakingAdmitted(u, cfg);
    DocumentIsValid(u, cfg);
    GrantedLive(u);
    PlanIsScoped(u, cfg);
    PlannedIsReady(cfg, u.Job(), u.s.rows, u.Withdrawn(), u.Groups(), u.souls, u.s.destinations);
  }

  // ------------------------------------------------------------ from the claim to the driver

  /** The operation was claimed, with the room that a claim reserves, and nothing else is done. */
  predicate ClaimedOn(s: State, id: OperationId, to: Key, at: nat) {
    && s.operation == Some(Operation(id, s.assignee, to, Cancelling, None, None))
    && |s.rows| + 5 * |s.destinations| <= MAX_JOURNAL_ROWS
    && s.revision + 5 * |s.destinations| + 5 <= MAX_SAFE_INTEGER && at <= MAX_SAFE_INTEGER
  }

  predicate Claimed(u: Undertaking) {
    ClaimedOn(u.s, u.id, u.to, u.at)
  }

  function BindIt(u: Undertaking): Command {
    BindCancellations(u.s.owner, u.id, u.to, OfCancellations(u.Document()))
  }

  /** The version in which its document is bound. */
  function Bound(u: Undertaking): State
    requires Claimed(u)
  {
    WithOperation(u.s, u.s.operation.value.(cancellationDigest := Some(OfCancellations(u.Document()))))
  }

  lemma BindWritten(genesis: State, u: Undertaking)
    requires Inv(genesis, u.s) && Claimed(u)
    ensures Exec(u.s, BindIt(u)) == Written(Bound(u))
  {
    hide Undertaking.Document, Parses;
    assert Attempt(u.s, BindIt(u)) == Written(Bound(u));
    ReparseExactly(genesis, u.s, BindIt(u));
  }

  /** The planned rows are new: direct rows outrank what is there, cancellations have new ids. */
  lemma NothingDurable(u: Undertaking, cfg: Config)
    requires u.Sound(cfg) && u.Planned(cfg)
    ensures forall r | r in u.Document().cancellations || r in u.Granted() :: r !in u.s.rows
  {
    hide Admits, Parses, OwnsGroups, StatesLeft, Planner.Covers, SignerWorks, Undertaking.Withdrawn,
         Undertaking.Granted, Owned, CancelsAt;
    forall r | r in u.Withdrawn() || r in u.Granted() ensures r !in u.s.rows {
      if r in u.Withdrawn() {
        DirectMember(u.Withdrawn(), u.s.rows, u.s.destinations, u.s.assignee, false, r);
      } else {
        DirectMember(u.Granted(), u.s.rows + u.Document().cancellations, u.s.destinations, u.to, true, r);
        NextNotThere(r, u.s.rows, u.Document().cancellations, u.to);
      }
    }
    forall r | r in u.Groups() ensures r !in u.s.rows {
      var k :| 0 <= k < |u.souls| && r == GroupRow(u.signer, u.s.rows, u.souls[k], u.s.owner, u.id, u.at);
      assert r in u.s.rows ==> r in Elements(u.s.rows);
    }
  }

  lemma NextNotThere(r: Row, rows: seq<Row>, more: seq<Row>, to: Key)
    requires r.Direct? && NextDirect(r, rows + more, r.post, r.target, to, true)
    ensures r !in rows
  {
    assert r in rows ==> r in rows + more;
  }

  /** What is still to be published, by number. */
  lemma BoundCounts(u: Undertaking, cfg: Config)
    requires u.Sound(cfg)
    ensures Missing(u.Document().cancellations, u.s.rows) == u.Document().cancellations
    ensures Missing(u.Granted(), u.s.rows) == u.Granted()
    ensures |u.Document().cancellations| == 2 * |u.s.destinations| + |u.souls| && |u.souls| <= |u.s.destinations|
    ensures |u.Granted()| == 2 * |u.s.destinations| && 0 < |u.s.destinations|
    ensures LastDue(u.Document().cancellations, u.s.rows) == 1 == LastDue(u.Granted(), u.s.rows)
  {
    hide Undertaking.Sound, Undertaking.Planned, Undertaking.Withdrawn, Undertaking.Groups, Undertaking.Granted,
         ValidDocument, OfPlannerSize, IsCancellation, NoDuplicates, Owned;
    SoundFacts(u, cfg);
    UndertakingPlanned(u, cfg);
    DocumentIsValid(u, cfg);
    NothingDurable(u, cfg);
    AllMissing(u.Document().cancellations, u.s.rows);
    AllMissing(u.Granted(), u.s.rows);
  }

  /** The room for one undisturbed pass, by number of rows, destinations and memberships. */
  lemma BoundRoom(u: Undertaking, cfg: Config)
    requires Claimed(u) && u.Sound(cfg)
    ensures Ample(u.Job(), Bound(u)) <==> |u.s.rows| + 6 * |u.s.destinations| + |u.souls| - 1 <= MAX_ROWS
    ensures CancelFits(u.Job(), Bound(u)) <==> |u.s.rows| + 4 * |u.s.destinations| + 2 * |u.souls| - 1 <= MAX_ROWS
    ensures JournalRoom(u.Job(), Bound(u))
  {
    hide Undertaking.Sound, Undertaking.Withdrawn, Undertaking.Groups, Undertaking.Granted, Missing, LastDue;
    BoundCounts(u, cfg);
  }

  lemma BoundOnTrack(genesis: State, u: Undertaking, cfg: Config)
    requires Inv(genesis, u.s) && Claimed(u) && u.Sound(cfg)
    ensures OnTrack(genesis, cfg, u.Job(), Bound(u))
  {
    hide Undertaking.Sound, Undertaking.Withdrawn, Undertaking.Groups, Undertaking.Granted, Exec, Inv, RowsReady,
         Prepared, Engaged, JournalRoom, PlannedJob;
    BindWritten(genesis, u);
    StepInv(genesis, u.s, BindIt(u));
    UndertakingPrepared(u, cfg);
    UndertakingReady(u, cfg);
    BoundRoom(u, cfg);
    ClaimedIsEngaged(genesis, u);
  }

  lemma BoundProspect(u: Undertaking, cfg: Config)
    requires Claimed(u) && u.Sound(cfg)
    ensures Prospect(Scope(cfg, u.s.forum, u.s.assignee, u.signer), u.Job(), Bound(u))
  {
    hide Undertaking.Sound, Undertaking.Withdrawn, Undertaking.Groups, ValidGrants, StatesLeft, PlanFor, GrantsInIntent;
    GrantsAreValid(u, cfg);
    StatesAreLeft(u, cfg);
  }

  lemma StatesAreLeft(u: Undertaking, cfg: Config)
    requires u.Sound(cfg)
    ensures StatesLeft(u.s.rows, u.to)
  {
  }

  lemma ClaimedIsEngaged(genesis: State, u: Undertaking)
    requires Inv(genesis, u.s) && Claimed(u) && Prepared(u.Job())
    ensures Engaged(u.Job(), Bound(u))
  {
    hide Undertaking.Withdrawn, Undertaking.Groups, Undertaking.Granted, Prepared;
  }

  predicate Untouched(shelf: Shelf, id: OperationId) {
    id !in shelf.registries && id !in shelf.documents && id !in shelf.plans
  }

  /** A claimed operation of an owner whose evidence is in order. */
  ghost predicate Launchable(cfg: Config, signer: Signer, s: State, id: OperationId, to: Key, at: nat) {
    Assignable(s, id, to) && InOrder(cfg, signer, s, id, to, at) && ClaimedOn(s, id, to, at)
  }

  lemma LaunchIsSound(u: Undertaking, cfg: Config)
    requires Launchable(cfg, u.signer, u.s, u.id, u.to, u.at)
    requires Planner.Covers(cfg, Elements(u.s.rows), u.s.destinations, u.s.assignee, u.souls)
    ensures u.Sound(cfg) && Claimed(u)
  {
  }

  /** Prepared and bound, the undertaking is what the driver needs. */
  lemma LaunchIsSmooth(u: Undertaking, cfg: Config, log: seq<State>, shelf: Shelf)
    requires log != [] && Inv(log[0], u.s) && Claimed(u) && u.Sound(cfg) && log[|log| - 1] == Bound(u)
    requires u.id in shelf.registries && shelf.registries[u.id] == u.Registry()
    requires u.id in shelf.documents && shelf.documents[u.id] == u.Document() && u.id !in shelf.plans
    ensures Smooth(Scope(cfg, u.s.forum, u.s.assignee, u.signer), Scene(log, u.at, shelf, true, |log| - 1, true),
                   u.Job())
  {
    hide Undertaking.Sound, Undertaking.Withdrawn, Undertaking.Groups, Undertaking.Granted, Prospect, OnTrack,
         ValidDocument, ValidGrants;
    SoundFacts(u, cfg);
    DocumentIsValid(u, cfg);
    BoundOnTrack(log[0], u, cfg);
    BoundProspect(u, cfg);
  }
}
