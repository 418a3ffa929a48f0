/** The create-once documents of one operation (lib/delegation-outbox.ts, -bound-outbox.ts,
    -replacement-grants.ts): what is accepted, what a load returns, and that all clients who
    prepare or load get the same document whatever the others do meanwhile. */
module Outbox {
  import opened Identity
  import opened Authority
  import opened Documents
  import opened Journal
  import opened Protocol
  import opened Deployment

  const MAX_RECORDS := 256
  const MAX_GRANTS := 512

  /** A call throws, finds nothing, or returns a document. */
  datatype Load<T> = Broken | Absent | Found(value: T)

  predicate ValidDocument(doc: CancellationOperation) {
    && doc.operation.Hex? && IsObjectIdOf(doc.forum, Forum) && IsSeaPubkey(doc.agent)
    && (doc.replacement.Some? ==> IsSeaPubkey(doc.replacement.value) && doc.replacement.value != doc.agent)
    && 0 < |doc.cancellations| <= MAX_RECORDS
    && (forall c | c in doc.cancellations :: WellFormed(c) && IsCancellation(c))
    && NoDuplicates(doc.cancellations)
  }

  predicate ValidGrants(grants: seq<Row>) {
    && 0 < |grants| <= MAX_GRANTS
    && (forall g | g in grants :: g.Direct? && WellFormed(g) && !IsCancellation(g))
    && (forall i, j :: 0 <= i < j < |grants| ==> SoulOf(grants[i]) != SoulOf(grants[j]))
  }

  predicate GrantsInIntent(grants: seq<Row>, to: Key, destinations: seq<ObjectId>) {
    forall g | g in grants :: g.Direct? && g.accessor == to && g.target in destinations
  }

  /** The validating map of `snapshotCancellationOperation`. */
  method SnapshotOperation(doc: CancellationOperation) returns (ok: bool)
    ensures ok == ValidDocument(doc)
  {
    if !doc.operation.Hex? || !IsObjectIdOf(doc.forum, Forum) || !IsSeaPubkey(doc.agent) ||
       |doc.cancellations| == 0 || |doc.cancellations| > MAX_RECORDS {
      return false;
    }
    if doc.replacement.Some? && (!IsSeaPubkey(doc.replacement.value) || doc.replacement.value == doc.agent) {
      return false;
    }
    var seen: set<Row> := {};
    for i := 0 to |doc.cancellations|
      invariant seen == Elements(doc.cancellations[..i])
      invariant forall c | c in doc.cancellations[..i] :: WellFormed(c) && IsCancellation(c)
      invariant NoDuplicates(doc.cancellations[..i])
    {
      var c := doc.cancellations[i];
      if !WellFormed(c) || !IsCancellation(c) {
        assert c in doc.cancellations;
        return false;
      }
      if c in seen {
        var j :| 0 <= j < i && doc.cancellations[..i][j] == c;
        assert doc.cancellations[j] == doc.cancellations[i];
        return false;
      }
      seen := seen + {c};
      assert doc.cancellations[..i + 1] == doc.cancellations[..i] + [c];
    }
    assert doc.cancellations[..|doc.cancellations|] == doc.cancellations;
    return true;
  }

  /** The validating map of `snapshotGrants`: one grant per address. */
  method SnapshotGrants(grants: seq<Row>) returns (ok: bool)
    ensures ok == ValidGrants(grants)
  {
    if |grants| == 0 || |grants| > MAX_GRANTS {
      return false;
    }
    var souls: set<Soul> := {};
    for i := 0 to |grants|
      invariant forall soul :: soul in souls <==> exists j :: 0 <= j < i && SoulOf(grants[j]) == soul
      invariant forall g | g in grants[..i] :: g.Direct? && WellFormed(g) && !IsCancellation(g)
      invariant forall j, k :: 0 <= j < k < i ==> SoulOf(grants[j]) != SoulOf(grants[k])
    {
      var g := grants[i];
      if !g.Direct? || !WellFormed(g) || IsCancellation(g) {
        assert g in grants;
        return false;
      }
      if SoulOf(g) in souls {
        return false;
      }
      souls := souls + {SoulOf(g)};
      assert grants[..i + 1] == grants[..i] + [g];
    }
    assert grants[..|grants|] == grants;
    return true;
  }

  // ------------------------------------------------------------ what a shelf holds

  function FenceAt(shelf: Shelf, forum: ObjectId, agent: Key, id: OperationId): Option<Fence> {
    if id.Hex? && id in shelf.registries then Some(Fence.Fence(forum, agent, id, shelf.registries[id])) else None
  }

  predicate BoundDocument(doc: CancellationOperation, forum: ObjectId, agent: Key, id: OperationId, fence: Fence) {
    doc.operation == id && doc.forum == forum && doc.agent == agent && doc.fence == fence
  }

  function DocumentAt(shelf: Shelf, forum: ObjectId, agent: Key, id: OperationId): Load<CancellationOperation> {
    var fence := FenceAt(shelf, forum, agent, id);
    if fence.None? then Broken
    else if id !in shelf.documents then Absent
    else if ValidDocument(shelf.documents[id]) && BoundDocument(shelf.documents[id], forum, agent, id, fence.value)
    then Found(shelf.documents[id])
    else Broken
  }

  function PlanAt(shelf: Shelf, forum: ObjectId, agent: Key, id: OperationId, to: Key): Load<GrantPlan> {
    match DocumentAt(shelf, forum, agent, id)
    case Found(doc) =>
      if doc.replacement != Some(to) then Broken
      else if id !in shelf.plans then Absent
      else
        var plan := shelf.plans[id];
        if plan.operation == id && plan.binding == PlanBinding(doc, shelf.registries[id]) &&
           ValidGrants(plan.grants) && GrantsInIntent(plan.grants, to, shelf.registries[id])
        then Found(plan) else Broken
    case _ => Broken
  }

  /** A document with the intent to reassign to `to`. */
  predicate FoundFor(shelf: Shelf, forum: ObjectId, agent: Key, id: OperationId, to: Key) {
    DocumentAt(shelf, forum, agent, id).Found? && DocumentAt(shelf, forum, agent, id).value.replacement == Some(to)
  }

  /** Agreement: a document once found is what every later load finds, and a plan too. */
  lemma LoadsAgree(a: Shelf, b: Shelf, forum: ObjectId, agent: Key, id: OperationId, to: Key)
    requires ShelfKept(a, b)
    ensures DocumentAt(a, forum, agent, id).Found? ==>
            DocumentAt(b, forum, agent, id) == DocumentAt(a, forum, agent, id)
    ensures PlanAt(a, forum, agent, id, to).Found? ==>
            PlanAt(b, forum, agent, id, to) == PlanAt(a, forum, agent, id, to)
  {
  }

  /** Found material is bound to its operation: what the journal discipline asks of it. */
  lemma FoundIsScoped(shelf: Shelf, forum: ObjectId, op: Operation)
    requires Orderly(shelf, true) && DocumentAt(shelf, forum, op.previous, op.id).Found?
    ensures ScopedTo(DocumentAt(shelf, forum, op.previous, op.id).value, forum, op)
  {
  }

  lemma FoundIsPlanned(shelf: Shelf, forum: ObjectId, agent: Key, id: OperationId, to: Key)
    requires PlanAt(shelf, forum, agent, id, to).Found?
    ensures FoundFor(shelf, forum, agent, id, to)
    ensures PlanFor(DocumentAt(shelf, forum, agent, id).value, PlanAt(shelf, forum, agent, id, to).value)
  {
  }

  function FenceIn(shelf: Shelf, id: OperationId): Option<seq<ObjectId>> {
    if id in shelf.registries then Some(shelf.registries[id]) else None
  }

  lemma DocumentsStay(a: Course, b: Course, id: OperationId)
    requires Follows(a, b)
    ensures id in a.shelf.registries ==> FenceIn(b.shelf, id) == FenceIn(a.shelf, id)
    ensures id in a.shelf.documents ==> id in b.shelf.documents && b.shelf.documents[id] == a.shelf.documents[id]
    ensures id in a.shelf.plans ==> id in b.shelf.plans && b.shelf.plans[id] == a.shelf.plans[id]
  {
  }

  // ------------------------------------------------------------ the two outboxes

  class BoundOutbox {
    const world: World
    const forum: ObjectId
    const agent: Key

    constructor (world: World, forum: ObjectId, agent: Key)
      ensures this.world == world && this.forum == forum && this.agent == agent
    {
      this.world, this.forum, this.agent := world, forum, agent;
    }

    method Binding(id: OperationId) returns (fence: Option<Fence>)
      requires world.Valid()
      modifies world
      ensures world.Valid() && Follows(old(world.Trail()), world.Trail())
      ensures fence.Some? ==> fence == FenceAt(world.shelf, forum, agent, id)
      ensures old(world.Calm()) ==> world.Still() && fence == FenceAt(world.shelf, forum, agent, id)
    {
      hide LegalRun;
      if !id.Hex? {
        return None;
      }
      var alive := world.Await();
      return if alive then FenceAt(world.shelf, forum, agent, id) else None;
    }

    method Load(id: OperationId) returns (r: Load<CancellationOperation>)
      requires world.Valid()
      modifies world
      ensures world.Valid() && Follows(old(world.Trail()), world.Trail())
      ensures r.Found? ==> r == DocumentAt(world.shelf, forum, agent, id)
      ensures r.Absent? ==> id !in old(world.shelf).documents
      ensures old(world.Calm()) ==> world.Still() && r == DocumentAt(world.shelf, forum, agent, id)
    {
      hide LegalRun, ValidDocument;
      var fence := Binding(id);
      if fence.None? {
        return Broken;
      }
      var alive := world.Await();
      if !alive {
        return Broken;
      }
      var text := if id in world.shelf.documents then Some(world.shelf.documents[id]) else None;
      if text.Some? {
        var ok := SnapshotOperation(text.value);
        if !ok || text.value.operation != id {
          return Broken;
        }
      }
      var again := Binding(id);
      if again != fence {
        return Broken;
      }
      if text.None? {
        return Absent;
      }
      if !BoundDocument(text.value, forum, agent, id, fence.value) {
        return Broken;
      }
      return Found(text.value);
    }

    method LoadReassignment(id: OperationId, to: Key) returns (saved: Option<CancellationOperation>)
      requires world.Valid()
      modifies world
      ensures world.Valid() && Follows(old(world.Trail()), world.Trail())
      ensures saved.Some? ==>
              DocumentAt(world.shelf, forum, agent, id) == Found(saved.value) && saved.value.replacement == Some(to)
      ensures old(world.Calm()) ==> world.Still()
      ensures old(world.Calm()) && FoundFor(world.shelf, forum, agent, id, to) ==> saved.Some?
    {
      hide LegalRun;
      if !IsSeaPubkey(to) || to == agent {
        return None;
      }
      var r := Load(id);
      return if r.Found? && r.value.replacement == Some(to) then Some(r.value) else None;
    }

    /** The document that is created when the registry is frozen as on this shelf. */
    function RequestAt(shelf: Shelf, id: OperationId, to: Key, cancellations: seq<Row>): CancellationOperation
      requires id in shelf.registries
    {
      CancellationOperation(id, forum, agent, Fence.Fence(forum, agent, id, shelf.registries[id]), Some(to),
                            cancellations)
    }

    /** The registry is frozen, this document would be accepted, and there is no other one. */
    predicate Requestable(shelf: Shelf, id: OperationId, to: Key, cancellations: seq<Row>) {
      && id in shelf.registries && ValidDocument(RequestAt(shelf, id, to, cancellations))
      && (id in shelf.documents ==> shelf.documents[id] == RequestAt(shelf, id, to, cancellations))
    }

    lemma RequestIsValid(shelf: Shelf, id: OperationId, to: Key, cancellations: seq<Row>)
      requires id in shelf.registries
      ensures var request := RequestAt(shelf, id, to, cancellations);
              && (ValidDocument(request) <==> ValidDocument(request.(fence := Unbound)))
              && (ValidDocument(request) ==> id.Hex? && IsSeaPubkey(to) && to != agent)
              && (|cancellations| <= 3 * |Elements(shelf.registries[id])| ==> OfPlannerSize(request))
    {
    }

    /** Create, then read back. Success means that the one document of this operation is
        exactly the requested one, for every client and for good. Where documents are planned,
        the cancellations are those of a plan for a registry that is frozen already. */
    method PrepareReassignment(id: OperationId, to: Key, cancellations: seq<Row>)
      returns (saved: Option<CancellationOperation>)
      requires world.Valid()
      requires world.planned ==>
                 id in world.shelf.registries && |cancellations| <= 3 * |Elements(world.shelf.registries[id])|
      modifies world
      ensures world.Valid() && Follows(old(world.Trail()), world.Trail())
      ensures saved.Some? ==>
                && DocumentAt(world.shelf, forum, agent, id) == Found(saved.value)
                && saved.value.replacement == Some(to) && saved.value.cancellations == cancellations
      ensures old(id in world.shelf.documents && world.shelf.documents[id].cancellations != cancellations) ==>
              saved == None
      ensures old(world.Calm()) ==> world.ShelfOnly()
      ensures old(world.Calm() && Requestable(world.shelf, id, to, cancellations)) ==>
                && saved == Some(RequestAt(old(world.shelf), id, to, cancellations))
                && world.shelf == old(world.shelf).(documents := old(world.shelf).documents[id := saved.value])
    {
      hide LegalRun, ValidDocument, Follows, Orderly, OfPlannerSize;
      FollowsReflexive(world.Trail());
      if id in world.shelf.registries {
        RequestIsValid(world.shelf, id, to, cancellations);
      }
      if !IsSeaPubkey(to) || to == agent {
        return None;
      }
      var request := CancellationOperation(id, forum, agent, Unbound, Some(to), cancellations);
      var ok := SnapshotOperation(request);
      if !ok {
        return None;
      }
      var fence := Binding(id);
      ghost var first := world.Trail();
      if fence.None? {
        return None;
      }
      request := request.(fence := fence.value);
      var alive := world.Await();
      ghost var second := world.Trail();
      FollowsTransitive(old(world.Trail()), first, second);
      if !alive {
        return None;
      }
      DocumentsStay(old(world.Trail()), first, id);
      assert id in old(world.shelf).registries ==> request == RequestAt(old(world.shelf), id, to, cancellations);
      world.Create(SaveDocument(id, request));
      ghost var third := world.Trail();
      FollowsTransitive(old(world.Trail()), second, third);
      var r := Load(id);
      FollowsTransitive(old(world.Trail()), third, world.Trail());
      DocumentsStay(old(world.Trail()), world.Trail(), id);
      return if r == Found(request) then Some(request) else None;
    }
  }

  class ReplacementOutbox {
    const world: World
    const outbox: BoundOutbox

    constructor (outbox: BoundOutbox)
      ensures this.outbox == outbox && world == outbox.world
    {
      this.outbox, this.world := outbox, outbox.world;
    }

    method Binding(id: OperationId, to: Key) returns (r: Option<PlanBinding>)
      requires world == outbox.world && world.Valid()
      modifies world
      ensures world.Valid() && Follows(old(world.Trail()), world.Trail())
      ensures r.Some? ==> Binds(world.shelf, id, to, r.value)
      ensures old(world.Calm()) ==> world.Still()
      ensures old(world.Calm()) && FoundFor(world.shelf, outbox.forum, outbox.agent, id, to) ==> r.Some?
    {
      hide LegalRun, ValidDocument;
      var saved := outbox.LoadReassignment(id, to);
      if saved.None? {
        return None;
      }
      var alive := world.Await();
      LoadsAgree(old(world.shelf), world.shelf, outbox.forum, outbox.agent, id, to);
      if !alive || id !in world.shelf.registries {
        return None;
      }
      return Some(PlanBinding(saved.value, world.shelf.registries[id]));
    }

    ghost predicate Binds(shelf: Shelf, id: OperationId, to: Key, b: PlanBinding) {
      && DocumentAt(shelf, outbox.forum, outbox.agent, id) == Found(b.saved) && b.saved.replacement == Some(to)
      && id in shelf.registries && b.destinations == shelf.registries[id]
    }

    method Load(id: OperationId, to: Key) returns (r: Load<GrantPlan>)
      requires world == outbox.world && world.Valid()
      modifies world
      ensures world.Valid() && Follows(old(world.Trail()), world.Trail())
      ensures r.Found? ==> r == PlanAt(world.shelf, outbox.forum, outbox.agent, id, to)
      ensures r.Absent? ==> id !in old(world.shelf).plans
      ensures old(world.Calm()) ==> world.Still() && r == PlanAt(world.shelf, outbox.forum, outbox.agent, id, to)
    {
      hide LegalRun, ValidDocument, ValidGrants, Orderly, FaithfulBytes, OfPlannerSize;
      var before := Binding(id, to);
      if before.None? {
        return Broken;
      }
      var alive := world.Await();
      if !alive {
        return Broken;
      }
      var text := if id in world.shelf.plans then Some(world.shelf.plans[id]) else None;
      if text.Some? {
        if text.value.operation != id || text.value.binding != before.value {
          return Broken;
        }
        var ok := SnapshotGrants(text.value.grants);
        if !ok || !GrantsInIntent(text.value.grants, to, before.value.destinations) {
          return Broken;
        }
      }
      var again := Binding(id, to);
      if again != before {
        return Broken;
      }
      return if text.None? then Absent else Found(text.value);
    }

    /** These grants would be accepted as the plan, and there is no other one. */
    predicate Plannable(shelf: Shelf, id: OperationId, to: Key, grants: seq<Row>) {
      && FoundFor(shelf, outbox.forum, outbox.agent, id, to) && ValidGrants(grants)
      && id in shelf.registries && GrantsInIntent(grants, to, shelf.registries[id])
      && (id in shelf.plans ==> shelf.plans[id] == PlanRequest(shelf, id, to, grants))
    }

    function PlanRequest(shelf: Shelf, id: OperationId, to: Key, grants: seq<Row>): GrantPlan
      requires FoundFor(shelf, outbox.forum, outbox.agent, id, to) && id in shelf.registries
    {
      GrantPlan(id, PlanBinding(DocumentAt(shelf, outbox.forum, outbox.agent, id).value, shelf.registries[id]), grants)
    }

    method Prepare(id: OperationId, to: Key, grants: seq<Row>) returns (plan: Option<GrantPlan>)
      requires world == outbox.world && world.Valid()
      modifies world
      ensures world.Valid() && Follows(old(world.Trail()), world.Trail())
      ensures plan.Some? ==>
              PlanAt(world.shelf, outbox.forum, outbox.agent, id, to) == Found(plan.value) &&
              plan.value.grants == grants
      ensures old(id in world.shelf.plans && world.shelf.plans[id].grants != grants) ==> plan == None
      ensures old(world.Calm()) ==> world.ShelfOnly()
      ensures old(world.Calm()) && Plannable(old(world.shelf), id, to, grants) ==>
                && plan == Some(PlanRequest(old(world.shelf), id, to, grants))
                && world.shelf == old(world.shelf).(plans := old(world.shelf).plans[id := plan.value])
    {
      hide LegalRun, ValidDocument, ValidGrants, Follows, Orderly, FaithfulBytes, OfPlannerSize, ShelfKept, WellFormed,
           IsCancellation, SoulOf;
      FollowsReflexive(world.Trail());
      var ok := SnapshotGrants(grants);
      if !ok {
        return None;
      }
      var bound := Binding(id, to);
      ghost var first := world.Trail();
      if bound.None? || !GrantsInIntent(grants, to, bound.value.destinations) {
        return None;
      }
      var request := GrantPlan(id, bound.value, grants);
      var alive := world.Await();
      ghost var second := world.Trail();
      FollowsTransitive(old(world.Trail()), first, second);
      if !alive {
        return None;
      }
      world.Create(SavePlan(id, request));
      ghost var third := world.Trail();
      FollowsTransitive(old(world.Trail()), second, third);
      var r := Load(id, to);
      FollowsTransitive(old(world.Trail()), third, world.Trail());
      DocumentsStay(old(world.Trail()), world.Trail(), id);
      return if r == Found(request) then Some(request) else None;
    }
  }
}
