/** Saved documents of one reassignment and the digests that bind them. A digest is
    injective and domain separated, so it is modelled by the document it is taken of. */
module Documents {
  import opened Identity
  import opened Authority

  /** Thirty-two lower-case hexadecimal digits, or another string. */
  datatype OperationId = Hex(digits: nat) | NotAnId(text: nat)

  /** Digest of the coordinator scope and of the exact frozen destination registry. */
  datatype Fence =
    | Unbound
    | Fence(forum: ObjectId, agent: Key, operation: OperationId, destinations: seq<ObjectId>)

  datatype CancellationOperation = CancellationOperation(
    operation: OperationId, forum: ObjectId, agent: Key, fence: Fence,
    replacement: Option<Key>, cancellations: seq<Row>)

  /** `operationDigest` of a plan covers the whole cancellation document and registry. */
  datatype PlanBinding = PlanBinding(saved: CancellationOperation, destinations: seq<ObjectId>)

  datatype GrantPlan = GrantPlan(operation: OperationId, binding: PlanBinding, grants: seq<Row>)

  /** Sixty-four hexadecimal digits, or another string. */
  datatype Digest =
    | OfCancellations(document: CancellationOperation)
    | OfGrants(plan: GrantPlan)
    | OfOther(digits: nat)
    | NotADigest(text: nat)

  predicate IsDigest(digest: Digest) {
    !digest.NotADigest?
  }

  datatype DrawerKind = SubtaskRecord | UpdateRecord | PromptRecord | ArtifactRecord
  datatype TaskState = NoTask | TaskPending | TaskRunning | TaskDone | TaskFailed

  /** The signed payload of one drawer child (lib/forum-drawer.ts). The body is
      represented by its length and a token for its text. */
  datatype DrawerRecord = DrawerRecord(
    kind: DrawerKind, forum: ObjectId, agent: Key, id: ObjectId, writer: Key,
    rev: nat, issuedAt: nat, stated: bool, bodyLength: nat, body: nat,
    state: TaskState, target: Option<ObjectId>)

  function PrefixOf(kind: DrawerKind): Kind {
    match kind
    case SubtaskRecord => Subtask
    case UpdateRecord => Update
    case PromptRecord => Prompt
    case ArtifactRecord => Artifact
  }

  const MAX_SAFE_INTEGER: nat := 9007199254740991

  predicate ParsesDrawerRecord(r: DrawerRecord) {
    && IsObjectIdOf(r.forum, Forum)
    && IsSeaPubkey(r.agent) && IsSeaPubkey(r.writer)
    && IsObjectIdOf(r.id, PrefixOf(r.kind)) && PrincipalOf(r.id) == r.agent
    && r.rev <= MAX_SAFE_INTEGER && r.issuedAt <= MAX_SAFE_INTEGER
    && 0 < r.bodyLength <= 2048
    && (if r.kind == ArtifactRecord then r.target.Some? && IsObjectId(r.target.value) else r.target == None)
    && (r.kind == SubtaskRecord <==> r.state != NoTask)
  }

  datatype Signature = Signature(token: nat, length: nat)

  datatype Child = Child(record: DrawerRecord, signature: Signature)
}
