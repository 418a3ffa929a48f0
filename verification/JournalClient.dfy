/** The calls of the journal (lib/delegation-journal.ts:67-197) as a client makes them: read,
    guard, conditional write, with everybody else acting at each wait. */
module JournalClient {
  import opened Identity
  import opened Authority
  import opened Documents
  import opened Journal
  import opened JournalRuns
  import opened Protocol
  import opened Reservation
  import opened Deployment

  /** A lost call is one whose client crashed or was turned away, or whose swap met a conflict. */
  datatype Reply = Replied(outcome: Outcome) | Lost

  /** A document that fitted an operation fits it as long as it is pending. */
  lemma BindIsLegal(cfg: Config, log: seq<State>, b: nat, v: nat, c: Command, at: nat)
    requires LegalRun(cfg, log) && b <= v < |log| && c.BindCancellations? && c.digest.OfCancellations?
    requires log[b].operation.Some? && log[b].operation.value.id == c.id
    requires ScopedTo(c.digest.document, log[b].forum, log[b].operation.value)
    requires CoversDestinations(c.digest.document, log[b].destinations)
    requires Attempt(log[v], c).Written?
    ensures Legal(cfg, log[v], c, at)
  {
    LegalRunIsRun(cfg, log);
    assert SameOperation(log[b], log[v]) && log[v].operation.value.phase == Cancelling;
    hide Attempt, Exec, ScopedTo;
    OperationAdvances(log, b, v);
    RunSince(log, b, v);
    ReservationHolds(cfg, log, b, v);
    SameScope(c.digest.document, log[b].forum, log[b].operation.value, log[v].operation.value);
  }

  lemma SameScope(doc: CancellationOperation, forum: ObjectId, a: Operation, b: Operation)
    requires SameIntent(a, b) && ScopedTo(doc, forum, a)
    ensures ScopedTo(doc, forum, b)
  {
  }

  class AssignmentJournal {
    const world: World

    constructor (world: World)
      ensures this.world == world
    {
      this.world := world;
    }

    /** A reply says what the command does to one version that was current during the call;
        if it wrote, that version's successor is what it wrote. */
    twostate predicate Answered(r: Reply, seen: nat, c: Command)
      reads world
    {
      && world.Valid() && Follows(old(world.Trail()), world.Trail())
      && (r.Replied? ==>
            && old(world.etag) <= seen <= world.etag
            && r.outcome == Exec(world.log[seen], c)
            && (r.outcome.Written? ==> seen < world.etag && world.log[seen + 1] == r.outcome.next))
      && (old(world.Calm()) ==>
            && world.Calm() && r == Replied(Exec(old(world.state), c)) && world.clock == old(world.clock)
            && world.shelf == old(world.shelf)
            && world.log == old(world.log) + if r.outcome.Written? then [r.outcome.next] else [])
    }

    /** Serialize, re-parse, swap. */
    method Write(etag: nat, next: State, ghost c: Command, ghost at: nat) returns (r: Reply)
      requires world.Valid() && etag <= world.etag
      requires Attempt(world.log[etag], c) == Written(next) && Legal(world.cfg, world.log[etag], c, at)
      modifies world
      ensures world.Valid() && Follows(old(world.Trail()), world.Trail())
      ensures r.Replied? ==> r.outcome == Exec(world.log[etag], c)
      ensures r.Replied? && r.outcome.Written? ==> etag < world.etag && world.log[etag + 1] == r.outcome.next
      ensures old(world.Calm()) ==>
                world.Calm() && world.clock == old(world.clock) && world.shelf == old(world.shelf)
      ensures old(world.Calm()) && etag == old(world.etag) ==>
                r.Replied? && world.log == old(world.log) + if r.outcome.Written? then [r.outcome.next] else []
    {
      hide Attempt, Legal, LegalRun;
      if !Parses(next) {
        return Replied(Refused(InvalidNext));
      }
      var alive := world.Await();
      if !alive {
        return Lost;
      }
      assert world.log[etag] == old(world.log[etag]);
      var ok := world.CompareAndSwap(etag, next, c, at);
      return if ok then Replied(Written(next)) else Lost;
    }

    method Claim(actor: Key, id: OperationId, to: Key, expected: nat) returns (r: Reply, ghost seen: nat)
      requires world.Valid()
      modifies world
      ensures Answered(r, seen, Command.Claim(actor, id, to, expected))
    {
      ghost var c := Command.Claim(actor, id, to, expected);
      hide Parses, LegalRun, OperationAllowed;
      seen := world.etag;
      if !id.Hex? || !IsSeaPubkey(to) {
        return Replied(Refused(InvalidIntent)), seen;
      }
      var alive := world.Await();
      if !alive {
        return Lost, seen;
      }
      var s, etag := world.state, world.etag;
      seen := etag;
      if actor != s.owner {
        return Replied(Refused(OwnerRequired)), seen;
      }
      if s.operation.Some? && s.operation.value.id == id {
        return Replied(if Active(s, id, to) then Keep else Refused(StaleOperation)), seen;
      }
      if id in s.used {
        return Replied(Refused(RetiredId)), seen;
      }
      if Pending(s) {
        return Replied(Refused(OperationPending)), seen;
      }
      if |s.rows| + |s.destinations| * 5 > MAX_JOURNAL_ROWS {
        return Replied(Refused(NoCapacity)), seen;
      }
      if s.revision != expected || s.assignee == to || s.owner == to {
        return Replied(Refused(Conflict)), seen;
      }
      var op := Operation(id, s.assignee, to, Cancelling, None, None);
      r := Write(etag, s.(revision := s.revision + 1, used := s.used + [id], operation := Some(op)), c, 0);
    }

    method BindCancellations(actor: Key, id: OperationId, to: Key, digest: Digest, ghost b: nat)
      returns (r: Reply, ghost seen: nat)
      requires world.Valid() && digest.OfCancellations? && b <= world.etag
      requires world.log[b].operation.Some? && world.log[b].operation.value.id == id
      requires ScopedTo(digest.document, world.log[b].forum, world.log[b].operation.value)
      requires CoversDestinations(digest.document, world.log[b].destinations)
      modifies world
      ensures Answered(r, seen, Command.BindCancellations(actor, id, to, digest))
    {
      ghost var c := Command.BindCancellations(actor, id, to, digest);
      hide Parses, LegalRun, OperationAllowed, ScopedTo, CoversDestinations, Legal;
      seen := world.etag;
      var alive := world.Await();
      if !alive {
        return Lost, seen;
      }
      var s, etag := world.state, world.etag;
      seen := etag;
      if actor != s.owner {
        return Replied(Refused(OwnerRequired)), seen;
      }
      if !Active(s, id, to) {
        return Replied(Refused(StaleOperation)), seen;
      }
      if s.operation.value.cancellationDigest.Some? {
        return Replied(if s.operation.value.cancellationDigest.value == digest then Keep else Refused(MaterialChanged)),
               seen;
      }
      if s.operation.value.phase != Cancelling {
        return Replied(Refused(MissingDigest)), seen;
      }
      BindIsLegal(world.cfg, world.log, b, etag, c, 0);
      r := Write(etag, WithOperation(s, s.operation.value.(cancellationDigest := Some(digest))), c, 0);
    }

    method Abort(actor: Key, id: OperationId) returns (r: Reply, ghost seen: nat)
      requires world.Valid()
      modifies world
      ensures Answered(r, seen, Command.Abort(actor, id))
    {
      ghost var c := Command.Abort(actor, id);
      hide Parses, LegalRun, OperationAllowed;
      seen := world.etag;
      var alive := world.Await();
      if !alive {
        return Lost, seen;
      }
      var s, etag := world.state, world.etag;
      seen := etag;
      if actor != s.owner {
        return Replied(Refused(OwnerRequired)), seen;
      }
      if s.operation.None? || s.operation.value.id != id {
        return Replied(Refused(StaleOperation)), seen;
      }
      if s.operation.value.phase == Aborted {
        return Replied(Keep), seen;
      }
      if s.operation.value.phase != Cancelling {
        return Replied(Refused(ReplacementStarted)), seen;
      }
      r := Write(etag, WithOperation(s, s.operation.value.(phase := Aborted)), c, 0);
    }

    method Admit(actor: Key, expected: nat, destination: ObjectId, rows: seq<Row>) returns (r: Reply, ghost seen: nat)
      requires world.Valid()
      modifies world
      ensures Answered(r, seen, Command.Admit(actor, expected, destination, rows))
    {
      ghost var c := Command.Admit(actor, expected, destination, rows);
      hide Parses, LegalRun, OperationAllowed, WellFormed, SortedSet, Additions;
      seen := world.etag;
      var alive := world.Await();
      if !alive {
        return Lost, seen;
      }
      var s, etag := world.state, world.etag;
      seen := etag;
      if actor != s.owner {
        return Replied(Refused(OwnerRequired)), seen;
      }
      if Pending(s) {
        return Replied(Refused(OperationPending)), seen;
      }
      if s.revision != expected || !IsObjectId(destination) {
        return Replied(Refused(Conflict)), seen;
      }
      var additions := NewRows(s.rows, rows);
      if additions.None? {
        return Replied(Refused(InvalidRow)), seen;
      }
      var next := Bump(s).(destinations := SortedSet(s.destinations + [destination]), rows := s.rows + additions.value);
      r := Write(etag, next, c, 0);
    }

    /** The rows that are not known yet, unless one of all the rows is malformed. */
    static method NewRows(known: seq<Row>, rows: seq<Row>) returns (additions: Option<seq<Row>>)
      ensures additions.None? <==> exists row :: row in rows && !WellFormed(row)
      ensures additions.Some? ==> additions.value == Additions(known, rows)
    {
      hide WellFormed;
      var found: seq<Row> := [];
      assert rows[0..] == rows;
      for i := 0 to |rows|
        invariant forall row | row in rows[..i] :: WellFormed(row)
        invariant found + Additions(known, rows[i..]) == Additions(known, rows)
      {
        if !WellFormed(rows[i]) {
          assert rows[i] in rows;
          return None;
        }
        assert rows[i..][1..] == rows[i + 1..];
        if rows[i] !in known {
          found := found + [rows[i]];
        }
      }
      assert rows[..|rows|] == rows;
      return Some(found);
    }

    method WriteChild(expected: nat, child: Child) returns (r: Reply, ghost seen: nat)
      requires world.Valid()
      modifies world
      ensures Answered(r, seen, Command.WriteChild(expected, child))
    {
      ghost var c := Command.WriteChild(expected, child);
      hide Parses, LegalRun, OperationAllowed;
      seen := world.etag;
      var alive := world.Await();
      if !alive {
        return Lost, seen;
      }
      var s, etag := world.state, world.etag;
      seen := etag;
      var id := child.record.id;
      if Pending(s) {
        return Replied(Refused(OperationPending)), seen;
      }
      if s.revision != expected || id !in s.destinations {
        return Replied(Refused(UnregisteredChild)), seen;
      }
      if id in s.children {
        var previous := s.children[id].record;
        if child.record.rev < previous.rev || (child.record.rev == previous.rev && child.record != previous) {
          return Replied(Refused(StaleChild)), seen;
        }
        if child.record.rev == previous.rev {
          return Replied(Keep), seen;
        }
      }
      r := Write(etag, Bump(s).(children := s.children[id := child]), c, 0);
    }
  }
}
