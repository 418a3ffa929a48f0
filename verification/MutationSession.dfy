/** A mutation session (lib/delegation-journal.ts:139-195): it opens on one version and from
    then on only ever extends its own last one. */
module MutationSession {
  import opened Identity
  import opened Authority
  import opened Documents
  import opened Journal
  import opened JournalRuns
  import opened Protocol
  import opened Deployment

  /** What a call leaves of the version it acted on. */
  function After(s: State, c: Command): State {
    match Exec(s, c)
    case Written(n) => n
    case _ => s
  }

  lemma ActiveAfter(s: State, c: Command, id: OperationId, to: Key)
    requires Active(s, id, to) && !c.Claim? && !c.Abort? && Attempt(s, c).Written?
    ensures Active(Attempt(s, c).next, id, to) && Attempt(s, c).next.owner == s.owner
  {
  }

  /** The versions after a call that acted on the newest one, `s`. */
  function Extend(log: seq<State>, s: State, c: Command): seq<State> {
    match Exec(s, c)
    case Written(n) => log + [n]
    case _ => log
  }

  predicate HasReceipt(s: State, id: OperationId, receipt: Receipt) {
    receipt.operation == id && id in s.receipts && s.receipts[id] == receipt
  }

  lemma Reparsed(s: State, c: Command, next: State)
    requires Attempt(s, c) == Written(next)
    ensures Exec(s, c) == if Parses(next) then Written(next) else Refused(InvalidNext)
  {
  }

  class Session {
    const world: World
    const actor: Key
    const id: OperationId
    const to: Key
    var etag: nat
    var live: bool
    /** The version the session opened on, and the positions of the versions it wrote. */
    ghost var base: nat
    ghost var mine: seq<nat>

    /** Contiguity: the session's versions are the ones right after `base`, in order, so
        nobody else's lies between them. It may have written one more than it knows of, if
        it was overtaken before it could confirm the write. */
    ghost predicate Valid()
      reads this, world
    {
      && world.Valid()
      && base <= etag <= world.etag
      && (forall k | 0 <= k < |mine| :: mine[k] == base + 1 + k)
      && (|mine| == etag - base || (|mine| == etag - base + 1 && etag < world.etag))
      && Active(world.log[etag], id, to) && world.log[etag].owner == actor
    }

    /** The session is alive and nobody has written since its own last version. */
    predicate Ahead()
      reads this, world
    {
      live && etag == world.etag && world.Calm()
    }

    /** What every call promises: once overtaken, a session never writes again. */
    twostate predicate Contiguous()
      reads this, world
    {
      && Follows(old(world.Trail()), world.Trail()) && base == old(base) && old(mine) <= mine && old(etag) <= etag
      && (old(world.etag) > old(etag) ==> mine == old(mine) && etag == old(etag))
      && (old(world.Calm()) ==> world.Calm() && world.clock == old(world.clock) && world.shelf == old(world.shelf))
    }

    constructor (world: World, actor: Key, id: OperationId, to: Key, etag: nat)
      requires world.Valid() && etag <= world.etag
      requires Active(world.log[etag], id, to) && world.log[etag].owner == actor
      ensures Valid() && live && this.world == world && this.actor == actor && this.id == id && this.to == to
      ensures this.etag == etag && base == etag && mine == []
    {
      this.world, this.actor, this.id, this.to := world, actor, id, to;
      this.etag, this.live, this.base, this.mine := etag, true, etag, [];
    }

    method Current() returns (s: Option<State>)
      requires Valid()
      modifies world
      ensures Valid() && Contiguous()
      ensures s.Some? ==> live && etag == world.etag && s.value == world.state
      ensures old(Ahead()) ==> s.Some? && Ahead() && world.log == old(world.log)
    {
      hide LegalRun, Active;
      if !live {
        return None;
      }
      var alive := world.Await();
      assert old(world.log[etag]) == world.log[etag];
      if !alive || world.state.owner != actor || !Active(world.state, id, to) || world.etag != etag {
        return None;
      }
      return Some(world.state);
    }

    method Swap(next: State, ghost c: Command, ghost at: nat) returns (swapped: bool)
      requires Valid() && live && Active(next, id, to) && next.owner == actor
      requires etag == world.etag ==>
               Exec(world.log[etag], c) == Written(next) && Legal(world.cfg, world.log[etag], c, at)
      modifies world, `mine
      ensures Valid() && Contiguous() && world.log[etag] == old(world.log[etag])
      ensures swapped ==>
              old(world.etag) == etag < world.etag && world.log[etag + 1] == next && |mine| == etag + 1 - base
      ensures old(Ahead()) ==> swapped && world.Calm() && world.log == old(world.log) + [next]
    {
      hide Exec, Legal, LegalRun, Active, Orderly;
      var alive := world.Await();
      assert old(world.log[etag]) == world.log[etag];
      if !alive {
        return false;
      }
      swapped := world.CompareAndSwap(etag, next, c, at);
      assert old(world.log[etag]) == world.log[etag];
      if swapped {
        mine := mine + [world.etag];
      }
    }

    /** Read back what was swapped in: anything but the session's own version means that
        somebody has written since, and ends the session's writing. */
    method Confirm(next: State) returns (ok: bool)
      requires Valid() && live && etag < world.etag && world.log[etag + 1] == next && |mine| == etag + 1 - base
      requires Active(next, id, to) && next.owner == actor
      modifies world, `etag
      ensures Valid() && Follows(old(world.Trail()), world.Trail()) && old(world.log[etag]) == world.log[old(etag)]
      ensures if ok then etag == old(etag) + 1 && world.log[etag] == next else etag == old(etag)
      ensures old(world.Calm()) ==> world.Still()
      ensures old(world.Calm()) && old(world.etag) == old(etag) + 1 ==> ok
    {
      hide LegalRun, Active, Orderly;
      var alive := world.Await();
      assert world.log[etag + 1] == next;
      if !alive || world.state != next {
        return false;
      }
      SameRevision(world.cfg, world.log, etag + 1, world.etag);
      etag := world.etag;
      return true;
    }

    /** Write, then read back. */
    method Change(next: State, ghost c: Command, ghost at: nat) returns (ok: bool)
      requires Valid() && live
      requires Attempt(world.log[etag], c) == Written(next) && !c.Claim? && !c.Abort?
      requires etag == world.etag ==> Legal(world.cfg, world.log[etag], c, at)
      modifies this, world
      ensures Valid() && Contiguous() && live
      ensures ok ==> etag == old(etag) + 1 && Exec(old(world.log[etag]), c) == Written(next) && world.log[etag] == next
      ensures !ok ==> etag == old(etag)
      ensures old(Ahead()) && Exec(old(world.state), c).Written? ==>
              ok && Ahead() && world.log == old(world.log) + [next]
    {
      hide Attempt, Exec, Legal, LegalRun, Active, Parses, Orderly, FaithfulBytes;
      ActiveAfter(world.log[etag], c, id, to);
      Reparsed(world.log[etag], c, next);
      if !Parses(next) {
        return false;
      }
      var swapped := Swap(next, c, at);
      if !swapped {
        return false;
      }
      ok := Confirm(next);
    }

    method BindPlan(digest: Digest, ghost at: nat) returns (ok: bool)
      requires Valid()
      requires etag == world.etag ==> Legal(world.cfg, world.log[etag], Command.BindPlan(actor, id, to, digest), at)
      modifies this, world
      ensures Does(ok, Command.BindPlan(actor, id, to, digest))
    {
      ghost var c := Command.BindPlan(actor, id, to, digest);
      hide Legal, LegalRun, Parses;
      var s := Current();
      assert old(world.log[etag]) == world.log[etag];
      if s == None || !IsDigest(digest) {
        return false;
      }
      var op := s.value.operation.value;
      if op.grantDigest.Some? {
        return op.grantDigest.value == digest;
      }
      if op.phase != Cancelling {
        return false;
      }
      ok := Change(WithOperation(s.value, op.(grantDigest := Some(digest))), c, at);
    }

    method Begin(ghost at: nat, ghost seen: nat) returns (ok: bool)
      requires Valid() && etag <= seen <= world.etag
      requires seen == etag ==> Legal(world.cfg, world.log[seen], Command.Begin(actor, id, to), at)
      modifies this, world
      ensures Does(ok, Command.Begin(actor, id, to))
    {
      ghost var c := Command.Begin(actor, id, to);
      hide Legal, LegalRun, Parses;
      var s := Current();
      assert old(world.log[etag]) == world.log[etag];
      if s == None {
        return false;
      }
      var op := s.value.operation.value;
      if op.grantDigest.None? {
        return false;
      }
      if op.phase == Replacing {
        return true;
      }
      if op.phase != Cancelling {
        return false;
      }
      ok := Change(WithOperation(s.value, op.(phase := Replacing)), c, at);
    }

    method Publish(phase: Phase, row: Row, ghost at: nat, ghost seen: nat) returns (ok: bool)
      requires Valid() && etag <= seen <= world.etag && phase in {Cancelling, Replacing}
      requires seen == etag ==> Legal(world.cfg, world.log[seen], Command.Publish(actor, id, to, phase, row), at)
      modifies this, world
      ensures Does(ok, Command.Publish(actor, id, to, phase, row))
    {
      ghost var c := Command.Publish(actor, id, to, phase, row);
      hide Legal, LegalRun, Parses, WellFormed;
      var s := Current();
      assert old(world.log[etag]) == world.log[etag];
      if s == None {
        return false;
      }
      var op := s.value.operation.value;
      if op.cancellationDigest.None? || (phase == Replacing && op.grantDigest.None?) || op.phase != phase ||
         !WellFormed(row) {
        return false;
      }
      if row in s.value.rows {
        return true;
      }
      ok := Change(Bump(s.value).(rows := s.value.rows + [row]), c, at);
    }

    /** The fence: the swap succeeds on the session's own version only, so evidence that was
        evaluated at or after that version was evaluated over exactly what it extends. */
    method Commit(evidence: Evidence, ghost seen: nat) returns (receipt: Option<Receipt>)
      requires Valid() && etag <= seen <= world.etag
      requires seen == etag ==> forall now ::
               Legal(world.cfg, world.log[seen], Command.Commit(actor, id, to, evidence, now), evidence.evaluatedAt)
      modifies this, world
      ensures Valid() && Contiguous()
      ensures receipt.Some? ==> HasReceipt(world.log[etag], id, receipt.value)
      ensures receipt.Some? && id !in old(world.log[etag]).receipts ==>
                etag == old(etag) + 1 && world.log[etag].rows == old(world.log[etag]).rows
      ensures var c := Command.Commit(actor, id, to, evidence, old(world.clock));
              old(Ahead()) && !Exec(old(world.state), c).Refused? ==>
                receipt.Some? && Ahead() && world.log == Extend(old(world.log), old(world.state), c)
    {
      hide Legal, LegalRun, Parses;
      var s := Current();
      assert old(world.log[etag]) == world.log[etag];
      if s == None {
        return None;
      }
      var now := world.clock;
      ghost var c := Command.Commit(actor, id, to, evidence, now);
      if evidence.operation != id || evidence.replacement != to || evidence.evaluatedAt != now {
        return None;
      }
      if id in s.value.receipts {
        SavedReceipt(world.cfg, world.log, world.etag, id);
        return Some(s.value.receipts[id]);
      }
      var op := s.value.operation.value;
      if op.cancellationDigest.None? || op.grantDigest.None? {
        return None;
      }
      var saved := Receipt(id, to, s.value.revision + 1, evidence.evaluatedAt);
      var next := WithOperation(s.value, op.(phase := Complete)).(assignee := to,
                                                                  receipts := s.value.receipts[id := saved]);
      assert Attempt(world.log[etag], c) == Written(next);
      hide Attempt, Exec;
      var ok := Change(next, c, evidence.evaluatedAt);
      return if ok then Some(saved) else None;
    }

    /** A call either has no effect that the session goes on from, or does to the session's
        version what the command says; and with nobody else about it always does. */
    twostate predicate Does(ok: bool, c: Command)
      reads this, world
    {
      && old(Valid()) && Valid() && Contiguous() && live == old(live)
      && (ok ==> !Exec(old(world.log[etag]), c).Refused? && world.log[etag] == After(old(world.log[etag]), c) && live)
      && (!ok ==> etag == old(etag))
      && (old(Ahead()) && !Exec(old(world.state), c).Refused? ==>
          ok && Ahead() && world.log == Extend(old(world.log), old(world.state), c))
    }
  }

  lemma SameRevision(cfg: Config, log: seq<State>, i: nat, j: nat)
    requires LegalRun(cfg, log) && i < |log| && j < |log| && log[i] == log[j]
    ensures i == j
  {
    LegalRunIsRun(cfg, log);
    RunInv(log, i);
    RunInv(log, j);
  }

  lemma SavedReceipt(cfg: Config, log: seq<State>, i: nat, id: OperationId)
    requires LegalRun(cfg, log) && i < |log| && id in log[i].receipts
    ensures log[i].receipts[id].operation == id
  {
    LegalRunIsRun(cfg, log);
    RunInv(log, i);
    assert ReceiptAllowed(log[i], id, log[i].receipts[id]);
  }
}
