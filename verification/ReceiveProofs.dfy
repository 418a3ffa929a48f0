/** Current-key proof receipts (lib/forum-receive-proofs.ts). A receipt is good only while
    everything it was proved from is: the keys, the contents and the conditions of the row
    itself and of every row it depends on, however deep. */
module ReceiveProofs {
  import opened Identity

  const MAX_IN_FLIGHT := 32
  const MAX_ADMISSIONS := 128

  type RowId = nat

  /** A row's condition together with the rows it depends on. */
  datatype Gate = Gate(condition: nat, pins: seq<Pin>)

  /** A dependency: a row, what it said and the keys that proved it, under its own gate. */
  datatype Pin = Pin(row: RowId, content: nat, keys: map<Key, nat>, gate: Gate)

  datatype Receipt = Receipt(keys: map<Key, nat>, content: nat, gate: Gate)

  /** What the application supplies and may change at any time: current keys, readiness, the
      serialization of each row object (absent when it has none) and its conditions. */
  datatype Env = Env(keys: map<Key, nat>, ready: bool, contents: map<RowId, nat>, conditions: set<nat>)

  predicate KeysCurrent(env: Env, keys: map<Key, nat>) {
    forall k | k in keys :: k in env.keys && env.keys[k] == keys[k]
  }

  predicate ContentIs(env: Env, row: RowId, content: nat) {
    row in env.contents && env.contents[row] == content
  }

  /** The closure that `retain` stores: the row's condition, then each dependency's check. */
  predicate Allowed(env: Env, gate: Gate) {
    gate.condition in env.conditions && forall p | p in gate.pins :: PinAllowed(env, p)
  }

  predicate PinAllowed(env: Env, p: Pin) {
    ContentIs(env, p.row, p.content) && Allowed(env, p.gate)
  }

  predicate ReceiptValid(env: Env, row: RowId, r: Receipt) {
    env.ready && ContentIs(env, row, r.content) && KeysCurrent(env, r.keys) && Allowed(env, r.gate)
  }

  // ------------------------------------------------------------ soundness

  /** Every key recorded anywhere below the gate is among `keys`. */
  predicate Covers(keys: map<Key, nat>, gate: Gate) {
    forall p | p in gate.pins :: Extends(keys, p.keys) && Covers(keys, p.gate)
  }

  predicate Extends(keys: map<Key, nat>, more: map<Key, nat>) {
    forall k | k in more :: k in keys && keys[k] == more[k]
  }

  /** What an application may rely on, for a row and the whole chain below it. */
  predicate Grounded(env: Env, gate: Gate) {
    gate.condition in env.conditions &&
    forall p | p in gate.pins :: ContentIs(env, p.row, p.content) && KeysCurrent(env, p.keys) && Grounded(env, p.gate)
  }

  /** Receipt soundness: a valid receipt is grounded all the way down. The check itself looks
      at the keys of the top row only. */
  lemma {:induction false} ValidIsGrounded(env: Env, keys: map<Key, nat>, gate: Gate)
    requires KeysCurrent(env, keys) && Covers(keys, gate)
    ensures Allowed(env, gate) <==> Grounded(env, gate)
    decreases gate
  {
    forall p | p in gate.pins
      ensures PinAllowed(env, p) <==>
              ContentIs(env, p.row, p.content) && KeysCurrent(env, p.keys) && Grounded(env, p.gate)
    {
      ValidIsGrounded(env, keys, p.gate);
    }
  }

  lemma {:induction false} CoversMore(keys: map<Key, nat>, more: map<Key, nat>, gate: Gate)
    requires Covers(keys, gate) && Extends(more, keys)
    ensures Covers(more, gate)
    decreases gate
  {
    forall p | p in gate.pins ensures Extends(more, p.keys) && Covers(more, p.gate) {
      CoversMore(keys, more, p.gate);
    }
  }

  // ------------------------------------------------------------ the controller

  class Proofs {
    var env: Env
    var inFlight: nat
    var operations: nat
    var receipts: map<RowId, Receipt>
    var admissions: map<Key, RowId>

    ghost predicate Valid()
      reads this
    {
      && inFlight <= MAX_IN_FLIGHT && |admissions| <= MAX_ADMISSIONS
      && forall row | row in receipts :: Covers(receipts[row].keys, receipts[row].gate)
    }

    constructor (env: Env)
      ensures Valid() && receipts == map[] && admissions == map[] && inFlight == 0
    {
      this.env := env;
      inFlight, operations, receipts, admissions := 0, 0, map[], map[];
    }

    predicate IsValid(row: RowId)
      reads this
    {
      row in receipts && ReceiptValid(env, row, receipts[row])
    }

    /** What a valid row stands on, whatever the application changed since it was retained. */
    lemma Soundness(row: RowId)
      requires Valid()
      ensures IsValid(row) <==>
                && row in receipts && env.ready && ContentIs(env, row, receipts[row].content)
                && KeysCurrent(env, receipts[row].keys) && Grounded(env, receipts[row].gate)
    {
      if row in receipts && KeysCurrent(env, receipts[row].keys) {
        ValidIsGrounded(env, receipts[row].keys, receipts[row].gate);
      }
    }

    /** Keys, contents and conditions move on their own. */
    method Observe(env: Env)
      requires Valid()
      modifies `env
      ensures Valid() && this.env == env
    {
      this.env := env;
    }

    method Interrupt()
      requires Valid()
      modifies `operations
      ensures Valid() && operations == old(operations) + 1
    {
      operations := operations + 1;
    }

    method Reset()
      requires Valid()
      modifies `operations, `receipts, `admissions
      ensures Valid() && operations == old(operations) + 1 && receipts == map[] && admissions == map[]
      ensures forall row :: !IsValid(row)
    {
      operations, receipts, admissions := operations + 1, map[], map[];
    }

    predicate Enrolled(principal: Key)
      reads this
    {
      principal in admissions && IsValid(admissions[principal])
    }

    method Enroll(principal: Key, row: RowId) returns (ok: bool)
      requires Valid()
      modifies `admissions
      ensures Valid()
      ensures ok <==> IsValid(row) && (principal in old(admissions) || |old(admissions)| < MAX_ADMISSIONS)
      ensures admissions == if ok then old(admissions)[principal := row] else old(admissions)
      ensures ok ==> Enrolled(principal)
    {
      if !IsValid(row) || (principal !in admissions && |admissions| >= MAX_ADMISSIONS) {
        return false;
      }
      SizeAfter(admissions, principal, row);
      admissions := admissions[principal := row];
      return true;
    }
  }

  lemma SizeAfter(m: map<Key, RowId>, k: Key, row: RowId)
    ensures |m[k := row]| == |m| + if k in m then 0 else 1
  {
    var n := m[k := row];
    assert n.Keys == m.Keys + {k};
    assert |n| == |n.Keys| && |m| == |m.Keys|;
  }

  /** An outstanding verification: whose key, and which key it was. */
  datatype Ticket = Ticket(principal: Key, key: nat)

  class Operation {
    const proofs: Proofs
    const number: nat
    var keys: map<Key, nat>
    var conflict: bool
    var pins: seq<Pin>

    ghost predicate Valid()
      reads this
    {
      conflict || forall p | p in pins :: Extends(keys, p.keys) && Covers(keys, p.gate)
    }

    constructor (proofs: Proofs)
      ensures Valid() && this.proofs == proofs && number == proofs.operations && keys == map[] && pins == [] &&
              !conflict && Current()
    {
      this.proofs, this.number := proofs, proofs.operations;
      keys, conflict, pins := map[], false, [];
    }

    predicate Current()
      reads this, proofs
    {
      && number == proofs.operations && !conflict && KeysCurrent(proofs.env, keys)
      && forall p | p in pins :: PinAllowed(proofs.env, p)
    }

    /** The part of `read` before its wait. A ticket counts against the limit until it is
        handed back, whatever else happens meanwhile. */
    method StartRead(principal: Key, signatureLength: nat) returns (ticket: Option<Ticket>)
      requires proofs.Valid()
      modifies proofs`inFlight
      ensures proofs.Valid()
      ensures proofs.inFlight == old(proofs.inFlight) + if ticket.Some? then 1 else 0
      ensures ticket.Some? <==>
                old(proofs.inFlight) < MAX_IN_FLIGHT && Current() && signatureLength <= 32768 &&
                  principal in proofs.env.keys
      ensures ticket.Some? ==> ticket.value == Ticket(principal, proofs.env.keys[principal])
    {
      if proofs.inFlight >= MAX_IN_FLIGHT || !Current() || signatureLength > 32768 || principal !in proofs.env.keys {
        return None;
      }
      proofs.inFlight := proofs.inFlight + 1;
      return Some(Ticket(principal, proofs.env.keys[principal]));
    }

    /** The part of `read` after its wait, with what the verification yielded under the
        ticket's key. A row comes back only if that key is still the principal's. */
    method FinishRead(ticket: Ticket, verified: Option<RowId>) returns (row: Option<RowId>)
      requires Valid() && proofs.Valid() && proofs.inFlight > 0
      modifies this, proofs`inFlight
      ensures Valid() && proofs.Valid() && proofs.inFlight == old(proofs.inFlight) - 1 && pins == old(pins)
      ensures row.Some? <==> verified.Some? && old(Current()) && ticket.principal in proofs.env.keys &&
                             proofs.env.keys[ticket.principal] == ticket.key
      ensures row.Some? ==> row == verified && conflict == old(conflict)
      ensures row.Some? ==>
              proofs.env.keys[ticket.principal] == ticket.key && keys == old(keys)[ticket.principal := ticket.key] &&
              Current()
      ensures row.None? ==> keys == old(keys)
    {
      proofs.inFlight := proofs.inFlight - 1;
      var p, key := ticket.principal, ticket.key;
      if verified.None? || !Current() || p !in proofs.env.keys || proofs.env.keys[p] != key {
        return None;
      }
      // The source tests here for an earlier read under another key; being current rules it out.
      assert p in keys ==> keys[p] == key;
      keys := keys[p := key];
      forall q | q in pins ensures Extends(keys, q.keys) && Covers(keys, q.gate) {
        CoversMore(old(keys), keys, q.gate);
      }
      return verified;
    }

    /** Rest on a row that is valid now: its keys become this operation's, its content and
        condition are checked with every later step. */
    method Depend(row: RowId) returns (ok: bool)
      requires Valid() && proofs.Valid()
      modifies this
      ensures Valid() && (ok <==> proofs.IsValid(row) && old(Current())) && (ok ==> Current())
      ensures proofs.IsValid(row) ==>
                pins == old(pins) + [Pin(row, proofs.receipts[row].content, proofs.receipts[row].keys,
                                         proofs.receipts[row].gate)]
      ensures !proofs.IsValid(row) ==> pins == old(pins) && keys == old(keys) && conflict == old(conflict)
      ensures ok ==> Extends(keys, old(keys)) && Extends(keys, proofs.receipts[row].keys)
    {
      if !proofs.IsValid(row) {
        return false;
      }
      var receipt := proofs.receipts[row];
      if exists k :: k in receipt.keys && k in keys && keys[k] != receipt.keys[k] {
        conflict := true;
      }
      pins := pins + [Pin(row, receipt.content, receipt.keys, receipt.gate)];
      keys := keys + receipt.keys;
      if !conflict {
        forall q | q in pins ensures Extends(keys, q.keys) && Covers(keys, q.gate) {
          if q in old(pins) {
            CoversMore(old(keys), keys, q.gate);
          } else {
            CoversMore(receipt.keys, keys, q.gate);
          }
        }
      }
      return Current();
    }

    /** Keep a receipt for the row. An operation that was begun before an interrupt or a reset
        never does; what is kept is valid at once, as far as readiness goes. */
    method Retain(row: RowId, condition: nat) returns (ok: bool)
      requires Valid() && proofs.Valid()
      modifies proofs`receipts
      ensures proofs.Valid()
      ensures ok <==> keys != map[] && Current() && row in proofs.env.contents && condition in proofs.env.conditions
      ensures ok ==> number == proofs.operations
      ensures proofs.receipts ==
                if ok then old(proofs.receipts)[row := Receipt(keys, proofs.env.contents[row], Gate(condition, pins))]
                   else old(proofs.receipts)
      ensures ok && proofs.env.ready ==> proofs.IsValid(row)
    {
      if keys == map[] || !Current() || row !in proofs.env.contents || condition !in proofs.env.conditions {
        return false;
      }
      proofs.receipts := proofs.receipts[row := Receipt(keys, proofs.env.contents[row], Gate(condition, pins))];
      return true;
    }
  }

  // ------------------------------------------------------------ whole histories

  /** What may happen to a controller and any number of operations, by their numbers in a list;
      the one that is watched comes first. */
  datatype Act =
    | Change(env: Env)
    | Cut
    | Clear
    | Enrol(principal: Key, row: RowId)
    | Begin
    | Read(op: nat, principal: Key, length: nat)
    | Answer(op: nat, ticket: Ticket, verified: Option<RowId>)
    | Rest(op: nat, row: RowId)
    | Keep(op: nat, row: RowId, condition: nat)

  /** All operations of this controller, each its own object. */
  ghost predicate Together(proofs: Proofs, ops: seq<Operation>)
    reads proofs, ops
  {
    && proofs.Valid() && ops != [] && (forall op | op in ops :: op.proofs == proofs && op.Valid())
    && (forall i, j :: 0 <= i < j < |ops| ==> ops[i] != ops[j])
  }

  predicate Mine(act: Act) {
    (act.Read? || act.Answer? || act.Rest? || act.Keep?) && act.op == 0
  }

  /** One act of an operation; `done` says that the operation got what it asked for. */
  method ActOn(proofs: Proofs, op: Operation, act: Act) returns (done: bool)
    requires op.proofs == proofs && proofs.Valid() && op.Valid()
    modifies proofs, op
    ensures proofs.Valid() && op.Valid() && proofs.operations == old(proofs.operations)
    ensures done ==> op.number == proofs.operations
  {
    hide Covers, Allowed, PinAllowed;
    done := false;
    match act
    case Read(_, principal, length) =>
      var ticket := op.StartRead(principal, length);
      done := ticket.Some?;
    case Answer(_, ticket, verified) =>
      if proofs.inFlight > 0 {
        var row := op.FinishRead(ticket, verified);
        done := row.Some?;
      }
    case Rest(_, row) => done := op.Depend(row);
    case Keep(_, row, condition) => done := op.Retain(row, condition);
    case _ =>
  }

  method Govern(proofs: Proofs, act: Act)
    requires proofs.Valid()
    modifies proofs
    ensures proofs.Valid() && proofs.operations >= old(proofs.operations)
  {
    hide Covers, Allowed, PinAllowed;
    match act
    case Change(env) => proofs.Observe(env);
    case Cut => proofs.Interrupt();
    case Clear => proofs.Reset();
    case Enrol(principal, row) =>
      var _ := proofs.Enroll(principal, row);
    case _ =>
  }

  /** Fencing: once its controller was interrupted or reset, an operation starts no read, gets
      no row, rests on nothing and retains nothing, whatever happens in between, and however
      many other operations are at work or begin. */
  method Fenced(proofs: Proofs, ops: seq<Operation>, acts: seq<Act>) returns (done: seq<bool>)
    requires Together(proofs, ops) && ops[0].number < proofs.operations
    modifies proofs, ops
    ensures proofs.Valid() && !ops[0].Current()
    ensures |done| == |acts| && forall i | 0 <= i < |acts| && done[i] :: !Mine(acts[i])
  {
    hide Covers, Allowed, PinAllowed;
    done := [];
    var all := ops;
    for i := 0 to |acts|
      invariant Together(proofs, all) && ops <= all && ops[0].number < proofs.operations
      invariant forall k | |ops| <= k < |all| :: fresh(all[k])
      invariant |done| == i && forall k | 0 <= k < i && done[k] :: !Mine(acts[k])
    {
      var act, d := acts[i], false;
      if act.Begin? {
        var op := new Operation(proofs);
        all := all + [op];
      } else if act.Read? || act.Answer? || act.Rest? || act.Keep? {
        if act.op < |all| {
          d := ActOn(proofs, all[act.op], act);
        }
      } else {
        Govern(proofs, act);
      }
      done := done + [d];
    }
  }
}
