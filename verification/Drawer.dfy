/** One open drawer (lib/forum-drawer.ts): signed child rows arrive in any order, repeated,
    late or across reconnects; what is held is always the greatest accepted row. */
module Drawer {
  import opened Identity
  import opened Authority
  import opened Documents

  const DRAWER_LIMIT := 128
  const DRAWER_PENDING_MS := 30000
  const MAX_IN_FLIGHT := 32

  // ------------------------------------------------------------ the order

  /** The serialization of a row; the payload schema is closed, so it determines the row. */
  type Text = DrawerRecord -> seq<nat>

  ghost predicate Faithful(text: Text) {
    forall a, b :: text(a) == text(b) ==> a == b
  }

  /** Later revision, then the tombstone, then the smaller text. */
  predicate Wins(text: Text, row: DrawerRecord, prev: DrawerRecord) {
    row.rev > prev.rev ||
    (row.rev == prev.rev &&
     ((!row.stated && prev.stated) || (row.stated == prev.stated && LexLess(text(row), text(prev)))))
  }

  lemma WinsIsStrictTotalOrder(text: Text, a: DrawerRecord, b: DrawerRecord, c: DrawerRecord)
    requires Faithful(text)
    ensures !Wins(text, a, a)
    ensures Wins(text, a, b) && Wins(text, b, c) ==> Wins(text, a, c)
    ensures a == b || Wins(text, a, b) || Wins(text, b, a)
    ensures !(Wins(text, a, b) && Wins(text, b, a))
    ensures a.rev > b.rev ==> Wins(text, a, b)
    ensures a.rev == b.rev && !a.stated && b.stated ==> Wins(text, a, b)
    ensures a.rev == b.rev && a.stated == b.stated && LexLess(text(a), text(b)) ==> Wins(text, a, b)
  {
    LexTotal(text(a), text(a));
    LexTotal(text(a), text(b));
    if LexLess(text(a), text(b)) && LexLess(text(b), text(c)) {
      LexTransitive(text(a), text(b), text(c));
    }
  }

  predicate Greatest(text: Text, rows: set<DrawerRecord>, row: DrawerRecord) {
    row in rows && forall other | other in rows && other != row :: Wins(text, row, other)
  }

  /** Convergence: the greatest row depends on the set of accepted rows only. */
  lemma GreatestIsUnique(text: Text, rows: set<DrawerRecord>, a: DrawerRecord, b: DrawerRecord)
    requires Faithful(text) && Greatest(text, rows, a) && Greatest(text, rows, b)
    ensures a == b
  {
    WinsIsStrictTotalOrder(text, a, b, a);
  }

  lemma GreatestAfter(text: Text, rows: set<DrawerRecord>, held: DrawerRecord, row: DrawerRecord)
    requires Faithful(text) && Greatest(text, rows, held)
    ensures Greatest(text, rows + {row}, if Wins(text, row, held) then row else held)
  {
    WinsIsStrictTotalOrder(text, held, row, held);
    forall other | other in rows ensures Wins(text, row, held) ==> other == row || Wins(text, row, other) {
      if other != held {
        WinsIsStrictTotalOrder(text, row, held, other);
      }
    }
  }

  // ------------------------------------------------------------ the controller

  datatype Path = Path(kind: DrawerKind, forum: ObjectId, agent: Key, id: ObjectId)

  /** Updates and prompts share one collection. */
  function PathOf(r: DrawerRecord): Path {
    Path(if r.kind == PromptRecord then UpdateRecord else r.kind, r.forum, r.agent, r.id)
  }

  datatype Slot = Slot(id: ObjectId, tail: bool)
  datatype Hint = Hint(sig: nat, writer: Key, path: Path, at: int)
  datatype Held = Held(row: DrawerRecord, key: nat, sig: nat)

  /** A verification under way: what it was started with. */
  datatype Ticket = Ticket(slot: Slot, sig: nat, writer: Key, path: Path, key: nat, epoch: nat)

  /** What the application supplies, any of which may change at any time: the current key of
      a writer for a signing time, what authority admits, and what the viewer may read. */
  datatype View = View(active: bool, key: (Key, int) -> Option<nat>, admits: DrawerRecord -> bool,
                       shows: DrawerRecord -> bool)

  datatype Memory = Memory(held: map<ObjectId, Held>, committed: map<ObjectId, nat>)

  function Floor(m: Memory, id: ObjectId): int {
    var h: int := if id in m.held then m.held[id].row.rev else -1;
    var c: int := if id in m.committed then m.committed[id] else -1;
    if h > c then h else c
  }

  /** Floors never fall, and a held row is only ever replaced by one that wins over it. */
  predicate Kept(text: Text, a: Memory, b: Memory) {
    && (forall id | id in a.held ::
          id in b.held && (b.held[id] == a.held[id] || Wins(text, b.held[id].row, a.held[id].row)))
    && (forall id | id in a.committed :: id in b.committed && b.committed[id] >= a.committed[id])
  }

  lemma KeptReflexive(text: Text, a: Memory)
    ensures Kept(text, a, a)
  {
  }

  lemma KeptTransitive(text: Text, a: Memory, b: Memory, c: Memory)
    requires Faithful(text) && Kept(text, a, b) && Kept(text, b, c)
    ensures Kept(text, a, c)
  {
    forall id | id in a.held ensures id in c.held &&
           (c.held[id] == a.held[id] || Wins(text, c.held[id].row, a.held[id].row)) {
      WinsIsStrictTotalOrder(text, c.held[id].row, b.held[id].row, a.held[id].row);
    }
  }

  class ForumDrawer {
    const text: Text
    const forum: ObjectId
    const agent: Key
    var view: View
    var connected: bool
    var disposed: bool
    var epoch: nat
    var inflight: nat
    var held: map<ObjectId, Held>
    var committed: map<ObjectId, nat>
    var seen: map<ObjectId, nat>
    var pending: map<Slot, Hint>
    var waiting: set<Slot>
    var checking: set<(nat, Slot, nat)>
    /** Every row that ever passed the whole verification path, by its id. */
    ghost var accepted: map<ObjectId, set<DrawerRecord>>

    ghost predicate Valid()
      reads this
    {
      && Faithful(text)
      && |held| <= DRAWER_LIMIT && |committed| <= DRAWER_LIMIT && inflight <= MAX_IN_FLIGHT
      && HoldsGreatest(text, held, accepted) && (forall work | work in checking :: work.0 <= epoch)
    }

    constructor (text: Text, forum: ObjectId, agent: Key, view: View)
      requires Faithful(text)
      ensures Valid() && held == map[] && this.text == text && this.forum == forum && this.agent == agent
    {
      this.text, this.forum, this.agent, this.view := text, forum, agent, view;
      connected, disposed, epoch, inflight := false, false, 0, 0;
      held, committed, seen, pending := map[], map[], map[], map[];
      waiting, checking, accepted := {}, {}, map[];
    }

    predicate Authorized(r: DrawerRecord)
      reads this
    {
      !disposed && view.active && r.forum == forum && r.agent == agent && view.admits(r)
    }

    /** The floor a new revision of `id` must exceed: -1 when nothing is known. */
    function Revision(id: ObjectId): int
      reads this
    {
      Floor(Durable(), id)
    }

    /** What survives everything but disposal. */
    function Durable(): Memory
      reads this
    {
      Memory(held, committed)
    }

    predicate HasPending(id: ObjectId)
      reads this
    {
      Slot(id, false) in pending || Slot(id, true) in pending
    }

    function KnownIds(): set<ObjectId>
      reads this
    {
      Known(held, pending)
    }

    /** A hint worth keeping: it may be for a child of the agent, and its id is known or there is room. */
    predicate Noticed(slot: Slot, plausible: bool, writer: Key)
      reads this
    {
      && !disposed && view.active && plausible && IsSeaPubkey(writer) && IsObjectId(slot.id) &&
         PrincipalOf(slot.id) == agent
      && (slot.id in held || HasPending(slot.id) || |KnownIds()| < DRAWER_LIMIT)
    }

    /** A hint whose verification could start: its writer has a key, and it is not under way. */
    predicate Startable(slot: Slot, sig: nat, plausible: bool, writer: Key, seconds: int)
      reads this
    {
      Noticed(slot, plausible, writer) && view.key(writer, seconds).Some? && (epoch, slot, sig) !in checking
    }

    /** And there is room to do it. */
    predicate MayStart(slot: Slot, sig: nat, plausible: bool, writer: Key, seconds: int)
      reads this
    {
      Startable(slot, sig, plausible, writer, seconds) && inflight < MAX_IN_FLIGHT
    }

    /** The synchronous part of `receive`: bounded hints are queued, and at most 32
        verifications run at once. */
    method StartReceive(slot: Slot, sig: nat, plausible: bool, writer: Key, path: Path, seconds: int, millis: int)
      returns (ticket: Option<Ticket>)
      requires Valid()
      modifies `pending, `waiting, `checking, `inflight
      ensures Valid() && inflight == old(inflight) + if ticket.Some? then 1 else 0
      ensures ticket.Some? ==>
              ticket.value.slot == slot && ticket.value.epoch == epoch &&
              view.key(writer, seconds) == Some(ticket.value.key)
      ensures ticket.Some? ==> ticket.value.sig == sig && ticket.value.writer == writer && ticket.value.path == path
      ensures ticket.Some? <==> old(MayStart(slot, sig, plausible, writer, seconds))
      ensures checking == old(checking) + if ticket.Some? then {(epoch, slot, sig)} else {}
      ensures waiting == if ticket.Some? then old(waiting) - {slot}
                         else if old(Startable(slot, sig, plausible, writer, seconds)) then old(waiting) + {slot}
                         else old(waiting)
      ensures pending == if old(Noticed(slot, plausible, writer))
                         then old(pending)[slot := Hint(sig, writer, path, if slot in old(pending)
                                                        then old(pending)[slot].at else millis)]
                         else old(pending)
      ensures |old(KnownIds())| <= DRAWER_LIMIT ==> |KnownIds()| <= DRAWER_LIMIT
      ensures slot in old(pending) && slot in pending ==> pending[slot].at == old(pending)[slot].at
    {
      hide Greatest, Wins, Faithful, HoldsGreatest, Known;
      if disposed || !view.active || !plausible || !IsSeaPubkey(writer) || !IsObjectId(slot.id) ||
         PrincipalOf(slot.id) != agent {
        return None;
      }
      if slot.id !in held && !HasPending(slot.id) && |KnownIds()| >= DRAWER_LIMIT {
        return None;
      }
      KnownSlot(held, pending, slot.id);
      KnownAfter(held, pending, slot, Hint(sig, writer, path, if slot in pending then pending[slot].at else millis));
      var work := (epoch, slot, sig);
      var at := if slot in pending then pending[slot].at else millis;
      pending := pending[slot := Hint(sig, writer, path, at)];
      var key := view.key(writer, seconds);
      if key.None? || work in checking {
        return None;
      }
      if inflight >= MAX_IN_FLIGHT {
        waiting := waiting + {slot};
        return None;
      }
      waiting, checking, inflight := waiting - {slot}, checking + {work}, inflight + 1;
      return Some(Ticket(slot, sig, writer, path, key.value, epoch));
    }

    method ForgetHint(slot: Slot, sig: nat)
      requires Valid()
      modifies `pending
      ensures Valid() && pending == Without(old(pending), slot, sig)
    {
      if slot in pending && pending[slot].sig == sig {
        pending := pending - {slot};
      }
    }

    /** The rest of `receive`, after the verification yielded a parsed row or failed. */
    method FinishReceive(t: Ticket, verified: Option<DrawerRecord>) returns (ok: bool)
      requires Valid() && inflight > 0
      modifies this
      ensures Valid() && Kept(text, old(Durable()), Durable()) && inflight == old(inflight) - 1
      ensures ok <==> verified.Some? && old(Admissible(t, verified.value))
      ensures ok ==>
              accepted == Including(old(accepted), verified.value) &&
              held == Merged(text, old(held), Held(verified.value, t.key, t.sig))
      ensures !ok ==> accepted == old(accepted) && held == old(held)
      ensures ok ==> t.slot.id == verified.value.id && t.slot.id in held
      ensures seen == if ok && held[t.slot.id].row == verified.value && held[t.slot.id].key == t.key
                      then old(seen)[t.slot.id := held[t.slot.id].sig] else old(seen)
      ensures checking == old(checking) - {(t.epoch, t.slot, t.sig)} && waiting == old(waiting)
      ensures pending == if ok || old(Unfit(t, verified)) then Forgotten(old(pending), t) else old(pending)
      ensures committed == old(committed) && view == old(view) && connected == old(connected) &&
              disposed == old(disposed) && epoch == old(epoch)
    {
      hide Greatest, Faithful, Wins, HoldsGreatest, Including, Merged, Kept, Without, PathOf;
      KeptReflexive(text, Durable());
      inflight := inflight - 1;
      checking := checking - {(t.epoch, t.slot, t.sig)};
      var id := t.slot.id;
      if disposed || t.epoch != epoch {
        return false;
      }
      if verified.None? || verified.value.writer != t.writer || verified.value.id != id ||
         PathOf(verified.value) != t.path ||
         (t.slot.tail && verified.value.stated) {
        ForgetHint(t.slot, t.sig);
        return false;
      }
      var row := verified.value;
      if view.key(row.writer, row.issuedAt) != Some(t.key) || !Authorized(row) {
        return false;
      }
      if id !in held && |held| >= DRAWER_LIMIT {
        return false;
      }
      Admit(row, t.key, t.sig);
      ForgetHint(t.slot, t.sig);
      return true;
    }

    /** The proof of a still current ticket failed, or gave a row that is not the announced one. */
    predicate Unfit(t: Ticket, verified: Option<DrawerRecord>)
      reads this
    {
      && !disposed && t.epoch == epoch
      && (verified.None? || verified.value.writer != t.writer || verified.value.id != t.slot.id ||
          PathOf(verified.value) != t.path ||
          (t.slot.tail && verified.value.stated))
    }

    /** What a row must meet, after its proof, to be accepted. */
    predicate Admissible(t: Ticket, row: DrawerRecord)
      reads this
    {
      && !disposed && t.epoch == epoch && row.writer == t.writer && row.id == t.slot.id && PathOf(row) == t.path
      && (t.slot.tail ==> !row.stated) && view.key(row.writer, row.issuedAt) == Some(t.key) && Authorized(row)
      && (row.id in held || |held| < DRAWER_LIMIT)
    }

    method Admit(row: DrawerRecord, key: nat, sig: nat)
      requires Valid() && (row.id in held || |held| < DRAWER_LIMIT)
      modifies `held, `seen, `accepted
      ensures Valid() && Kept(text, old(Durable()), Durable())
      ensures accepted == Including(old(accepted), row) && held == Merged(text, old(held), Held(row, key, sig))
      ensures row.id in held && held[row.id].row.id == row.id
      ensures seen == if held[row.id].key == key && held[row.id].row == row then old(seen)[row.id := held[row.id].sig]
              else old(seen)
    {
      Merge(row, key, sig);
      hide Greatest, Wins, Faithful, HoldsGreatest, Including, Kept, Merged;
      if held[row.id].key == key && held[row.id].row == row {
        seen := seen[row.id := held[row.id].sig];
      }
    }

    method Merge(row: DrawerRecord, key: nat, sig: nat)
      requires Valid() && (row.id in held || |held| < DRAWER_LIMIT)
      modifies `held, `accepted
      ensures Valid() && Kept(text, old(Durable()), Durable()) && row.id in held && held[row.id].row.id == row.id
      ensures accepted == Including(old(accepted), row) && held == Merged(text, old(held), Held(row, key, sig))
    {
      MergeHoldsGreatest(text, held, accepted, Held(row, key, sig));
      MergeKeeps(text, held, Held(row, key, sig), committed);
      hide Greatest, Wins, Faithful, HoldsGreatest, Including, Kept;
      if row.id !in held || Wins(text, row, held[row.id].row) {
        held := held[row.id := Held(row, key, sig)];
      }
      accepted := Including(accepted, row);
    }

    /** The rows on display, oldest first. */
    method Rows() returns (shown: seq<DrawerRecord>)
      requires Valid()
      ensures forall r :: r in shown <==> r.id in held && held[r.id].row == r && Displayed(r.id)
      ensures forall i, j :: 0 <= i < j < |shown| ==> Earlier(shown[i], shown[j])
      ensures forall r | r in shown ::
                && connected && !disposed && view.active && r.stated && r.forum == forum && r.agent == agent
                && view.admits(r) && view.shows(r) && r.id in held && held[r.id].row == r
                && r.id in seen && seen[r.id] == held[r.id].sig
                && view.key(r.writer, r.issuedAt) == Some(held[r.id].key)
      ensures seen == map[] ==> shown == []
      ensures forall r, t | r in shown && t in accepted[r.id] && !t.stated :: t.rev < r.rev
    {
      shown := [];
      var rest := held.Keys;
      while rest != {}
        invariant rest <= held.Keys && (seen == map[] ==> shown == [])
        invariant forall r :: r in shown <==> r.id in held && r.id !in rest && held[r.id].row == r && Displayed(r.id)
        invariant forall i, j :: 0 <= i < j < |shown| ==> Earlier(shown[i], shown[j])
        decreases rest
      {
        var id :| id in rest;
        rest := rest - {id};
        if Displayed(id) {
          shown := Place(shown, held[id].row);
        }
      }
      assert forall r, t | r in shown && t in accepted[r.id] && !t.stated :: t.rev < r.rev;
    }

    predicate Displayed(id: ObjectId)
      reads this
      requires id in held
    {
      && connected && view.active && !disposed
      && id in seen && seen[id] == held[id].sig && held[id].row.stated
      && Authorized(held[id].row) && view.shows(held[id].row)
      && view.key(held[id].row.writer, held[id].row.issuedAt) == Some(held[id].key)
    }

    method AtCapacity() returns (full: bool)
      ensures full <==> |held| >= DRAWER_LIMIT
    {
      full := |held| >= DRAWER_LIMIT;
    }

    /** Hints older than 30 seconds go; the slots to try again are what is left. */
    method Expire(millis: int) returns (again: set<Slot>)
      requires Valid()
      modifies `pending, `waiting
      ensures Valid() && again == pending.Keys
      ensures pending == if old(disposed) then old(pending) else
                map slot | slot in old(pending) && millis - old(pending)[slot].at < DRAWER_PENDING_MS ::
                  old(pending)[slot]
      ensures waiting == old(waiting) - (old(pending).Keys - pending.Keys)
    {
      hide Greatest, Wins, Faithful, HoldsGreatest;
      if !disposed {
        ghost var before := pending;
        var rest := pending.Keys;
        while rest != {}
          invariant rest <= before.Keys
          invariant pending == map slot | slot in before &&
                    (slot in rest || millis - before[slot].at < DRAWER_PENDING_MS) :: before[slot]
          invariant Valid() && waiting == old(waiting) - (before.Keys - pending.Keys)
          decreases rest
        {
          var slot :| slot in rest;
          rest := rest - {slot};
          if millis - pending[slot].at >= DRAWER_PENDING_MS {
            pending, waiting := pending - {slot}, waiting - {slot};
          }
        }
      }
      again := pending.Keys;
    }

    /** A hint worth taking up: its verification is not under way, and its writer has a key. */
    predicate Wanted(slot: Slot, seconds: int)
      reads this
    {
      && slot in pending && !disposed && view.active && IsSeaPubkey(pending[slot].writer)
      && IsObjectId(slot.id) && PrincipalOf(slot.id) == agent
      && view.key(pending[slot].writer, seconds).Some? && (epoch, slot, pending[slot].sig) !in checking
    }

    predicate TicketFor(t: Ticket, slot: Slot)
      reads this
    {
      slot in pending && t.slot == slot && t.sig == pending[slot].sig && t.writer == pending[slot].writer &&
        t.path == pending[slot].path && t.epoch == epoch
    }

    /** A channel freed: queued slots are taken up again, each with the hint it has now, until
        the queue is empty or all channels are taken. */
    method Drain(seconds: int, millis: int) returns (tickets: seq<Ticket>)
      requires Valid()
      modifies `pending, `waiting, `checking, `inflight
      ensures Valid() && inflight == old(inflight) + |tickets| && pending == old(pending) && waiting <= old(waiting)
      ensures waiting == {} || inflight >= MAX_IN_FLIGHT
      ensures SlotsOf(tickets) <= old(waiting) && forall t | t in tickets :: TicketFor(t, t.slot)
      ensures forall slot | slot in old(waiting) && slot !in waiting :: old(Wanted(slot, seconds)) <==>
              slot in SlotsOf(tickets)
    {
      hide Greatest, Wins, Faithful, HoldsGreatest, Known, SlotsOf;
      tickets := [];
      NoSlots();
      var queue := waiting;
      while queue != {} && inflight < MAX_IN_FLIGHT
        invariant Valid() && inflight == old(inflight) + |tickets| && pending == old(pending) &&
                  waiting == queue <= old(waiting)
        invariant SlotsOf(tickets) <= old(waiting) - queue && forall t | t in tickets :: TicketFor(t, t.slot)
        invariant forall slot | slot in old(waiting) && slot !in queue :: old(Wanted(slot, seconds)) <==>
                  slot in SlotsOf(tickets)
        invariant forall slot, sig | slot in queue :: (epoch, slot, sig) in checking <==>
                  (epoch, slot, sig) in old(checking)
        decreases queue
      {
        var slot :| slot in queue;
        queue, waiting := queue - {slot}, waiting - {slot};
        if slot in pending {
          KnownSlot(held, pending, slot.id);
          assert pending[slot := pending[slot]] == pending;
          var t := StartReceive(slot, pending[slot].sig, true, pending[slot].writer, pending[slot].path, seconds,
                                millis);
          if t.Some? {
            SlotsMore(tickets, t.value);
            tickets := tickets + [t.value];
          }
        }
      }
    }

    /** Everything but the floors and the held rows is forgotten; old proofs are fenced out. */
    method Disconnect()
      requires Valid()
      modifies this
      ensures Valid() && held == old(held) && accepted == old(accepted) && committed == old(committed)
      ensures epoch == old(epoch) + 1 && !connected && pending == map[] && waiting == {} && seen == map[]
      ensures checking == old(checking)
      ensures inflight == old(inflight) && view == old(view) && disposed == old(disposed)
    {
      hide Greatest, Wins, Faithful, HoldsGreatest;
      epoch, connected := epoch + 1, false;
      pending, waiting, seen := map[], {}, map[];
    }

    method Connect()
      requires Valid()
      modifies this
      ensures Valid() && held == old(held) && accepted == old(accepted) && epoch == old(epoch) + 1 && seen == map[]
      ensures committed == old(committed) && pending == map[] && waiting == {} && inflight == old(inflight)
      ensures checking == old(checking)
      ensures view == old(view) && disposed == old(disposed)
      ensures connected == (!disposed && IsObjectIdOf(forum, Forum) && IsSeaPubkey(agent))
    {
      hide Greatest, Wins, Faithful, HoldsGreatest;
      Disconnect();
      if disposed || !IsObjectIdOf(forum, Forum) || !IsSeaPubkey(agent) {
        return;
      }
      connected := true;
    }

    predicate MayRecover(id: ObjectId, saved: DrawerRecord, readable: bool)
      reads this
    {
      && !disposed && view.active && ParsesDrawerRecord(saved) && saved.id == id && saved.forum == forum
      && saved.agent == agent && readable && (id in committed || |committed| < DRAWER_LIMIT)
    }

    /** The journal's own revision of a child becomes a floor. Its content does not: it is
        received like any other row, with a ticket if it can be verified now. */
    method Recover(id: ObjectId, saved: DrawerRecord, readable: bool, sig: nat, plausible: bool, seconds: int,
                   millis: int)
      returns (ok: bool, ticket: Option<Ticket>)
      requires Valid()
      modifies `committed, `pending, `waiting, `checking, `inflight
      ensures Valid() && Kept(text, old(Durable()), Durable()) && inflight == old(inflight) + if ticket.Some? then 1
              else 0
      ensures ok <==> old(MayRecover(id, saved, readable))
      ensures committed == if ok then Raised(old(committed), id, saved.rev) else old(committed)
      ensures !ok ==> pending == old(pending) && waiting == old(waiting) && checking == old(checking)
      ensures ok ==> Revision(id) >= saved.rev
      ensures ticket.Some? <==> ok && old(MayStart(Slot(id, false), sig, plausible, saved.writer, seconds))
      ensures ticket.Some? ==> ticket.value.slot == Slot(id, false) && ticket.value.epoch == epoch &&
                               ticket.value.sig == sig && ticket.value.path == PathOf(saved)
    {
      hide Greatest, Wins, Faithful, HoldsGreatest, Known, Kept, Raised, ParsesDrawerRecord;
      ok := SetFloor(id, saved, readable);
      if !ok {
        return false, None;
      }
      ticket := StartReceive(Slot(id, false), sig, plausible, saved.writer, PathOf(saved), seconds, millis);
    }

    method SetFloor(id: ObjectId, saved: DrawerRecord, readable: bool) returns (ok: bool)
      requires Valid()
      modifies `committed
      ensures Valid() && Kept(text, old(Durable()), Durable())
      ensures ok ==> Revision(id) >= saved.rev
      ensures ok <==> old(MayRecover(id, saved, readable))
      ensures committed == if ok then Raised(old(committed), id, saved.rev) else old(committed)
    {
      hide Wins, HoldsGreatest, Greatest, Faithful, Kept, Raised, ParsesDrawerRecord;
      KeptReflexive(text, Durable());
      if disposed || !view.active || !ParsesDrawerRecord(saved) || saved.id != id || saved.forum != forum ||
         saved.agent != agent || !readable {
        return false;
      }
      if id !in committed && |committed| >= DRAWER_LIMIT {
        return false;
      }
      var floor := if id in committed && committed[id] > saved.rev then committed[id] else saved.rev;
      RaisedFacts(text, held, committed, id, saved.rev);
      committed := committed[id := floor];
      return true;
    }

    /** The rest of `recover`, when the verification is back: a saved row that was accepted, is
        the one that is held and may be read now is put on the mesh again. */
    method FinishRecover(t: Ticket, verified: Option<DrawerRecord>, saved: DrawerRecord) returns (again: Option<Held>)
      requires Valid() && inflight > 0
      modifies this
      ensures Valid() && Kept(text, old(Durable()), Durable()) && inflight == old(inflight) - 1
      ensures if verified.Some? && old(Admissible(t, verified.value))
              then accepted == Including(old(accepted), verified.value) &&
                   held == Merged(text, old(held), Held(verified.value, t.key, t.sig))
              else accepted == old(accepted) && held == old(held)
      ensures again.Some? <==>
                && verified.Some? && old(Admissible(t, verified.value))
                && t.slot.id in held && held[t.slot.id].row == saved && connected && Authorized(saved)
                && view.shows(saved) && view.key(saved.writer, saved.issuedAt) == Some(held[t.slot.id].key)
      ensures again.Some? ==> again.value == held[saved.id] && again.value.row == saved && saved.id in accepted
      ensures again.Some? ==> Greatest(text, accepted[saved.id], saved)
    {
      hide Wins, Faithful, Including, Merged, Kept, Greatest;
      var accepted := FinishReceive(t, verified);
      if accepted && MayReturn(t.slot.id, saved) {
        return Some(held[t.slot.id]);
      }
      return None;
    }

    /** Held, and on display but for its proof of this connection. */
    predicate MayReturn(id: ObjectId, saved: DrawerRecord)
      reads this
    {
      && id in held && held[id].row == saved && connected && Authorized(saved) && view.shows(saved)
      && view.key(saved.writer, saved.issuedAt) == Some(held[id].key)
    }

    method Observe(view: View)
      requires Valid()
      modifies `view
      ensures Valid() && this.view == view
    {
      this.view := view;
    }

    method Dispose()
      requires Valid()
      modifies this
      ensures Valid() && disposed && !connected && held == map[] && committed == map[] && pending == map[] &&
              epoch == old(epoch) + 1
    {
      disposed := true;
      Disconnect();
      held, committed, accepted := map[], map[], map[];
    }
  }

  /** The floors, with that of `id` at the revision at least. */
  ghost function Raised(committed: map<ObjectId, nat>, id: ObjectId, rev: nat): map<ObjectId, nat> {
    map other | other in committed.Keys + {id} ::
      if other == id && (id !in committed || committed[id] < rev) then rev else committed[other]
  }

  lemma RaisedFacts(text: Text, held: map<ObjectId, Held>, committed: map<ObjectId, nat>, id: ObjectId, rev: nat)
    ensures var floor := if id in committed && committed[id] > rev then committed[id] else rev;
            Raised(committed, id, rev) == committed[id := floor]
    ensures |Raised(committed, id, rev)| == |committed| + if id in committed then 0 else 1
    ensures Kept(text, Memory(held, committed), Memory(held, Raised(committed, id, rev)))
  {
    hide Wins;
    FloorSize(committed, id, if id in committed && committed[id] > rev then committed[id] else rev);
    RaisedIs(committed, id, rev);
    hide Raised;
  }

  lemma RaisedIs(committed: map<ObjectId, nat>, id: ObjectId, rev: nat)
    ensures var floor := if id in committed && committed[id] > rev then committed[id] else rev;
            Raised(committed, id, rev) == committed[id := floor]
  {
    var floor := if id in committed && committed[id] > rev then committed[id] else rev;
    assert Raised(committed, id, rev).Keys == committed[id := floor].Keys;
  }

  function SlotsOf(tickets: seq<Ticket>): set<Slot> {
    set t | t in tickets :: t.slot
  }

  lemma SlotsMore(tickets: seq<Ticket>, t: Ticket)
    ensures SlotsOf(tickets + [t]) == SlotsOf(tickets) + {t.slot}
  {
  }

  lemma NoSlots()
    ensures SlotsOf([]) == {}
  {
  }

  function Without(pending: map<Slot, Hint>, slot: Slot, sig: nat): map<Slot, Hint> {
    if slot in pending && pending[slot].sig == sig then pending - {slot} else pending
  }

  /** The hints after a ticket's own was used up, unless it was replaced meanwhile. */
  function Forgotten(pending: map<Slot, Hint>, t: Ticket): map<Slot, Hint> {
    Without(pending, t.slot, t.sig)
  }

  function Ids(slots: set<Slot>): set<ObjectId> {
    set slot | slot in slots :: slot.id
  }

  function Known(held: map<ObjectId, Held>, pending: map<Slot, Hint>): set<ObjectId> {
    held.Keys + Ids(pending.Keys)
  }

  lemma IdsAfter(slots: set<Slot>, slot: Slot)
    ensures Ids(slots + {slot}) == Ids(slots) + {slot.id}
    ensures slot.id in Ids(slots) <==> Slot(slot.id, false) in slots || Slot(slot.id, true) in slots
  {
    forall other | other in slots && other.id == slot.id ensures other in {Slot(slot.id, false), Slot(slot.id, true)} {
      assert other == Slot(slot.id, other.tail);
    }
    if Slot(slot.id, false) in slots { assert Slot(slot.id, false).id in Ids(slots); }
    if Slot(slot.id, true) in slots { assert Slot(slot.id, true).id in Ids(slots); }
  }

  lemma KnownSlot(held: map<ObjectId, Held>, pending: map<Slot, Hint>, id: ObjectId)
    ensures id in Known(held, pending) <==> id in held || Slot(id, false) in pending || Slot(id, true) in pending
  {
    IdsAfter(pending.Keys, Slot(id, false));
    hide Ids;
  }

  lemma KnownMore(held: map<ObjectId, Held>, pending: map<Slot, Hint>, slot: Slot, hint: Hint)
    ensures Known(held, pending[slot := hint]) == Known(held, pending) + {slot.id}
  {
    assert pending[slot := hint].Keys == pending.Keys + {slot};
    IdsAfter(pending.Keys, slot);
    hide Ids;
  }

  lemma KnownAfter(held: map<ObjectId, Held>, pending: map<Slot, Hint>, slot: Slot, hint: Hint)
    ensures |Known(held, pending[slot := hint])| == |Known(held, pending)| + if slot.id in Known(held, pending) then 0
            else 1
  {
    KnownMore(held, pending, slot, hint);
    WithOne(Known(held, pending), slot.id);
    hide Known;
  }

  /** What is held of each id is the greatest row ever accepted for it. */
  ghost predicate HoldsGreatest(text: Text, held: map<ObjectId, Held>, accepted: map<ObjectId, set<DrawerRecord>>) {
    && held.Keys == accepted.Keys
    && forall id | id in held :: held[id].row.id == id && Greatest(text, accepted[id], held[id].row)
  }

  ghost function Including(accepted: map<ObjectId, set<DrawerRecord>>,
                           row: DrawerRecord): map<ObjectId, set<DrawerRecord>> {
    accepted[row.id := (if row.id in accepted then accepted[row.id] else {}) + {row}]
  }

  function Merged(text: Text, held: map<ObjectId, Held>, next: Held): map<ObjectId, Held> {
    if next.row.id !in held || Wins(text, next.row, held[next.row.id].row) then held[next.row.id := next] else held
  }

  lemma MergeHoldsGreatest(text: Text, held: map<ObjectId, Held>, accepted: map<ObjectId, set<DrawerRecord>>,
                           next: Held)
    requires Faithful(text) && HoldsGreatest(text, held, accepted)
    ensures HoldsGreatest(text, Merged(text, held, next), Including(accepted, next.row))
    ensures |Merged(text, held, next)| == |held| + if next.row.id in held then 0 else 1
  {
    var row := next.row;
    if row.id in held {
      GreatestAfter(text, accepted[row.id], held[row.id].row, row);
    }
    HeldSize(held, row.id, next);
    hide Greatest, Wins;
    if row.id !in held {
      OnlyRow(text, row);
      assert {} + {row} == {row};
    }
  }

  lemma MergeKeeps(text: Text, held: map<ObjectId, Held>, next: Held, committed: map<ObjectId, nat>)
    ensures Kept(text, Memory(held, committed), Memory(Merged(text, held, next), committed))
    ensures next.row.id in Merged(text, held, next)
  {
  }

  lemma OnlyRow(text: Text, row: DrawerRecord)
    ensures Greatest(text, {row}, row)
  {
  }

  lemma HeldSize(m: map<ObjectId, Held>, id: ObjectId, h: Held)
    ensures |m[id := h]| == |m| + if id in m then 0 else 1
  {
    assert m[id := h].Keys == m.Keys + {id};
    assert |m[id := h]| == |m[id := h].Keys| && |m| == |m.Keys|;
  }

  lemma FloorSize(m: map<ObjectId, nat>, id: ObjectId, rev: nat)
    ensures |m[id := rev]| == |m| + if id in m then 0 else 1
  {
    assert m[id := rev].Keys == m.Keys + {id};
    assert |m[id := rev]| == |m[id := rev].Keys| && |m| == |m.Keys|;
  }

  /** By issue time, then by id. */
  predicate Earlier(a: DrawerRecord, b: DrawerRecord) {
    a.issuedAt < b.issuedAt || (a.issuedAt == b.issuedAt && Before(a.id, b.id))
  }

  function Place(rows: seq<DrawerRecord>, row: DrawerRecord): (r: seq<DrawerRecord>)
    requires forall i, j :: 0 <= i < j < |rows| ==> Earlier(rows[i], rows[j])
    requires forall x | x in rows :: x.id != row.id
    ensures forall i, j :: 0 <= i < j < |r| ==> Earlier(r[i], r[j])
    ensures forall x :: x in r <==> x in rows || x == row
  {
    if rows == [] then [row]
    else if Earlier(row, rows[0]) then
      assert forall x | x in rows :: x == rows[0] || Earlier(rows[0], x);
      [row] + rows
    else
      BeforeIsTotal(row.id, rows[0].id);
      var rest := Place(rows[1..], row);
      assert rows == [rows[0]] + rows[1..];
      assert forall x | x in rest :: Earlier(rows[0], x);
      [rows[0]] + rest
  }

  // ------------------------------------------------------------ from reception to display

  /** A row whose verification starts, that the viewer may be shown, and that wins over what is
      held for its id, or is that very row, under the same key. */
  predicate Showable(d: ForumDrawer, sig: nat, row: DrawerRecord, seconds: int)
    reads d
  {
    && d.connected && row.stated && d.MayStart(Slot(row.id, false), sig, true, row.writer, seconds)
    && d.Authorized(row) && d.view.shows(row)
    && d.view.key(row.writer, row.issuedAt) == d.view.key(row.writer, seconds)
    && if row.id !in d.held then |d.held| < DRAWER_LIMIT
       else Wins(d.text, row, d.held[row.id].row) ||
            (d.held[row.id].row == row && Some(d.held[row.id].key) == d.view.key(row.writer, seconds))
  }

  /** From the arrival of a row to the display, with a proof that yields it. */
  method ReceiveAndShow(d: ForumDrawer, sig: nat, row: DrawerRecord, seconds: int, millis: int)
    returns (shown: seq<DrawerRecord>)
    requires d.Valid()
    modifies d
    ensures d.Valid()
    ensures old(Showable(d, sig, row, seconds)) ==> row in shown
  {
    hide Greatest, Faithful, HoldsGreatest, Including, Kept, Known;
    var t := d.StartReceive(Slot(row.id, false), sig, true, row.writer, PathOf(row), seconds, millis);
    if t.Some? {
      var _ := d.FinishReceive(t.value, Some(row));
    }
    shown := d.Rows();
  }

  /** A row on display, of a drawer that can connect, whose writer still has the key. */
  predicate OnDisplay(d: ForumDrawer, row: DrawerRecord, seconds: int)
    reads d
  {
    && row.id in d.held && d.held[row.id].row == row && d.Displayed(row.id)
    && d.view.key(row.writer, seconds) == d.view.key(row.writer, row.issuedAt) && d.inflight < MAX_IN_FLIGHT
    && IsObjectIdOf(d.forum, Forum) && IsSeaPubkey(d.agent) && IsSeaPubkey(row.writer)
    && IsObjectId(row.id) && PrincipalOf(row.id) == d.agent
  }

  /** What is on display goes with the connection, and is back as soon as it is received again,
      under whatever signature. */
  method Redisplay(d: ForumDrawer, sig: nat, row: DrawerRecord, seconds: int, millis: int)
    returns (hidden: seq<DrawerRecord>, shown: seq<DrawerRecord>)
    requires d.Valid()
    modifies d
    ensures d.Valid() && hidden == []
    ensures old(OnDisplay(d, row, seconds)) ==> row in shown
  {
    hide Greatest, Faithful, HoldsGreatest, Including, Kept, Known, Wins;
    d.Disconnect();
    d.Connect();
    hidden := d.Rows();
    shown := ReceiveAndShow(d, sig, row, seconds, millis);
  }

  // ------------------------------------------------------------ convergence of whole histories

  /** A fresh drawer after a series of accepted deliveries. */
  function Delivered(text: Text, deliveries: seq<Held>): map<ObjectId, Held> {
    if deliveries == [] then map[] else Merged(text, Delivered(text, deliveries[..|deliveries| - 1]),
                                               deliveries[|deliveries| - 1])
  }

  function RowsOf(deliveries: seq<Held>, id: ObjectId): set<DrawerRecord> {
    set d | d in deliveries && d.row.id == id :: d.row
  }

  lemma {:induction false} DeliveredGreatest(text: Text, deliveries: seq<Held>, id: ObjectId)
    requires Faithful(text)
    ensures var held := Delivered(text, deliveries);
            && (id in held <==> RowsOf(deliveries, id) != {})
            && (id in held ==> held[id].row.id == id && Greatest(text, RowsOf(deliveries, id), held[id].row))
  {
    if deliveries != [] {
      var front, last := deliveries[..|deliveries| - 1], deliveries[|deliveries| - 1];
      DeliveredGreatest(text, front, id);
      assert deliveries == front + [last];
      assert RowsOf(deliveries, id) == RowsOf(front, id) + if last.row.id == id then {last.row} else {};
      hide RowsOf;
      var held := Delivered(text, front);
      if last.row.id == id {
        if id in held {
          GreatestAfter(text, RowsOf(front, id), held[id].row, last.row);
        } else {
          OnlyRow(text, last.row);
          assert {} + {last.row} == {last.row};
        }
      }
      hide Greatest, Wins;
    }
  }

  /** Two drawers that accepted the same rows, in whatever order and however often, hold the
      same row for every id. */
  lemma DrawersConverge(text: Text, a: seq<Held>, b: seq<Held>)
    requires Faithful(text) && forall id: ObjectId :: RowsOf(a, id) == RowsOf(b, id)
    ensures Delivered(text, a).Keys == Delivered(text, b).Keys
    ensures forall id | id in Delivered(text, a) :: Delivered(text, a)[id].row == Delivered(text, b)[id].row
  {
    forall id: ObjectId
      ensures id in Delivered(text, a) <==> id in Delivered(text, b)
      ensures id in Delivered(text, a) ==> Delivered(text, a)[id].row == Delivered(text, b)[id].row
    {
      DeliveredGreatest(text, a, id);
      DeliveredGreatest(text, b, id);
      if id in Delivered(text, a) {
        GreatestIsUnique(text, RowsOf(a, id), Delivered(text, a)[id].row, Delivered(text, b)[id].row);
      }
    }
  }

  // ------------------------------------------------------------ whole lives of a drawer

  datatype Call =
    | Receive(slot: Slot, sig: nat, plausible: bool, writer: Key, path: Path, seconds: int, millis: int)
    | Verified(ticket: Ticket, row: Option<DrawerRecord>)
    | Refresh(millis: int)
    | Resume(seconds: int, millis: int)
    | Reconnect
    | Leave
    | Restore(id: ObjectId, saved: DrawerRecord, readable: bool, sig: nat, plausible: bool, seconds: int, millis: int)
    | Restored(ticket: Ticket, row: Option<DrawerRecord>, saved: DrawerRecord)
    | Look(view: View)

  /** What has been accepted stays accepted. */
  ghost predicate Remembered(a: map<ObjectId, set<DrawerRecord>>, b: map<ObjectId, set<DrawerRecord>>) {
    forall id | id in a :: id in b && a[id] <= b[id]
  }

  /** Floors never fall, and no tombstone is ever undone by a row that is not later. */
  ghost predicate NothingReturns(before: Memory, accepted: map<ObjectId, set<DrawerRecord>>, after: Memory) {
    && (forall id: ObjectId :: Floor(after, id) >= Floor(before, id))
    && (forall id, t | id in accepted && t in accepted[id] && !t.stated ::
          id in after.held && (after.held[id].row.stated ==> after.held[id].row.rev > t.rev))
  }

  lemma KeptMeans(text: Text, before: Memory, accepted: map<ObjectId, set<DrawerRecord>>, after: Memory,
                  now: map<ObjectId, set<DrawerRecord>>)
    requires Kept(text, before, after) && Remembered(accepted, now) && HoldsGreatest(text, after.held, now)
    ensures NothingReturns(before, accepted, after)
  {
    forall id, t | id in accepted && t in accepted[id] && !t.stated
      ensures id in after.held && (after.held[id].row.stated ==> after.held[id].row.rev > t.rev)
    {
      assert t in now[id];
    }
  }

  /** One call by the application, the mesh or the journal. */
  method Perform(d: ForumDrawer, call: Call)
    requires d.Valid()
    modifies d
    ensures d.Valid() && Kept(d.text, old(d.Durable()), d.Durable()) && Remembered(old(d.accepted), d.accepted)
  {
    hide Greatest, Wins, Faithful, HoldsGreatest, Merged;
    KeptReflexive(d.text, d.Durable());
    match call
    case Receive(slot, sig, plausible, writer, path, seconds, millis) =>
      var _ := d.StartReceive(slot, sig, plausible, writer, path, seconds, millis);
    case Verified(ticket, row) =>
      if d.inflight > 0 {
        var _ := d.FinishReceive(ticket, row);
      }
    case Refresh(millis) =>
      var _ := d.Expire(millis);
    case Resume(seconds, millis) =>
      var _ := d.Drain(seconds, millis);
    case Reconnect => d.Connect();
    case Leave => d.Disconnect();
    case Restore(id, saved, readable, sig, plausible, seconds, millis) =>
      var _, _ := d.Recover(id, saved, readable, sig, plausible, seconds, millis);
    case Restored(ticket, row, saved) =>
      if d.inflight > 0 {
        var _ := d.FinishRecover(ticket, row, saved);
      }
    case Look(view) => d.Observe(view);
  }

  /** Over any series of calls, with disconnects and reconnects among them: no floor falls, and
      what a tombstone has removed is only ever shown again in a later revision. */
  method Live(d: ForumDrawer, calls: seq<Call>)
    requires d.Valid()
    modifies d
    ensures d.Valid() && Kept(d.text, old(d.Durable()), d.Durable())
    ensures NothingReturns(old(d.Durable()), old(d.accepted), d.Durable())
  {
    hide Greatest, Wins, HoldsGreatest, NothingReturns, Remembered, Kept;
    KeptReflexive(d.text, d.Durable());
    RememberedReflexive(d.accepted);
    for i := 0 to |calls|
      invariant d.Valid() && Kept(d.text, old(d.Durable()), d.Durable()) && Remembered(old(d.accepted), d.accepted)
    {
      ghost var middle, known := d.Durable(), d.accepted;
      Perform(d, calls[i]);
      KeptTransitive(d.text, old(d.Durable()), middle, d.Durable());
      RememberedTransitive(old(d.accepted), known, d.accepted);
    }
    KeptMeans(d.text, old(d.Durable()), old(d.accepted), d.Durable(), d.accepted);
  }

  lemma RememberedReflexive(a: map<ObjectId, set<DrawerRecord>>)
    ensures Remembered(a, a)
  {
  }

  lemma RememberedTransitive(a: map<ObjectId, set<DrawerRecord>>, b: map<ObjectId, set<DrawerRecord>>,
                             c: map<ObjectId, set<DrawerRecord>>)
    requires Remembered(a, b) && Remembered(b, c)
    ensures Remembered(a, c)
  {
  }
}
