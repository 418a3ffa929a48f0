/** Bounded transport hints and their rotating retry (lib/forum-receive-retry.ts). */
module ReceiveRetry {
  import opened Identity

  const CAPACITY := 256
  const BATCH := 32
  const EXPIRY := 30000

  /** A pending hint: its channel, when it was first remembered, and its latest data. */
  datatype Hint = Hint(key: nat, at: int, data: nat)

  /** Keys of an insertion-ordered map. */
  predicate Distinct(rows: seq<Hint>) {
    forall i, j :: 0 <= i < j < |rows| ==> rows[i].key != rows[j].key
  }

  predicate Has(rows: seq<Hint>, key: nat) {
    exists i :: 0 <= i < |rows| && rows[i].key == key
  }

  /** The first-remembered time of a key, if it is pending. */
  function Since(rows: seq<Hint>, key: nat): Option<int> {
    if rows == [] then None else if rows[0].key == key then Some(rows[0].at) else Since(rows[1..], key)
  }

  function Fresh(rows: seq<Hint>, now: int): seq<Hint> {
    if rows == [] then []
    else (if now - rows[0].at >= EXPIRY then [] else [rows[0]]) + Fresh(rows[1..], now)
  }

  /** `Map.set`: an existing key keeps its place, a new one goes last. */
  function Set(rows: seq<Hint>, key: nat, now: int, data: nat): seq<Hint> {
    if rows == [] then [Hint(key, now, data)]
    else if rows[0].key == key then [rows[0].(data := data)] + rows[1..]
    else [rows[0]] + Set(rows[1..], key, now, data)
  }

  function Without(rows: seq<Hint>, key: nat): seq<Hint> {
    if rows == [] then []
    else (if rows[0].key == key then [] else [rows[0]]) + Without(rows[1..], key)
  }

  lemma {:induction false} HasSince(rows: seq<Hint>, key: nat)
    ensures Has(rows, key) <==> Since(rows, key).Some?
  {
    if rows != [] {
      HasSince(rows[1..], key);
      if Has(rows, key) && rows[0].key != key {
        var i :| 0 <= i < |rows| && rows[i].key == key;
        assert rows[1..][i - 1].key == key;
      }
      if Has(rows[1..], key) {
        var i :| 0 <= i < |rows[1..]| && rows[1..][i].key == key;
        assert rows[i + 1].key == key;
      }
    }
  }

  lemma HeadAbsent(rows: seq<Hint>)
    requires Distinct(rows) && rows != []
    ensures Distinct(rows[1..]) && !Has(rows[1..], rows[0].key) && Since(rows[1..], rows[0].key) == None
  {
    forall i | 0 <= i < |rows[1..]| ensures rows[1..][i].key != rows[0].key {
      assert rows[1..][i] == rows[i + 1];
    }
    HasSince(rows[1..], rows[0].key);
  }

  lemma Prepend(head: Hint, rest: seq<Hint>)
    requires Distinct(rest) && Since(rest, head.key) == None
    ensures Distinct([head] + rest)
    ensures forall k :: Since([head] + rest, k) == if k == head.key then Some(head.at) else Since(rest, k)
  {
    HasSince(rest, head.key);
    assert ([head] + rest)[1..] == rest;
  }

  lemma {:induction false} FreshKeeps(rows: seq<Hint>, now: int)
    requires Distinct(rows)
    ensures Distinct(Fresh(rows, now)) && |Fresh(rows, now)| <= |rows|
    ensures forall key :: Since(Fresh(rows, now), key) ==
              if Since(rows, key).Some? && now - Since(rows, key).value < EXPIRY then Since(rows, key) else None
  {
    if rows != [] {
      HeadAbsent(rows);
      FreshKeeps(rows[1..], now);
      assert Since(Fresh(rows[1..], now), rows[0].key) == None;
      Prepend(rows[0], Fresh(rows[1..], now));
      assert [] + Fresh(rows[1..], now) == Fresh(rows[1..], now);
    }
  }

  /** Remembering a key again leaves its first time alone: a replay renews nothing. */
  lemma {:induction false} SetKeeps(rows: seq<Hint>, key: nat, now: int, data: nat)
    requires Distinct(rows)
    ensures Distinct(Set(rows, key, now, data))
    ensures |Set(rows, key, now, data)| == |rows| + if Since(rows, key).Some? then 0 else 1
    ensures forall k :: Since(Set(rows, key, now, data), k) ==
              if k == key && Since(rows, key).None? then Some(now) else Since(rows, k)
  {
    if rows != [] {
      HeadAbsent(rows);
      if rows[0].key == key {
        Prepend(rows[0].(data := data), rows[1..]);
      } else {
        SetKeeps(rows[1..], key, now, data);
        assert Since(Set(rows[1..], key, now, data), rows[0].key) == None;
        Prepend(rows[0], Set(rows[1..], key, now, data));
      }
    }
  }

  /** The rows that are not 30 seconds old, in their order. */
  lemma {:induction false} FreshRows(rows: seq<Hint>, now: int)
    ensures forall r :: r in Fresh(rows, now) <==> r in rows && now - r.at < EXPIRY
  {
    if rows != [] {
      FreshRows(rows[1..], now);
    }
  }

  /** A known key keeps its place and time and gets the data; a new one comes last. */
  lemma {:induction false} SetPlaces(rows: seq<Hint>, key: nat, now: int, data: nat)
    requires Distinct(rows)
    ensures var next := Set(rows, key, now, data);
            && |next| == |rows| + (if Has(rows, key) then 0 else 1)
            && (forall i | 0 <= i < |rows| ::
                  next[i] == if rows[i].key == key then rows[i].(data := data) else rows[i])
            && (!Has(rows, key) ==> next[|rows|] == Hint(key, now, data))
  {
    if rows != [] {
      HeadAbsent(rows);
      assert forall i | 0 < i < |rows| :: rows[i] == rows[1..][i - 1];
      if rows[0].key != key {
        SetPlaces(rows[1..], key, now, data);
        HasSince(rows, key);
        HasSince(rows[1..], key);
      }
    }
  }

  lemma {:induction false} WithoutKeeps(rows: seq<Hint>, key: nat)
    requires Distinct(rows)
    ensures Distinct(Without(rows, key)) && |Without(rows, key)| <= |rows|
    ensures forall k :: Since(Without(rows, key), k) == if k == key then None else Since(rows, k)
  {
    if rows != [] {
      HeadAbsent(rows);
      WithoutKeeps(rows[1..], key);
      assert Since(Without(rows[1..], key), rows[0].key) == None;
      Prepend(rows[0], Without(rows[1..], key));
      assert [] + Without(rows[1..], key) == Without(rows[1..], key);
    }
  }

  // ------------------------------------------------------------ fairness of the rotation

  function Start(cursor: nat, n: nat): nat {
    if n == 0 then 0 else cursor % n
  }

  function NextCursor(cursor: nat, n: nat): nat {
    (Start(cursor, n) + BATCH) % CAPACITY
  }

  /** The cursor after `calls` retries of an unchanged set of `n` rows. */
  function CursorAfter(cursor: nat, n: nat, calls: nat): nat {
    if calls == 0 then cursor else NextCursor(CursorAfter(cursor, n, calls - 1), n)
  }

  /** How many rows start before row `i` in a retry that begins at `start`. */
  function Turn(start: nat, i: nat, n: nat): nat
    requires start < n && i < n
  {
    if i >= start then i - start else i + n - start
  }

  /** Row `i` is among the first 32 that the retry starts. */
  predicate Prompt(cursor: nat, n: nat, i: nat)
    requires i < n
  {
    Turn(Start(cursor, n), i, n) < BATCH
  }

  lemma ModOnce(a: nat, n: nat)
    requires 0 < n <= a < 2 * n
    ensures a % n == a - n
  {
    assert a == n * 1 + (a - n);
  }

  lemma ModNone(a: nat, n: nat)
    requires a < n
    ensures a % n == a
  {
  }

  lemma CursorStep(s: nat)
    requires s < CAPACITY
    ensures (s + BATCH) % CAPACITY == if s + BATCH >= CAPACITY then s + BATCH - CAPACITY else s + BATCH
  {
  }

  /** Where the next retry starts: 32 further, wrapping at n or, from there on, at 256. */
  lemma NextStart(cursor: nat, n: nat)
    requires BATCH <= n <= CAPACITY
    ensures var s, t := Start(cursor, n), Start(NextCursor(cursor, n), n);
            && s < n
            && t == if s + BATCH >= CAPACITY then s + BATCH - CAPACITY else if s + BATCH < n then s + BATCH
               else s + BATCH - n
  {
    var s := Start(cursor, n);
    CursorStep(s);
    var c := NextCursor(cursor, n);
    if c < n {
      ModNone(c, n);
    } else {
      ModOnce(c, n);
    }
  }

  /** One retry moves every row that was not prompt 32 places forward, except that wrapping
      at 256 instead of n sets it back by the difference. */
  lemma TurnAdvances(cursor: nat, n: nat, i: nat)
    requires i < n <= CAPACITY && BATCH <= n && !Prompt(cursor, n, i)
    ensures var s, t := Start(cursor, n), Start(NextCursor(cursor, n), n);
            && (s + BATCH < CAPACITY ==> Turn(t, i, n) == Turn(s, i, n) - BATCH && t <= s + BATCH)
            && (s + BATCH >= CAPACITY ==>
                Turn(t, i, n) == Turn(s, i, n) - BATCH + (CAPACITY - n) && t == s + BATCH - CAPACITY)
  {
    NextStart(cursor, n);
    hide Start, NextCursor;
  }

  lemma CursorBound(cursor: nat, n: nat, calls: nat)
    requires cursor < CAPACITY
    ensures CursorAfter(cursor, n, calls) < CAPACITY
  {
  }

  /** If a row was prompt in none of the first `calls` retries, it is that much nearer. */
  lemma {:induction false} StillWaiting(cursor: nat, n: nat, i: nat, calls: nat) returns (wrapped: bool)
    requires i < n <= CAPACITY && BATCH <= n && cursor < CAPACITY && calls <= 7
    requires forall k | 0 <= k < calls :: !Prompt(CursorAfter(cursor, n, k), n, i)
    ensures var s := Start(CursorAfter(cursor, n, calls), n);
            && Turn(s, i, n) <= n - 1 - BATCH * calls + (if wrapped then CAPACITY - n else 0)
            && (wrapped ==> s < BATCH * calls)
  {
    if calls == 0 {
      wrapped := false;
    } else {
      wrapped := StillWaiting(cursor, n, i, calls - 1);
      var before := CursorAfter(cursor, n, calls - 1);
      CursorBound(cursor, n, calls - 1);
      assert !Prompt(before, n, i);
      TurnAdvances(before, n, i);
      wrapped := wrapped || Start(before, n) + BATCH >= CAPACITY;
    }
  }

  /** Fairness: of any eight consecutive retries of an unchanged set, at least one has the
      row among its first 32. */
  lemma EveryRowInEight(cursor: nat, n: nat, i: nat) returns (k: nat)
    requires i < n <= CAPACITY && cursor < CAPACITY
    ensures k < 8 && Prompt(CursorAfter(cursor, n, k), n, i)
  {
    if n < BATCH {
      k := 0;
    } else if k' :| 0 <= k' < 7 && Prompt(CursorAfter(cursor, n, k'), n, i) {
      k := k';
    } else {
      k := 7;
      var wrapped := StillWaiting(cursor, n, i, 7);
      CursorBound(cursor, n, 7);
    }
  }

  /** The rows in the order a retry starts them. */
  function Rotation(rows: seq<Hint>, start: nat): seq<Hint>
    requires start <= |rows|
  {
    rows[start..] + rows[..start]
  }

  lemma RotationPlaces(rows: seq<Hint>, start: nat, i: nat)
    requires start < |rows| && i < |rows|
    ensures Turn(start, i, |rows|) < |rows| && Rotation(rows, start)[Turn(start, i, |rows|)] == rows[i]
  {
  }

  // ------------------------------------------------------------ the controller

  class ReceiveRetryQueue {
    var cursor: nat
    var pending: seq<Hint>

    ghost predicate Valid()
      reads this
    {
      cursor < CAPACITY && Distinct(pending) && |pending| <= CAPACITY
    }

    constructor ()
      ensures Valid() && pending == []
    {
      cursor, pending := 0, [];
    }

    method Prune(now: int)
      requires Valid()
      modifies `pending
      ensures Valid() && pending == Fresh(old(pending), now)
    {
      FreshKeeps(pending, now);
      hide Distinct, Since, Fresh;
      pending := KeepFresh(pending, now);
    }

    static method KeepFresh(rows: seq<Hint>, now: int) returns (kept: seq<Hint>)
      ensures kept == Fresh(rows, now)
    {
      kept := [];
      assert rows[0..] == rows;
      for i := 0 to |rows|
        invariant kept + Fresh(rows[i..], now) == Fresh(rows, now)
      {
        assert rows[i..][1..] == rows[i + 1..];
        if now - rows[i].at < EXPIRY {
          kept := kept + [rows[i]];
        }
      }
    }

    /** Remember a hint whose data passed the scalar checks. A known key keeps its place and
        its first time; a new one needs room. */
    method Remember(key: nat, keyLength: nat, scalar: bool, data: nat, now: int) returns (ok: bool)
      requires Valid()
      modifies `pending
      ensures Valid()
      ensures var kept := Fresh(old(pending), now);
              && (ok <==> keyLength <= 2048 && scalar && (Since(kept, key).Some? || |kept| < CAPACITY))
              && pending == if ok then Set(kept, key, now, data) else kept
    {
      Prune(now);
      HasSince(pending, key);
      SetKeeps(pending, key, now, data);
      if keyLength > 2048 || (!Has(pending, key) && |pending| >= CAPACITY) {
        return false;
      }
      if !scalar {
        return false;
      }
      pending := Set(pending, key, now, data);
      return true;
    }

    method Forget(key: nat)
      requires Valid()
      modifies `pending
      ensures Valid() && pending == Without(old(pending), key)
    {
      WithoutKeeps(pending, key);
      pending := Without(pending, key);
    }

    /** Start every pending row once, beginning at the cursor. */
    method Retry(now: int) returns (started: seq<Hint>)
      requires Valid()
      modifies this
      ensures Valid() && pending == Fresh(old(pending), now)
      ensures cursor == NextCursor(old(cursor), |pending|)
      ensures started == Rotation(pending, Start(old(cursor), |pending|))
    {
      Prune(now);
      var rows := pending;
      var start := if |rows| > 0 then cursor % |rows| else 0;
      cursor := (start + BATCH) % CAPACITY;
      started := StartAll(rows, start);
    }

    static method StartAll(rows: seq<Hint>, start: nat) returns (started: seq<Hint>)
      requires rows == [] || start < |rows|
      requires rows == [] ==> start == 0
      ensures started == Rotation(rows, start)
    {
      started := [];
      for n := 0 to |rows|
        invariant started == Rotation(rows, start)[..n]
      {
        var place := if start + n < |rows| then start + n else start + n - |rows|;
        if start + n < |rows| { ModNone(start + n, |rows|); } else { ModOnce(start + n, |rows|); }
        assert Rotation(rows, start)[n] == rows[place];
        started := started + [rows[(start + n) % |rows|]];
      }
    }

    method Clear()
      modifies `pending
      ensures pending == []
    {
      pending := [];
    }

    method Size(now: int) returns (n: nat)
      requires Valid()
      modifies `pending
      ensures Valid() && pending == Fresh(old(pending), now) && n == |pending|
    {
      Prune(now);
      n := |pending|;
    }
  }

  // ------------------------------------------------------------ expiry over whole histories

  datatype Call = Remembered(key: nat, ok: bool, now: int, data: nat) | Forgotten(key: nat) | Pruned(now: int) | Cleared

  function Effect(rows: seq<Hint>, call: Call): seq<Hint> {
    match call
    case Remembered(key, ok, now, data) =>
      if ok && (Since(Fresh(rows, now), key).Some? || |Fresh(rows, now)| < CAPACITY)
      then Set(Fresh(rows, now), key, now, data) else Fresh(rows, now)
    case Forgotten(key) => Without(rows, key)
    case Pruned(now) => Fresh(rows, now)
    case Cleared => []
  }

  function Effects(rows: seq<Hint>, calls: seq<Call>): seq<Hint> {
    if calls == [] then rows else Effect(Effects(rows, calls[..|calls| - 1]), calls[|calls| - 1])
  }

  lemma {:induction false} EffectsValid(rows: seq<Hint>, calls: seq<Call>)
    requires Distinct(rows) && |rows| <= CAPACITY
    ensures Distinct(Effects(rows, calls)) && |Effects(rows, calls)| <= CAPACITY
  {
    if calls != [] {
      var before, call := Effects(rows, calls[..|calls| - 1]), calls[|calls| - 1];
      EffectsValid(rows, calls[..|calls| - 1]);
      if call.Remembered? {
        FreshKeeps(before, call.now);
        SetKeeps(Fresh(before, call.now), call.key, call.now, call.data);
      } else if call.Forgotten? {
        WithoutKeeps(before, call.key);
      } else if call.Pruned? {
        FreshKeeps(before, call.now);
      }
    }
  }

  /** One call: a key keeps its first time, or goes, or is new with the current time. */
  lemma EffectSince(rows: seq<Hint>, call: Call, key: nat)
    requires Distinct(rows)
    ensures var before, later := Since(rows, key), Since(Effect(rows, call), key);
            later == before || later == None || (call.Remembered? && call.key == key && later == Some(call.now) &&
              (before == None || call.now - before.value >= EXPIRY))
  {
    if call.Remembered? {
      FreshKeeps(rows, call.now);
      SetKeeps(Fresh(rows, call.now), call.key, call.now, call.data);
    } else if call.Forgotten? {
      WithoutKeeps(rows, call.key);
    } else if call.Pruned? {
      FreshKeeps(rows, call.now);
    }
  }

  /** Replays never extend a hint's life. Whatever calls follow, a key that has been pending
      all along still has its first time, and a prune 30 seconds after that removes it. */
  lemma {:induction false} ReplaysRenewNothing(rows: seq<Hint>, calls: seq<Call>, key: nat, at: int)
    requires Distinct(rows) && |rows| <= CAPACITY && Since(rows, key) == Some(at)
    requires forall i | 0 <= i < |calls| :: Since(Effects(rows, calls[..i]), key).Some?
    requires forall i | 0 <= i < |calls| && calls[i].Remembered? :: calls[i].now - at < EXPIRY
    ensures Since(Effects(rows, calls), key) in {None, Some(at)}
    ensures forall now | now - at >= EXPIRY :: Since(Fresh(Effects(rows, calls), now), key) == None
  {
    if calls != [] {
      var front, last := calls[..|calls| - 1], calls[|calls| - 1];
      assert forall i | 0 <= i < |front| :: front[..i] == calls[..i] && front[i] == calls[i];
      ReplaysRenewNothing(rows, front, key, at);
      EffectsValid(rows, front);
      assert Since(Effects(rows, front), key).Some?;
      EffectSince(Effects(rows, front), last, key);
      assert Since(Effects(rows, calls), key) in {None, Some(at)};
    }
    EffectsValid(rows, calls);
    forall now | now - at >= EXPIRY ensures Since(Fresh(Effects(rows, calls), now), key) == None {
      FreshKeeps(Effects(rows, calls), now);
    }
  }
}
