/** The bounded offer cache and the bounded delivery versions of lib/forum-squad.ts: both are
    insertion-ordered maps that evict from the front. */
module Offers {
  import opened Identity

  const OFFER_CAP := 256
  const PER_NEED_CAP := 32
  const MAX_CHARS := 16384

  /** An offer as the cache sees it; the key is the need together with the offer's id. */
  datatype Offer = Offer(need: ObjectId, id: ObjectId, stated: bool, chars: nat, content: nat)

  predicate SameKey(a: Offer, b: Offer) {
    a.need == b.need && a.id == b.id
  }

  predicate Distinct(rows: seq<Offer>) {
    forall i, j :: 0 <= i < j < |rows| ==> !SameKey(rows[i], rows[j])
  }

  /** A signed cancel stays: the live row of a cancelled key is a replay. */
  predicate Blocked(rows: seq<Offer>, offer: Offer) {
    offer.stated && exists r :: r in rows && SameKey(r, offer) && !r.stated
  }

  predicate Refused(rows: seq<Offer>, offer: Offer) {
    offer.chars > MAX_CHARS || Blocked(rows, offer)
  }

  function Without(rows: seq<Offer>, offer: Offer): seq<Offer> {
    if rows == [] then []
    else (if SameKey(rows[0], offer) then [] else [rows[0]]) + Without(rows[1..], offer)
  }

  function Count(rows: seq<Offer>, need: ObjectId): nat {
    if rows == [] then 0 else (if rows[0].need == need then 1 else 0) + Count(rows[1..], need)
  }

  /** Without the first `n` rows of a need. */
  function DropOldest(rows: seq<Offer>, need: ObjectId, n: nat): seq<Offer> {
    if rows == [] || n == 0 then rows
    else if rows[0].need == need then DropOldest(rows[1..], need, n - 1)
    else [rows[0]] + DropOldest(rows[1..], need, n)
  }

  function Surplus(count: nat): nat {
    if count > PER_NEED_CAP then count - PER_NEED_CAP else 0
  }

  function Newest(rows: seq<Offer>): seq<Offer> {
    if |rows| > OFFER_CAP then rows[|rows| - OFFER_CAP..] else rows
  }

  function Retained(rows: seq<Offer>, offer: Offer): seq<Offer> {
    if Refused(rows, offer) then rows
    else
      var next := Without(rows, offer) + [offer];
      Newest(DropOldest(next, offer.need, Surplus(Count(next, offer.need))))
  }

  // ------------------------------------------------------------ the loops of the source

  method RetainForumOffer(rows: seq<Offer>, offer: Offer) returns (next: seq<Offer>)
    ensures next == Retained(rows, offer)
  {
    if Refused(rows, offer) {
      return rows;
    }
    next := Delete(rows, offer);
    next := next + [offer];
    next := DropSurplus(next, offer.need);
    next := Trim(next);
  }

  method Delete(rows: seq<Offer>, offer: Offer) returns (next: seq<Offer>)
    ensures next == Without(rows, offer)
  {
    next := [];
    for i := 0 to |rows|
      invariant next + Without(rows[i..], offer) == Without(rows, offer)
    {
      assert rows[i..][1..] == rows[i + 1..];
      var rest := Without(rows[i + 1..], offer);
      if !SameKey(rows[i], offer) {
        assert next + ([rows[i]] + rest) == (next + [rows[i]]) + rest;
        next := next + [rows[i]];
      } else {
        assert [] + rest == rest;
      }
    }
  }

  /** Count the siblings, then delete the oldest of them beyond the cap. */
  method DropSurplus(rows: seq<Offer>, need: ObjectId) returns (kept: seq<Offer>)
    ensures kept == DropOldest(rows, need, Surplus(Count(rows, need)))
  {
    var siblings := 0;
    for i := 0 to |rows|
      invariant siblings + Count(rows[i..], need) == Count(rows, need)
    {
      assert rows[i..][1..] == rows[i + 1..];
      if rows[i].need == need {
        siblings := siblings + 1;
      }
    }
    var surplus, i := Surplus(siblings), 0;
    kept := [];
    while i < |rows| && surplus > 0
      invariant 0 <= i <= |rows|
      invariant kept + DropOldest(rows[i..], need, surplus) == DropOldest(rows, need, Surplus(siblings))
    {
      assert rows[i..][1..] == rows[i + 1..];
      if rows[i].need == need {
        surplus := surplus - 1;
      } else {
        kept := kept + [rows[i]];
      }
      i := i + 1;
    }
    assert DropOldest(rows[i..], need, surplus) == rows[i..];
    kept := kept + rows[i..];
  }

  method Trim(rows: seq<Offer>) returns (next: seq<Offer>)
    ensures next == Newest(rows)
  {
    next := rows;
    while |next| > OFFER_CAP
      invariant |next| <= |rows| && next == rows[|rows| - |next|..]
      invariant if |rows| > OFFER_CAP then |next| >= OFFER_CAP else next == rows
    {
      next := next[1..];
    }
  }

  // ------------------------------------------------------------ what the cache keeps

  ghost predicate Bounded(rows: seq<Offer>) {
    Distinct(rows) && |rows| <= OFFER_CAP && forall need :: Count(rows, need) <= PER_NEED_CAP
  }

  lemma {:induction false} CountConcat(a: seq<Offer>, b: seq<Offer>, need: ObjectId)
    ensures Count(a + b, need) == Count(a, need) + Count(b, need)
  {
    if a == [] {
      assert a + b == b;
    } else {
      assert (a + b)[1..] == a[1..] + b;
      CountConcat(a[1..], b, need);
    }
  }

  lemma {:induction false} WithoutFacts(rows: seq<Offer>, offer: Offer)
    requires Distinct(rows)
    ensures Distinct(Without(rows, offer))
    ensures forall r :: r in Without(rows, offer) <==> r in rows && !SameKey(r, offer)
    ensures forall need :: Count(Without(rows, offer), need) <= Count(rows, need)
  {
    if rows != [] {
      assert Distinct(rows[1..]);
      WithoutFacts(rows[1..], offer);
      forall r | r in rows[1..] ensures !SameKey(rows[0], r) {
        var j :| 0 <= j < |rows[1..]| && rows[1..][j] == r;
        assert rows[j + 1] == r;
      }
      forall need ensures Count(Without(rows, offer), need) <= Count(rows, need) {
        if SameKey(rows[0], offer) {
          assert Without(rows, offer) == Without(rows[1..], offer);
        } else {
          assert Without(rows, offer)[1..] == Without(rows[1..], offer);
        }
      }
    }
  }

  lemma {:induction false} DropFacts(rows: seq<Offer>, need: ObjectId, n: nat)
    requires Distinct(rows) && n <= Count(rows, need)
    ensures var kept := DropOldest(rows, need, n);
            && Distinct(kept) && (forall r | r in kept :: r in rows)
            && (forall other :: Count(kept, other) == Count(rows, other) - if other == need then n else 0)
  {
    if rows != [] && n > 0 {
      assert Distinct(rows[1..]);
      if rows[0].need == need {
        DropFacts(rows[1..], need, n - 1);
      } else {
        DropFacts(rows[1..], need, n);
        var rest := DropOldest(rows[1..], need, n);
        forall r | r in rest ensures !SameKey(rows[0], r) {
          var j :| 0 <= j < |rows[1..]| && rows[1..][j] == r;
          assert rows[j + 1] == r;
        }
        assert ([rows[0]] + rest)[1..] == rest;
      }
    }
  }

  lemma {:induction false} DropLeavesLast(rows: seq<Offer>, offer: Offer, n: nat)
    requires n <= Count(rows, offer.need)
    ensures DropOldest(rows + [offer], offer.need, n) == DropOldest(rows, offer.need, n) + [offer]
  {
    if rows != [] && n > 0 {
      assert (rows + [offer])[1..] == rows[1..] + [offer];
      DropLeavesLast(rows[1..], offer, if rows[0].need == offer.need then n - 1 else n);
    }
  }

  lemma NewestFacts(rows: seq<Offer>)
    requires Distinct(rows)
    ensures Distinct(Newest(rows)) && |Newest(rows)| <= OFFER_CAP && (forall r | r in Newest(rows) :: r in rows)
    ensures forall need :: Count(Newest(rows), need) <= Count(rows, need)
    ensures rows != [] ==> Newest(rows) != [] && Newest(rows)[|Newest(rows)| - 1] == rows[|rows| - 1]
  {
    if |rows| > OFFER_CAP {
      var cut := |rows| - OFFER_CAP;
      forall need ensures Count(rows[cut..], need) <= Count(rows, need) {
        assert rows == rows[..cut] + rows[cut..];
        CountConcat(rows[..cut], rows[cut..], need);
      }
    }
  }

  /** One delivery into a bounded cache: still bounded. An offer that is too long, or the live row of
      a key held as cancelled, changes nothing; every other one is there, last, and everything
      else was there before. */
  lemma RetainedKeeps(rows: seq<Offer>, offer: Offer)
    requires Bounded(rows)
    ensures Bounded(Retained(rows, offer))
    ensures if offer.chars > 16384 || (offer.stated && exists r :: r in rows && SameKey(r, offer) && !r.stated)
            then Retained(rows, offer) == rows
            else var next := Retained(rows, offer);
                 && next != [] && next[|next| - 1] == offer
                 && forall r | r in next && r != offer :: r in rows && !SameKey(r, offer)
  {
    if !Refused(rows, offer) {
      var others := Without(rows, offer);
      var next := others + [offer];
      WithoutFacts(rows, offer);
      assert Distinct(next);
      forall need ensures Count(next, need) == Count(others, need) + if need == offer.need then 1 else 0 {
        CountConcat(others, [offer], need);
      }
      var n := Surplus(Count(next, offer.need));
      DropFacts(next, offer.need, n);
      DropLeavesLast(others, offer, n);
      NewestFacts(DropOldest(next, offer.need, n));
      hide Without, DropOldest, Newest, Count;
      forall r | r in Retained(rows, offer) && r != offer ensures r in rows && !SameKey(r, offer) {
        assert r in next;
      }
    }
  }

  /** The oldest row of a need goes, and no other. */
  lemma {:induction false} DropsOldest(rows: seq<Offer>, need: ObjectId) returns (i: nat)
    requires Count(rows, need) > 0
    ensures i < |rows| && rows[i].need == need && Count(rows[..i], need) == 0
    ensures DropOldest(rows, need, 1) == rows[..i] + rows[i + 1..]
  {
    if rows[0].need == need {
      i := 0;
      assert DropOldest(rows[1..], need, 0) == rows[1..];
    } else {
      i := DropsOldest(rows[1..], need);
      assert rows[..i + 1] == [rows[0]] + rows[1..][..i];
      assert (rows[..i + 1])[1..] == rows[1..][..i];
      assert rows[1..][i + 1..] == rows[i + 2..];
      i := i + 1;
    }
  }

  /** What has to go for an offer: the row it replaces, and besides that at most one more, and only
      for want of room: the oldest of the offer's need if that has 32 others already, or else the
      oldest of all if there are 256. The rest stays, in its order. */
  lemma EvictsOldest(rows: seq<Offer>, offer: Offer)
    requires Bounded(rows) && !Refused(rows, offer)
    ensures var others, next := Without(rows, offer), Retained(rows, offer);
            if Count(others, offer.need) < 32 then next == (if |others| < 256 then others else others[1..]) + [offer]
            else exists i :: 0 <= i < |others| && others[i].need == offer.need && Count(others[..i], offer.need) == 0 &&
                             next == others[..i] + others[i + 1..] + [offer]
  {
    hide Without, Count, Refused, Bounded, Newest, DropOldest;
    var others := Without(rows, offer);
    OthersBounded(rows, offer);
    if Count(others, offer.need) < 32 {
      NothingSurplus(others, offer);
    } else {
      var i := OneSurplus(others, offer);
    }
  }

  lemma OthersBounded(rows: seq<Offer>, offer: Offer)
    requires Bounded(rows)
    ensures var others := Without(rows, offer);
            && |others| <= 256 && Count(others, offer.need) <= 32
            && Count(others + [offer], offer.need) == Count(others, offer.need) + 1
  {
    WithoutFacts(rows, offer);
    WithoutShorter(rows, offer);
    CountConcat(Without(rows, offer), [offer], offer.need);
    hide Without;
  }

  lemma NothingSurplus(others: seq<Offer>, offer: Offer)
    requires |others| <= 256
    ensures Newest(DropOldest(others + [offer], offer.need, 0)) ==
              (if |others| < 256 then others else others[1..]) + [offer]
  {
    var next := others + [offer];
    if |others| == 256 {
      assert next[1..] == others[1..] + [offer];
    }
  }

  lemma OneSurplus(others: seq<Offer>, offer: Offer) returns (i: nat)
    requires |others| <= 256 && Count(others, offer.need) > 0
    ensures i < |others| && others[i].need == offer.need && Count(others[..i], offer.need) == 0
    ensures Newest(DropOldest(others + [offer], offer.need, 1)) == others[..i] + others[i + 1..] + [offer]
  {
    DropLeavesLast(others, offer, 1);
    i := DropsOldest(others, offer.need);
    hide DropOldest, Count;
  }

  lemma {:induction false} WithoutShorter(rows: seq<Offer>, offer: Offer)
    ensures |Without(rows, offer)| <= |rows|
  {
    if rows != [] {
      WithoutShorter(rows[1..], offer);
    }
  }

  // ------------------------------------------------------------ whole histories

  /** The cache after a series of deliveries, from empty. */
  function After(offers: seq<Offer>): seq<Offer> {
    if offers == [] then [] else Retained(After(offers[..|offers| - 1]), offers[|offers| - 1])
  }

  lemma {:induction false} AlwaysBounded(offers: seq<Offer>)
    ensures Bounded(After(offers))
  {
    if offers != [] {
      AlwaysBounded(offers[..|offers| - 1]);
      RetainedKeeps(After(offers[..|offers| - 1]), offers[|offers| - 1]);
    }
  }

  predicate Held(rows: seq<Offer>, need: ObjectId, id: ObjectId) {
    exists r :: r in rows && r.need == need && r.id == id
  }

  predicate Cancelled(rows: seq<Offer>, need: ObjectId, id: ObjectId) {
    exists r :: r in rows && r.need == need && r.id == id && !r.stated
  }

  lemma CancelStep(rows: seq<Offer>, offer: Offer, need: ObjectId, id: ObjectId)
    requires Bounded(rows) && Cancelled(rows, need, id) && Held(Retained(rows, offer), need, id)
    ensures Cancelled(Retained(rows, offer), need, id)
  {
    RetainedKeeps(rows, offer);
    hide Retained;
    if !Refused(rows, offer) {
      var next := Retained(rows, offer);
      var r :| r in next && r.need == need && r.id == id;
      var old_ :| old_ in rows && old_.need == need && old_.id == id && !old_.stated;
      if r != offer {
        SameRow(rows, r, old_);
      } else {
        assert SameKey(old_, offer);
      }
    }
  }

  lemma SameRow(rows: seq<Offer>, a: Offer, b: Offer)
    requires Distinct(rows) && a in rows && b in rows && SameKey(a, b)
    ensures a == b
  {
    var i :| 0 <= i < |rows| && rows[i] == a;
    var j :| 0 <= j < |rows| && rows[j] == b;
  }

  /** A key that is held as cancelled never turns live, for as long as it stays in the map. */
  lemma {:induction false} CancelledStays(offers: seq<Offer>, i: nat, need: ObjectId, id: ObjectId)
    requires i <= |offers| && Cancelled(After(offers[..i]), need, id)
    requires forall k | i <= k <= |offers| :: Held(After(offers[..k]), need, id)
    ensures Cancelled(After(offers), need, id)
    decreases |offers| - i
  {
    if i == |offers| {
      assert offers[..i] == offers;
    } else {
      assert offers[..i + 1][..i] == offers[..i];
      AlwaysBounded(offers[..i]);
      assert Held(After(offers[..i + 1]), need, id);
      CancelStep(After(offers[..i]), offers[i], need, id);
      CancelledStays(offers, i + 1, need, id);
    }
  }

  // ------------------------------------------------------------ delivery versions

  const VERSION_CAP := 1024

  datatype Version = Version(key: nat, generation: nat)

  /** Per-key generations of mesh callbacks (`createMeshEventVersions`). */
  class EventVersions {
    var versions: seq<Version>
    var serial: nat

    ghost predicate Valid()
      reads this
    {
      && |versions| <= VERSION_CAP
      && (forall v | v in versions :: 0 < v.generation <= serial)
      && Ordered(versions)
    }

    constructor ()
      ensures Valid() && serial == 0
    {
      versions, serial := [], 0;
    }

    predicate Current(key: nat, generation: nat)
      reads this
    {
      Version(key, generation) in versions
    }

    /** A new generation for the key: current, and no earlier one of the key still is. Whatever
        had gone stale stays so for ever, because generations are never used again. */
    method Bump(key: nat) returns (generation: nat)
      requires Valid()
      modifies this
      ensures Valid() && generation == serial == old(serial) + 1 && Current(key, generation)
      ensures forall g: nat | g != generation :: !Current(key, g)
      ensures forall k: nat, g: nat | g <= old(serial) && Current(k, g) :: old(Current(k, g))
      ensures forall k: nat, g: nat | k != key && old(Current(k, g)) && g + VERSION_CAP > serial :: Current(k, g)
    {
      serial := serial + 1;
      generation := serial;
      var others := OtherKeys(versions, key);
      BumpKeeps(versions, others, key, serial);
      hide Ordered;
      var kept := if |others| >= VERSION_CAP then others[1..] else others;
      versions := kept + [Version(key, generation)];
    }
  }

  /** The front of the map goes when it is full, and it is at least 1024 generations old. */
  lemma BumpKeeps(before: seq<Version>, others: seq<Version>, key: nat, serial: nat)
    requires 0 < serial && Ordered(before) && Ordered(others) && |others| <= |before| <= VERSION_CAP
    requires forall v | v in before :: 0 < v.generation < serial
    requires forall v :: v in others <==> v in before && v.key != key
    ensures var after := (if |others| >= VERSION_CAP then others[1..] else others) + [Version(key, serial)];
            && Ordered(after) && |after| <= VERSION_CAP
            && (forall v | v in after :: 0 < v.generation <= serial)
            && (forall v | v in after :: v == Version(key, serial) || (v in before && v.key != key))
            && (forall v | v in before && v.key != key && v.generation + VERSION_CAP > serial :: v in after)
            && Version(key, serial) in after
  {
    var kept := if |others| >= VERSION_CAP then others[1..] else others;
    FrontGoes(others, serial);
    LastComes(kept, Version(key, serial));
    hide Ordered;
  }

  /** What the front of a full map leaves. */
  lemma FrontGoes(others: seq<Version>, serial: nat)
    requires Ordered(others) && |others| <= VERSION_CAP && forall v | v in others :: v.generation < serial
    ensures var kept := if |others| >= VERSION_CAP then others[1..] else others;
            && Ordered(kept) && |kept| < VERSION_CAP && (forall v | v in kept :: v in others)
            && (forall v | v in others && v.generation + VERSION_CAP > serial :: v in kept)
  {
    if |others| >= VERSION_CAP {
      forall i | 0 <= i < |others| ensures others[i].generation < serial {
        assert others[i] in others;
      }
      OldestIsOld(others, serial);
      assert forall v | v in others && v != others[0] :: v in others[1..];
    }
  }

  lemma LastComes(kept: seq<Version>, last: Version)
    requires Ordered(kept) && forall v | v in kept :: v.key != last.key && v.generation < last.generation
    ensures Ordered(kept + [last])
  {
    forall i | 0 <= i < |kept| ensures kept[i].key != last.key && kept[i].generation < last.generation {
      assert kept[i] in kept;
    }
  }

  predicate Ordered(versions: seq<Version>) {
    forall i, j | 0 <= i < j < |versions| :: versions[i].key != versions[j].key &&
           versions[i].generation < versions[j].generation
  }

  method OtherKeys(versions: seq<Version>, key: nat) returns (kept: seq<Version>)
    requires Ordered(versions)
    ensures Ordered(kept) && |kept| <= |versions|
    ensures forall v :: v in kept <==> v in versions && v.key != key
  {
    kept := [];
    for i := 0 to |versions|
      invariant |kept| <= i && Ordered(kept)
      invariant forall v :: v in kept <==> v in versions[..i] && v.key != key
    {
      assert versions[..i + 1] == versions[..i] + [versions[i]];
      if versions[i].key != key {
        forall a | 0 <= a < |kept| ensures kept[a].key != versions[i].key &&
               kept[a].generation < versions[i].generation {
          assert kept[a] in versions[..i];
        }
        kept := kept + [versions[i]];
      }
    }
    assert versions[..|versions|] == versions;
  }

  /** Of 1024 ascending generations below `serial`, the first is at least 1024 behind. */
  lemma OldestIsOld(versions: seq<Version>, serial: nat)
    requires |versions| >= VERSION_CAP && forall i | 0 <= i < |versions| :: versions[i].generation < serial
    requires forall i, j | 0 <= i < j < |versions| :: versions[i].generation < versions[j].generation
    ensures versions[0].generation + VERSION_CAP <= serial
  {
    Climb(versions, |versions| - 1);
  }

  lemma {:induction false} Climb(versions: seq<Version>, i: nat)
    requires i < |versions| && forall i, j | 0 <= i < j < |versions| :: versions[i].generation < versions[j].generation
    ensures versions[0].generation + i <= versions[i].generation
  {
    if i > 0 {
      Climb(versions, i - 1);
    }
  }
}
