/** Principals and object identifiers. The textual grammars are abstract: a value
    either is a well-formed name or is one of the malformed ones. */
module Identity {

  datatype Option<+T> = None | Some(value: T)

  /** A SEA public key, or a string that is not one. */
  datatype Key = Sea(point: nat) | NotAKey(text: nat)

  predicate IsSeaPubkey(key: Key) {
    key.Sea?
  }

  /** Prefixes of minted object identifiers, in the order their names sort. */
  datatype Kind = Artifact | Forum | Need | Offer | Prompt | SetObject | Status | Subtask | Update

  function Rank(kind: Kind): nat {
    match kind
    case Artifact => 0
    case Forum => 1
    case Need => 2
    case Offer => 3
    case Prompt => 4
    case SetObject => 5
    case Status => 6
    case Subtask => 7
    case Update => 8
  }

  /** A minted identifier embeds the principal that owns the object. */
  datatype ObjectId = Minted(kind: Kind, principal: nat, nonce: nat) | Malformed(text: nat)

  predicate IsObjectId(id: ObjectId) {
    id.Minted?
  }

  predicate IsObjectIdOf(id: ObjectId, kind: Kind) {
    id.Minted? && id.kind == kind
  }

  /** The key embedded in an identifier. */
  function PrincipalOf(id: ObjectId): Key {
    match id
    case Minted(_, principal, _) => Sea(principal)
    case Malformed(text) => NotAKey(text)
  }

  predicate Before(a: ObjectId, b: ObjectId) {
    match (a, b)
    case (Malformed(x), Malformed(y)) => x < y
    case (Minted(_, _, _), Malformed(_)) => true
    case (Malformed(_), Minted(_, _, _)) => false
    case (Minted(k, p, n), Minted(l, q, m)) =>
      Rank(k) < Rank(l) || (k == l && (p < q || (p == q && n < m)))
  }

  lemma BeforeIsTotal(a: ObjectId, b: ObjectId)
    ensures Before(a, b) || Before(b, a) || a == b
  {
  }

  predicate NoDuplicates<T(==)>(s: seq<T>) {
    forall i, j :: 0 <= i < j < |s| ==> s[i] != s[j]
  }

  function Elements<T>(s: seq<T>): set<T> {
    set x | x in s
  }

  lemma {:induction false} DistinctCount<T>(s: seq<T>)
    requires NoDuplicates(s)
    ensures |Elements(s)| == |s|
  {
    if s != [] {
      var front, last := s[..|s| - 1], s[|s| - 1];
      DistinctCount(front);
      assert s == front + [last];
      assert last !in front;
      ElementsAppend(front, last);
    }
  }

  lemma ElementsAppend<T>(front: seq<T>, last: T)
    ensures Elements(front + [last]) == Elements(front) + {last}
    ensures last in Elements(front) <==> last in front
  {
  }

  lemma SubsetCount<T>(a: set<T>, b: set<T>)
    requires a <= b
    ensures |a| <= |b|
  {
    assert a + (b - a) == b;
    assert |b| == |a| + |b - a|;
  }

  lemma WithOne<T>(s: set<T>, x: T)
    ensures |s + {x}| == |s| + if x in s then 0 else 1
  {
    if x in s {
      assert s + {x} == s;
    }
  }

  predicate Ascending(s: seq<ObjectId>) {
    forall i, j :: 0 <= i < j < |s| ==> Before(s[i], s[j])
  }

  /** Insert into an ascending list, keeping it ascending and free of duplicates. */
  function Insert(s: seq<ObjectId>, id: ObjectId): (r: seq<ObjectId>)
    ensures Elements(r) == Elements(s) + {id}
    ensures Ascending(s) ==> Ascending(r)
    ensures |r| <= |s| + 1
  {
    if s == [] then [id]
    else if s[0] == id then s
    else if Before(id, s[0]) then [id] + s
    else
      var rest := Insert(s[1..], id);
      assert Elements(s) == {s[0]} + Elements(s[1..]);
      assert Elements([s[0]] + rest) == {s[0]} + Elements(rest);
      assert Ascending(s) ==> Ascending([s[0]] + rest) by {
        if Ascending(s) {
          BeforeIsTotal(id, s[0]);
          forall x | x in rest ensures Before(s[0], x) {
            assert x in Elements(rest);
            if x != id {
              assert x in Elements(s[1..]);
            }
          }
        }
      }
      [s[0]] + rest
  }

  /** The list `[...new Set(s)].sort()`. */
  function SortedSet(s: seq<ObjectId>): (r: seq<ObjectId>)
    ensures Ascending(r)
    ensures Elements(r) == Elements(s)
  {
    if s == [] then []
    else
      assert s == s[..|s| - 1] + [s[|s| - 1]];
      Insert(SortedSet(s[..|s| - 1]), s[|s| - 1])
  }

  lemma SortedMembers(s: seq<ObjectId>)
    ensures forall d :: d in SortedSet(s) <==> d in s
  {
    forall d ensures d in SortedSet(s) <==> d in s {
      assert d in SortedSet(s) <==> d in Elements(SortedSet(s));
    }
  }

  lemma NoElements<T>(s: seq<T>)
    ensures Elements(s) == {} ==> s == []
  {
    if s != [] { assert s[0] in Elements(s); }
  }

  /** An ascending list is determined by its elements. */
  lemma {:induction false} AscendingUnique(a: seq<ObjectId>, b: seq<ObjectId>)
    requires Ascending(a) && Ascending(b) && Elements(a) == Elements(b)
    ensures a == b
  {
    if a == [] {
      NoElements(b);
    } else {
      assert a[0] in Elements(a);
      assert b != [];
      assert b[0] in Elements(b);
      assert a[0] in b && b[0] in a;
      assert a[0] == b[0] by { BeforeIsTotal(a[0], b[0]); }
      TailElements(a);
      TailElements(b);
      AscendingUnique(a[1..], b[1..]);
      assert a == [a[0]] + a[1..] && b == [b[0]] + b[1..];
    }
  }

  lemma TailElements(a: seq<ObjectId>)
    requires Ascending(a) && a != []
    ensures Elements(a[1..]) == Elements(a) - {a[0]}
  {
    forall x | x in Elements(a) - {a[0]} ensures x in Elements(a[1..]) {
      var i :| 0 <= i < |a| && a[i] == x;
      assert a[1..][i - 1] == x;
    }
  }
}
