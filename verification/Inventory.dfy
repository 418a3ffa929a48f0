/** The destination inventory (lib/delegation-inventory.ts): one compare-and-swap document
    that many clients extend until one operation freezes it for good. */
module Inventory {
  import opened Identity
  import opened Documents

  const MAX_DESTINATIONS := 256
  const MAX_ATTEMPTS := 8

  datatype Registry = Registry(operation: Option<OperationId>, destinations: seq<ObjectId>)

  predicate ValidDestinations(ds: seq<ObjectId>) {
    |ds| <= MAX_DESTINATIONS && (forall d | d in ds :: IsObjectId(d)) && NoDuplicates(ds)
  }

  /** What `parse` accepts is stored sorted by every writer. */
  predicate ValidRegistry(s: Registry) {
    ValidDestinations(s.destinations) && Ascending(s.destinations) && (s.operation.Some? ==> s.operation.value.Hex?)
  }

  datatype Change = Register(destination: ObjectId) | Freeze(operation: OperationId)

  datatype Edited = Refused | Same | Changed(next: Registry)

  function Apply(s: Registry, change: Change): Edited {
    match change
    case Register(d) =>
      if !IsObjectId(d) || s.operation.Some? then Refused
      else if d in s.destinations then Same
      else if !ValidDestinations(s.destinations + [d]) then Refused
      else Changed(s.(destinations := SortedSet(s.destinations + [d])))
    case Freeze(id) =>
      if !id.Hex? then Refused
      else if s.operation == Some(id) then Same
      else if s.operation.Some? then Refused
      else Changed(s.(operation := Some(id)))
  }

  lemma ApplyValid(s: Registry, change: Change)
    requires ValidRegistry(s) && Apply(s, change).Changed?
    ensures ValidRegistry(Apply(s, change).next)
  {
    if change.Register? {
      var all := s.destinations + [change.destination];
      var sorted := SortedSet(all);
      SortedMembers(all);
      SortedCounts(all);
      forall i, j | 0 <= i < j < |sorted| ensures sorted[i] != sorted[j] {
        assert Before(sorted[i], sorted[j]);
      }
    }
  }

  lemma SortedCounts(s: seq<ObjectId>)
    requires NoDuplicates(s)
    ensures |SortedSet(s)| == |s|
  {
    var sorted := SortedSet(s);
    forall i, j | 0 <= i < j < |sorted| ensures sorted[i] != sorted[j] {
      assert Before(sorted[i], sorted[j]);
    }
    DistinctCount(sorted);
    DistinctCount(s);
  }

  // ------------------------------------------------------------ histories

  ghost predicate Step(s: Registry, n: Registry) {
    exists change :: Apply(s, change) == Changed(n)
  }

  ghost predicate History(log: seq<Registry>) {
    && (log != [] ==> ValidRegistry(log[0]) && log[0].operation == None)
    && forall i :: 0 <= i < |log| - 1 ==> Step(log[i], log[i + 1])
  }

  /** What a later version keeps: all destinations; and, once frozen, everything. */
  predicate Later(a: Registry, b: Registry) {
    && (forall d | d in a.destinations :: d in b.destinations)
    && (a.operation.Some? ==> b == a)
  }

  lemma StepLater(s: Registry, change: Change)
    requires Apply(s, change).Changed?
    ensures Later(s, Apply(s, change).next)
  {
    if change.Register? {
      SortedMembers(s.destinations + [change.destination]);
    }
  }

  lemma LogChange(log: seq<Registry>, i: nat) returns (change: Change)
    requires History(log) && i + 1 < |log|
    ensures Apply(log[i], change) == Changed(log[i + 1])
  {
    assert Step(log[i], log[i + 1]);
    change :| Apply(log[i], change) == Changed(log[i + 1]);
  }

  lemma {:induction false} HistoryValid(log: seq<Registry>, j: nat)
    requires History(log) && j < |log|
    ensures ValidRegistry(log[j])
  {
    hide Apply, ValidRegistry;
    if j > 0 {
      HistoryValid(log, j - 1);
      var change := LogChange(log, j - 1);
      ApplyValid(log[j - 1], change);
    }
  }

  lemma LaterReflexive(a: Registry)
    ensures Later(a, a)
  {
  }

  lemma LaterTransitive(a: Registry, b: Registry, c: Registry)
    requires Later(a, b) && Later(b, c)
    ensures Later(a, c)
  {
  }

  /** Registered destinations stay, a frozen registry never changes again and so belongs to
      one operation, and every version is a sorted list without duplicates. */
  lemma {:induction false} HistoryKeeps(log: seq<Registry>, i: nat, j: nat)
    requires History(log) && i <= j < |log|
    ensures Later(log[i], log[j]) && ValidRegistry(log[j])
    decreases j
  {
    hide Apply, ValidRegistry, Later, History, Step, ValidDestinations, Ascending;
    HistoryValid(log, j);
    if i == j {
      LaterReflexive(log[i]);
    } else {
      HistoryKeeps(log, i, j - 1);
      var change := LogChange(log, j - 1);
      StepLater(log[j - 1], change);
      LaterTransitive(log[i], log[j - 1], log[j]);
    }
  }

  /** Two operations never own versions of one registry. */
  lemma OneOwner(log: seq<Registry>, i: nat, j: nat)
    requires History(log) && i < |log| && j < |log| && log[i].operation.Some? && log[j].operation.Some?
    ensures log[i] == log[j]
  {
    if i <= j {
      HistoryKeeps(log, i, j);
    } else {
      HistoryKeeps(log, j, i);
    }
  }

  // ------------------------------------------------------------ the store and its clients

  /** What others do to the store while one client waits. */
  datatype Move = Edit(change: Change) | Provision(initial: seq<ObjectId>)

  class Store {
    var value: Option<Registry>
    var etag: nat
    var turns: seq<seq<Move>>
    ghost var log: seq<Registry>

    ghost predicate Valid()
      reads this
    {
      History(log) && |log| == etag && value == if etag == 0 then None else Some(log[etag - 1])
    }

    constructor (turns: seq<seq<Move>>)
      ensures Valid() && log == [] && this.turns == turns
    {
      value, etag, log := None, 0, [];
      this.turns := turns;
    }

    /** Nobody else acts. */
    predicate Alone()
      reads this
    {
      turns == []
    }

    /** Conditional write; 0 stands for the tag of an absent document. */
    method CompareAndSwap(tag: nat, next: Registry) returns (ok: bool)
      requires Valid()
      requires tag == etag == 0 ==> ValidRegistry(next) && next.operation == None
      requires tag == etag > 0 ==> Step(log[etag - 1], next)
      modifies `value, `etag, `log
      ensures Valid() && ok == (tag == old(etag))
      ensures log == old(log) + if ok then [next] else []
    {
      ok := tag == etag;
      if ok {
        value, etag, log := Some(next), etag + 1, log + [next];
      }
    }

    method Await()
      requires Valid()
      modifies this
      ensures Valid() && old(log) <= log
      ensures old(Alone()) ==> Alone() && log == old(log)
    {
      if turns == [] {
        return;
      }
      var turn := turns[0];
      turns := turns[1..];
      for i := 0 to |turn|
        invariant Valid() && old(log) <= log
      {
        match turn[i]
        case Provision(initial) =>
          if etag == 0 && ValidDestinations(initial) {
            SortedValid(initial);
            var _ := CompareAndSwap(0, Registry(None, SortedSet(initial)));
          }
        case Edit(change) =>
          if value.Some? && Apply(value.value, change).Changed? {
            assert Step(log[etag - 1], Apply(value.value, change).next);
            var _ := CompareAndSwap(etag, Apply(value.value, change).next);
          }
      }
    }
  }

  lemma SortedValid(ds: seq<ObjectId>)
    requires ValidDestinations(ds)
    ensures ValidDestinations(SortedSet(ds)) && Ascending(SortedSet(ds))
  {
    SortedMembers(ds);
    SortedCounts(ds);
    var sorted := SortedSet(ds);
    forall i, j | 0 <= i < j < |sorted| ensures sorted[i] != sorted[j] {
      assert Before(sorted[i], sorted[j]);
    }
  }

  datatype Result = Done(state: Registry) | Missing | Denied | Contention

  /** What a finished call says of the versions that were current during it. */
  ghost predicate Settled(log: seq<Registry>, r: Result, before: nat, at: nat, change: Change) {
    && (r.Done? ==> 0 < at <= |log| && before <= at && log[at - 1] == r.state && Apply(r.state, change) == Same)
    && (r == Denied ==> 0 < at <= |log| && before <= at && Apply(log[at - 1], change) == Refused)
    && (r == Contention ==> |log| > before)
    && (r == Missing ==> before == 0)
  }

  /** What a call that is left alone does to the one version there is. */
  ghost predicate Effect(r: Result, before: seq<Registry>, after: seq<Registry>, change: Change) {
    if before == [] then r == Missing && after == before
    else match Apply(before[|before| - 1], change)
         case Refused => r == Denied && after == before
         case Same => r == Done(before[|before| - 1]) && after == before
         case Changed(next) => r == Done(next) && after == before + [next]
  }

  class DelegationInventory {
    const store: Store

    constructor (store: Store)
      ensures this.store == store
    {
      this.store := store;
    }

    /** The swap of an edit of version `tag`. */
    method Swap(tag: nat, next: Registry, ghost change: Change) returns (swapped: bool)
      requires store.Valid() && 0 < tag <= store.etag && Apply(store.log[tag - 1], change) == Changed(next)
      modifies store
      ensures store.Valid() && old(store.log) <= store.log
      ensures if swapped then store.etag == tag + 1 && store.log[tag] == next else store.etag > tag
      ensures old(store.Alone()) && tag == old(store.etag) ==>
                swapped && store.Alone() && store.log == old(store.log) + [next]
    {
      hide History, Apply, Step;
      ChangeIsStep(store.log[tag - 1], change);
      store.Await();
      assert store.log[tag - 1] == old(store.log[tag - 1]);
      swapped := store.CompareAndSwap(tag, next);
    }

    /** Read, edit, swap; contention when somebody else has written in between. */
    method Attempt(change: Change) returns (r: Result, ghost at: nat)
      requires store.Valid()
      modifies store
      ensures store.Valid() && old(store.log) <= store.log && Settled(store.log, r, |old(store.log)|, at, change)
      ensures old(store.Alone()) ==> store.Alone() && Effect(r, old(store.log), store.log, change)
    {
      at := 0;
      hide History, Apply, ValidRegistry, Step, Effect, Settled;
      store.Await();
      ghost var log := store.log;
      if store.value.None? {
        NothingThere(log, old(store.log), change);
        return Missing, at;
      }
      var saved, etag := store.value.value, store.etag;
      at := etag;
      Unchanged(log, old(store.log), saved, change);
      match Apply(saved, change)
      case Refused => return Denied, at;
      case Same => return Done(saved), at;
      case Changed(next) =>
        HistoryValid(log, etag - 1);
        var swapped := Swap(etag, next, change);
        Replaced(log, store.log, old(store.log), next, change, swapped);
        at := etag + 1;
        return if swapped then Done(next) else Contention, at;
    }

    /** The swap loop. A result is the state of some version that was current during the
        call and on which the change is in force; giving up means eight other writes. */
    method Update(change: Change) returns (r: Result, ghost at: nat)
      requires store.Valid()
      modifies store
      ensures store.Valid() && old(store.log) <= store.log && Settled(store.log, r, |old(store.log)|, at, change)
      ensures r == Contention ==> |store.log| >= |old(store.log)| + MAX_ATTEMPTS
      ensures old(store.Alone()) ==> store.Alone() && Effect(r, old(store.log), store.log, change)
    {
      at := 0;
      hide History, Apply, ValidRegistry;
      for attempt := 0 to MAX_ATTEMPTS
        invariant store.Valid() && old(store.log) <= store.log
        invariant |store.log| >= |old(store.log)| + attempt
        invariant old(store.Alone()) ==> attempt == 0 && store.Alone() && store.log == old(store.log)
      {
        r, at := Attempt(change);
        if r != Contention {
          return;
        }
      }
      return Contention, at;
    }

    /** A destination whose registration returned is in every version from then on, in
        particular in the one that freezes. */
    method Register(destination: ObjectId) returns (r: Result, ghost at: nat)
      requires store.Valid()
      modifies store
      ensures store.Valid() && old(store.log) <= store.log
      ensures r.Done? ==> 0 < at <= |store.log| && forall j | at - 1 <= j < |store.log| ::
              destination in store.log[j].destinations
      ensures old(store.Alone()) ==> Registered(r, old(store.log), destination)
    {
      r, at := Update(Change.Register(destination));
      if r.Done? {
        forall j | at - 1 <= j < |store.log| ensures destination in store.log[j].destinations {
          HistoryKeeps(store.log, at - 1, j);
        }
      }
      if old(store.Alone()) && old(store.log) != [] {
        HistoryValid(old(store.log), |old(store.log)| - 1);
        RegisterMeans(old(store.log)[|old(store.log)| - 1], destination);
      }
    }

    /** Left alone, a registration is refused on a frozen or full registry only, and otherwise
        adds its destination to the list and nothing else. */
    ghost predicate Registered(r: Result, before: seq<Registry>, destination: ObjectId)
      reads store
    {
      if before == [] then r == Missing && store.log == before
      else
        var s := before[|before| - 1];
        if !IsObjectId(destination) || s.operation.Some? then r == Denied && store.log == before
        else if destination in s.destinations then r == Done(s) && store.log == before
        else if |s.destinations| == MAX_DESTINATIONS then r == Denied && store.log == before
        else
          && r.Done? && store.log == before + [r.state] && r.state.operation == None
          && Elements(r.state.destinations) == Elements(s.destinations) + {destination}
    }

    /** A freeze that returned made the operation the one owner of one fixed list. */
    method Freeze(operation: OperationId) returns (r: Result, ghost at: nat)
      requires store.Valid()
      modifies store
      ensures store.Valid() && old(store.log) <= store.log
      ensures r.Done? ==> r.state.operation == Some(operation) && 0 < at <= |store.log|
      ensures r.Done? ==> forall j | at - 1 <= j < |store.log| :: store.log[j] == r.state
      ensures old(store.Alone()) ==> Frozen(r, old(store.log), operation)
    {
      r, at := Update(Change.Freeze(operation));
      if r.Done? {
        forall j | at - 1 <= j < |store.log| ensures store.log[j] == r.state {
          HistoryKeeps(store.log, at - 1, j);
        }
      }
    }

    /** Left alone, a freeze is refused on a registry of another operation only, and otherwise
        makes the registry this operation's as it is. */
    ghost predicate Frozen(r: Result, before: seq<Registry>, operation: OperationId)
      reads store
    {
      if before == [] then r == Missing && store.log == before
      else
        var s := before[|before| - 1];
        if !operation.Hex? || (s.operation.Some? && s.operation.value != operation)
        then r == Denied && store.log == before
        else if s.operation.Some? then r == Done(s) && store.log == before
        else r == Done(Registry(Some(operation), s.destinations)) && store.log == before + [r.state]
    }

    /** Explicit provisioning: whoever comes first; the others must have meant the same. */
    method Initialize(initial: seq<ObjectId>) returns (r: Result)
      requires store.Valid()
      modifies store
      ensures store.Valid() && old(store.log) <= store.log
      ensures r.Done? ==> r.state == Registry(None, SortedSet(initial)) && store.value == Some(r.state)
      ensures old(store.Alone()) ==>
                var next := Registry(None, SortedSet(initial));
                if ValidDestinations(initial) && old(store.log) == [] then r == Done(next) && store.log == [next]
                else
                  && store.log == old(store.log)
                  && (r.Done? <==> ValidDestinations(initial) && old(store.log)[|old(store.log)| - 1] == next)
    {
      hide History, Step, SortedSet;
      if !ValidDestinations(initial) {
        return Denied;
      }
      SortedValid(initial);
      var next := Registry(None, SortedSet(initial));
      store.Await();
      var _ := store.CompareAndSwap(0, next);
      store.Await();
      if store.value.None? {
        return Missing;
      }
      return if store.value.value == next then Done(next) else Denied;
    }
  }

  lemma NothingThere(log: seq<Registry>, before: seq<Registry>, change: Change)
    requires log == [] && before <= log
    ensures Settled(log, Missing, |before|, 0, change) && Effect(Missing, before, log, change)
  {
  }

  lemma Unchanged(log: seq<Registry>, before: seq<Registry>, saved: Registry, change: Change)
    requires log != [] && before <= log && saved == log[|log| - 1]
    ensures Apply(saved, change) == Refused ==> Settled(log, Denied, |before|, |log|, change)
    ensures Apply(saved, change) == Same ==> Settled(log, Done(saved), |before|, |log|, change)
    ensures log == before && Apply(saved, change) == Refused ==> Effect(Denied, before, log, change)
    ensures log == before && Apply(saved, change) == Same ==> Effect(Done(saved), before, log, change)
  {
    hide Apply;
  }

  lemma Replaced(log: seq<Registry>, after: seq<Registry>, before: seq<Registry>, next: Registry, change: Change,
                 swapped: bool)
    requires log != [] && before <= log <= after && ValidRegistry(log[|log| - 1])
    requires Apply(log[|log| - 1], change) == Changed(next) && |after| > |log|
    requires swapped ==> after[|log|] == next
    ensures Settled(after, if swapped then Done(next) else Contention, |before|, |log| + 1, change)
    ensures swapped && log == before && after == before + [next] ==> Effect(Done(next), before, after, change)
  {
    AppliedIsSame(log[|log| - 1], change);
    hide Apply, ValidRegistry;
  }

  lemma ChangeIsStep(s: Registry, change: Change)
    requires Apply(s, change).Changed?
    ensures Step(s, Apply(s, change).next)
  {
  }

  lemma AppliedIsSame(s: Registry, change: Change)
    requires ValidRegistry(s) && Apply(s, change).Changed?
    ensures Apply(Apply(s, change).next, change) == Same
  {
    if change.Register? {
      SortedMembers(s.destinations + [change.destination]);
      assert change.destination in s.destinations + [change.destination];
    }
  }

  lemma RegisterMeans(s: Registry, d: ObjectId)
    requires NoDuplicates(s.destinations)
    ensures match Apply(s, Change.Register(d))
            case Refused => !IsObjectId(d) || s.operation.Some? || !ValidDestinations(s.destinations + [d])
            case Same => d in s.destinations
            case Changed(next) =>
              next.operation == s.operation && Elements(next.destinations) == Elements(s.destinations) + {d}
  {
    assert Elements(s.destinations + [d]) == Elements(s.destinations) + {d};
  }
}
