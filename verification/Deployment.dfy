/** A running deployment: the journal behind its compare-and-swap store, the create-once
    documents beside it, a clock, and everybody else. What the others do while a client
    waits is an arbitrary schedule; a theorem about a method holds for every schedule. */
module Deployment {
  import opened Identity
  import opened Authority
  import opened Documents
  import opened Journal
  import opened Protocol

  /** Documents that are created at most once and never change: per operation its frozen
      destination registry, its cancellation document and its grant plan. */
  datatype Shelf = Shelf(
    registries: map<OperationId, seq<ObjectId>>,
    documents: map<OperationId, CancellationOperation>,
    plans: map<OperationId, GrantPlan>)

  predicate KeepsAll<K, V(==)>(a: map<K, V>, b: map<K, V>) {
    forall k | k in a :: k in b && b[k] == a[k]
  }

  predicate ShelfKept(a: Shelf, b: Shelf) {
    KeepsAll(a.registries, b.registries) && KeepsAll(a.documents, b.documents) && KeepsAll(a.plans, b.plans)
  }

  /** What only ever grows; and where everybody else is `calm`, they stay so, and time stands still. */
  datatype Course = Course(log: seq<State>, etag: nat, clock: nat, shelf: Shelf, calm: bool)

  ghost predicate Follows(a: Course, b: Course) {
    a.log <= b.log && a.etag <= b.etag && a.clock <= b.clock && ShelfKept(a.shelf, b.shelf) &&
    (a.calm ==> b.calm && b.clock == a.clock)
  }

  lemma FollowsTransitive(a: Course, b: Course, c: Course)
    requires Follows(a, b) && Follows(b, c)
    ensures Follows(a, c)
  {
  }

  lemma FollowsReflexive(a: Course)
    ensures Follows(a, a)
  {
  }

  /** What another client may do: write the journal under the discipline of `Protocol`,
      with evidence evaluated at second `at`, or create a document, well formed or not. */
  datatype Move =
    | Act(command: Command, at: nat)
    | Freeze(id: OperationId, registry: seq<ObjectId>)
    | SaveDocument(id: OperationId, document: CancellationOperation)
    | SavePlan(id: OperationId, plan: GrantPlan)

  /** What happens while one client waits: moves of others, time, possibly its own crash. */
  datatype Turn = Turn(moves: seq<Move>, tick: nat, crash: bool)

  /** A frozen registry is the sorted, duplicate-free list that froze. Where documents are
      `planned`, whoever prepares a cancellation document has planned it. */
  predicate Orderly(shelf: Shelf, planned: bool) {
    && (forall id | id in shelf.registries :: Ascending(shelf.registries[id]))
    && (planned ==> forall id | id in shelf.documents :: OfPlannerSize(shelf.documents[id]))
  }

  /** A registry that could freeze, or a document that could be prepared. */
  predicate Plausible(move: Move, planned: bool) {
    && (move.Freeze? ==> Ascending(move.registry))
    && (planned && move.SaveDocument? ==> OfPlannerSize(move.document))
  }

  predicate Quiet(turn: Turn) {
    turn.moves == [] && turn.tick == 0 && !turn.crash
  }

  class World {
    const cfg: Config
    /** Whether all documents are prepared by planners, as those of the runtime are. */
    const planned: bool
    var state: State
    var etag: nat
    var clock: nat
    var shelf: Shelf
    var turns: seq<Turn>
    /** Every version ever stored; an entity tag is a position in it, never reused. */
    ghost var log: seq<State>

    ghost predicate Valid()
      reads this
    {
      FaithfulBytes(cfg) && LegalRun(cfg, log) && |log| == etag + 1 && state == log[etag] &&
      Orderly(shelf, planned)
    }

    /** Nobody else acts, the second does not change and the client does not crash. */
    predicate Calm()
      reads this
    {
      forall t | t in turns :: Quiet(t)
    }

    ghost function Trail(): Course
      reads this
    {
      Course(log, etag, clock, shelf, Calm())
    }

    twostate predicate Still()
      reads this
    {
      log == old(log) && etag == old(etag) && clock == old(clock) && shelf == old(shelf) && state == old(state) &&
        Calm()
    }

    /** Nothing changed but the shelf. */
    twostate predicate ShelfOnly()
      reads this
    {
      log == old(log) && etag == old(etag) && clock == old(clock) && state == old(state) && Calm()
    }

    constructor (cfg: Config, planned: bool, initial: State, clock: nat, turns: seq<Turn>)
      requires FaithfulBytes(cfg) && Genesis(initial)
      ensures Valid() && log == [initial] && this.cfg == cfg && this.planned == planned && this.turns == turns
    {
      this.cfg, this.planned := cfg, planned;
      this.state := initial;
      this.etag := 0;
      this.clock := clock;
      this.shelf := Shelf(map[], map[], map[]);
      this.turns := turns;
      this.log := [initial];
    }

    /** The store's conditional write. Its proof obligation is the discipline: what is
        written is a legal step of the version that the tag names. */
    method CompareAndSwap(tag: nat, next: State, ghost c: Command, ghost at: nat) returns (ok: bool)
      requires Valid() && tag <= etag
      requires tag == etag ==> Exec(log[tag], c) == Written(next) && Legal(cfg, log[tag], c, at)
      modifies `state, `etag, `log
      ensures Valid()
      ensures ok <==> tag == old(etag)
      ensures ok ==> log == old(log) + [next] && etag == tag + 1
      ensures !ok ==> log == old(log) && etag == old(etag) && state == old(state)
    {
      hide Legal, Exec, Attempt;
      ok := tag == etag;
      if ok {
        assert LegalStep(cfg, log[tag], next);
        state, etag, log := next, etag + 1, log + [next];
      }
    }

    /** Create-if-absent: an existing document stays, and everything else too. */
    method Create(move: Move)
      requires Orderly(shelf, planned)
      requires Plausible(move, planned)
      modifies `shelf
      ensures Orderly(shelf, planned) && ShelfKept(old(shelf), shelf) && Follows(old(Trail()), Trail())
      ensures shelf == match move
                       case Act(_, _) => old(shelf)
                       case Freeze(id, registry) => if id in old(shelf).registries then old(shelf)
                            else old(shelf).(registries := old(shelf).registries[id := registry])
                       case SaveDocument(id, document) => if id in old(shelf).documents then old(shelf)
                            else old(shelf).(documents := old(shelf).documents[id := document])
                       case SavePlan(id, plan) => if id in old(shelf).plans then old(shelf)
                            else old(shelf).(plans := old(shelf).plans[id := plan])
    {
      match move
      case Act(_, _) =>
      case Freeze(id, registry) =>
        if id !in shelf.registries { shelf := shelf.(registries := shelf.registries[id := registry]); }
      case SaveDocument(id, document) =>
        if id !in shelf.documents { shelf := shelf.(documents := shelf.documents[id := document]); }
      case SavePlan(id, plan) =>
        if id !in shelf.plans { shelf := shelf.(plans := shelf.plans[id := plan]); }
    }

    method Apply(move: Move)
      requires Valid()
      modifies `state, `etag, `log, `shelf
      ensures Valid() && old(log) <= log && old(etag) <= etag && ShelfKept(old(shelf), shelf)
    {
      if move.Act? {
        var outcome := Exec(state, move.command);
        if outcome.Written? && Legal(cfg, state, move.command, move.at) {
          var _ := CompareAndSwap(etag, outcome.next, move.command, move.at);
        }
      } else if Plausible(move, planned) {
        Create(move);
      }
    }

    /** Yield to everybody else. False when the client did not survive. */
    method Await() returns (alive: bool)
      requires Valid()
      modifies this
      ensures Valid() && Follows(old(Trail()), Trail())
      ensures old(Calm()) ==> alive && Still()
    {
      if turns == [] {
        return true;
      }
      var turn := turns[0];
      assert turn in turns;
      assert forall t | t in turns[1..] :: t in turns;
      turns := turns[1..];
      for i := 0 to |turn.moves|
        invariant Valid() && old(log) <= log && old(etag) <= etag && ShelfKept(old(shelf), shelf)
        invariant clock == old(clock) && turns == old(turns)[1..]
        invariant i == 0 ==> log == old(log) && etag == old(etag) && shelf == old(shelf) && state == old(state)
      {
        Apply(turn.moves[i]);
      }
      clock := clock + turn.tick;
      alive := !turn.crash;
    }
  }
}
