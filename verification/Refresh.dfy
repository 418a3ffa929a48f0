/** The refresh of the authority graph (lib/identity/forum-authority.ts:116-201): its loops, and
    the search that refuses a cyclic history of cancellations. */
module Refresh {
  import opened Identity
  import opened Authority

  // ------------------------------------------------------------ histories of cancellations

  /** A cancellation by its address and id. Several records may share one. */
  type Node = (Soul, CancelId)

  type History = map<Node, set<Node>>

  /** No predecessor is missing. */
  predicate Complete(prior: History) {
    forall v | v in prior :: prior[v] <= prior.Keys
  }

  /** The cancellations whose predecessors are all settled after `n` rounds. */
  function Rounds(prior: History, n: nat): set<Node> {
    if n == 0 then {} else set v | v in prior && prior[v] <= Rounds(prior, n - 1)
  }

  predicate Grounded(prior: History, v: Node) {
    v in Rounds(prior, |prior|)
  }

  lemma {:induction false} RoundsGrow(prior: History, n: nat)
    ensures Rounds(prior, n) <= Rounds(prior, n + 1) <= prior.Keys
  {
    if n > 0 {
      RoundsGrow(prior, n - 1);
    }
  }

  lemma {:induction false} RoundsFixed(prior: History, m: nat, n: nat)
    requires Rounds(prior, m) == Rounds(prior, m + 1) && m <= n
    ensures Rounds(prior, n) == Rounds(prior, m)
    decreases n
  {
    if m < n {
      RoundsFixed(prior, m, n - 1);
    }
  }

  /** Each round adds a cancellation, or none after it does. */
  lemma {:induction false} RoundsCount(prior: History, n: nat) returns (m: nat)
    ensures m <= n && (Rounds(prior, m) == Rounds(prior, m + 1) || (m == n && |Rounds(prior, n)| >= n))
  {
    m := n;
    if n > 0 {
      m := RoundsCount(prior, n - 1);
      if Rounds(prior, m) != Rounds(prior, m + 1) {
        RoundsGrow(prior, n - 1);
        m := n;
        ProperSubsetCount(Rounds(prior, n - 1), Rounds(prior, n));
      }
    }
  }

  lemma ProperSubsetCount<T>(a: set<T>, b: set<T>)
    requires a < b
    ensures |a| < |b|
  {
    assert !(b <= a);
    var x :| x in b && x !in a;
    SubsetCount(a + {x}, b);
  }

  /** All that is ever settled is settled after as many rounds as there are cancellations. */
  lemma RoundsEnd(prior: History, n: nat)
    ensures Rounds(prior, n) <= Rounds(prior, |prior|)
    ensures n >= |prior| ==> Rounds(prior, n) == Rounds(prior, |prior|)
  {
    var size := |prior|;
    assert size == |prior.Keys|;
    var m := RoundsCount(prior, size);
    RoundsGrow(prior, size);
    if Rounds(prior, m) != Rounds(prior, m + 1) {
      SubsetCount(Rounds(prior, size), prior.Keys);
      if Rounds(prior, size) != prior.Keys {
        ProperSubsetCount(Rounds(prior, size), prior.Keys);
      }
    }
    RoundsFixed(prior, m, size);
    if n >= m {
      RoundsFixed(prior, m, n);
    } else {
      RoundsUpTo(prior, n, m);
    }
  }

  lemma {:induction false} RoundsUpTo(prior: History, n: nat, m: nat)
    requires n <= m
    ensures Rounds(prior, n) <= Rounds(prior, m)
    decreases m
  {
    if n < m {
      RoundsUpTo(prior, n, m - 1);
      RoundsGrow(prior, m - 1);
    }
  }

  lemma GroundedNext(prior: History, v: Node)
    requires v in prior && forall p | p in prior[v] :: Grounded(prior, p)
    ensures Grounded(prior, v)
  {
    assert v in Rounds(prior, |prior| + 1);
    RoundsEnd(prior, |prior| + 1);
  }

  /** Cancellations each of which has a predecessor among them are never settled. */
  lemma {:induction false} LoopNeverSettles(prior: History, loop: set<Node>, n: nat)
    requires forall v | v in loop && v in prior :: exists p :: p in prior[v] && p in loop
    ensures forall v | v in loop :: v !in Rounds(prior, n)
  {
    if n > 0 {
      LoopNeverSettles(prior, loop, n - 1);
      forall v | v in loop ensures v !in Rounds(prior, n) {
        if v in prior {
          var p :| p in prior[v] && p in loop;
          assert p !in Rounds(prior, n - 1);
        }
      }
    }
  }

  // ------------------------------------------------------------ the search

  /** A chain of cancellations, each a predecessor of the one before. */
  ghost predicate Chain(prior: History, path: seq<Node>) {
    && (forall v | v in path :: v in prior)
    && forall k :: 0 <= k < |path| - 1 ==> path[k] in prior && path[k + 1] in prior[path[k]]
  }

  lemma ChainLoops(prior: History, path: seq<Node>, k: nat)
    requires Chain(prior, path) && k < |path| && path[k] in prior[path[|path| - 1]]
    ensures path[k] in prior && !Grounded(prior, path[k])
  {
    var loop := Elements(path[k..]);
    forall v | v in loop && v in prior ensures exists p :: p in prior[v] && p in loop {
      var i :| 0 <= i < |path[k..]| && path[k..][i] == v;
      assert path[k + i] == v;
      var next := if k + i + 1 < |path| then path[k + i + 1] else path[k];
      assert next in prior[v];
      assert next == if k + i + 1 < |path| then path[k..][i + 1] else path[k..][0];
      assert next in loop;
    }
    LoopNeverSettles(prior, loop, |prior|);
    assert path[k..][0] in loop;
  }

  class Search {
    const prior: History
    var visiting: set<Node>
    var visited: set<Node>
    /** What is being visited, from the outermost call in. */
    ghost var path: seq<Node>

    ghost predicate Valid()
      reads this
    {
      && Complete(prior) && Chain(prior, path) && visiting == Elements(path)
      && forall v | v in visited :: v in prior && Grounded(prior, v)
    }

    constructor (prior: History)
      requires Complete(prior)
      ensures Valid() && this.prior == prior && path == [] && visited == {}
    {
      this.prior, visiting, visited, path := prior, {}, {}, [];
    }

    /** True when everything below `id` is grounded; false only when something is not. */
    method Visit(id: Node) returns (ok: bool)
      requires Valid() && id in prior && (path != [] ==> id in prior[path[|path| - 1]])
      modifies this
      ensures ok ==> Valid() && path == old(path) && id in visited && old(visited) <= visited
      ensures !ok ==> exists v :: v in prior && !Grounded(prior, v)
      decreases prior.Keys - visiting
    {
      hide Grounded;
      if id in visited {
        return true;
      }
      if id in visiting {
        ghost var k :| 0 <= k < |path| && path[k] == id;
        ChainLoops(prior, path, k);
        return false;
      }
      visiting, path := visiting + {id}, path + [id];
      var rest := prior[id];
      while rest != {}
        invariant Valid() && path == old(path) + [id] && old(visited) <= visited
        invariant rest <= prior[id] <= rest + visited
        decreases rest
      {
        var next :| next in rest;
        rest := rest - {next};
        var settled := Visit(next);
        if !settled {
          return false;
        }
      }
      GroundedNext(prior, id);
      visiting, visited, path := visiting - {id}, visited + {id}, old(path);
      return true;
    }

    /** Every cancellation is grounded: there is no cycle. */
    method VisitAll() returns (ok: bool)
      requires Valid() && path == []
      modifies this
      ensures ok <==> forall v | v in prior :: Grounded(prior, v)
    {
      hide Grounded;
      var rest := prior.Keys;
      while rest != {}
        invariant Valid() && path == [] && rest <= prior.Keys <= rest + visited
        decreases rest
      {
        var next :| next in rest;
        rest := rest - {next};
        ok := Visit(next);
        if !ok {
          return false;
        }
      }
      return true;
    }
  }

  // ------------------------------------------------------------ from rows to histories

  function CancelsOf(rows: set<Row>): set<Row> {
    set row | row in rows && row.GroupCancel?
  }

  function Nodes(cancels: set<Row>): set<Node> {
    set c | c in cancels && c.GroupCancel? :: (c.of, c.cancelId)
  }

  function PriorOf(cancels: set<Row>, v: Node): set<Node> {
    set c, p | c in cancels && c.GroupCancel? && (c.of, c.cancelId) == v && p in c.prior :: (c.of, p)
  }

  function HistoryOf(cancels: set<Row>): History {
    map v | v in Nodes(cancels) :: PriorOf(cancels, v)
  }

  lemma RipeMeans(cancels: set<Row>, c: Row, done: set<Node>)
    requires c in cancels && c.GroupCancel?
    ensures Ripe(cancels, c, done) <==> PriorOf(cancels, (c.of, c.cancelId)) <= done
  {
    var v := (c.of, c.cancelId);
    if Ripe(cancels, c, done) {
      forall w | w in PriorOf(cancels, v) ensures w in done {
        var d, p :| d in cancels && d.GroupCancel? && (d.of, d.cancelId) == v && p in d.prior && w == (d.of, p);
      }
    } else {
      var d, p :| d in cancels && d.GroupCancel? && d.of == c.of && d.cancelId == c.cancelId && p in d.prior &&
                  (c.of, p) !in done;
      assert (d.of, d.cancelId) == v;
      assert (d.of, p) in PriorOf(cancels, v);
    }
  }

  lemma RipenedMeans(cancels: set<Row>, done: set<Node>)
    ensures Ripened(cancels, done) == set v | v in HistoryOf(cancels) && HistoryOf(cancels)[v] <= done
  {
    var prior := HistoryOf(cancels);
    forall c | c in cancels && c.GroupCancel?
      ensures Ripe(cancels, c, done) <==> prior[(c.of, c.cancelId)] <= done
    {
      RipeMeans(cancels, c, done);
      assert (c.of, c.cancelId) in Nodes(cancels);
    }
    hide Ripe, PriorOf;
  }

  lemma {:induction false} SettledIsRounds(cancels: set<Row>, n: nat)
    ensures Settled(cancels, n) == Rounds(HistoryOf(cancels), n)
  {
    if n > 0 {
      SettledIsRounds(cancels, n - 1);
      RipenedMeans(cancels, Settled(cancels, n - 1));
      hide Ripened, HistoryOf;
    }
  }

  lemma NodeCount(cancels: set<Row>)
    ensures |HistoryOf(cancels)| <= |cancels|
  {
    var m := HistoryOf(cancels);
    assert |m| == |m.Keys| && m.Keys == Nodes(cancels);
    ImageCount(cancels);
  }

  lemma {:induction false} ImageCount(cancels: set<Row>)
    ensures |Nodes(cancels)| <= |cancels|
  {
    if cancels != {} {
      var c :| c in cancels;
      ImageCount(cancels - {c});
      assert Nodes(cancels) <= Nodes(cancels - {c}) + if c.GroupCancel? then {(c.of, c.cancelId)} else {};
      SubsetCount(Nodes(cancels), Nodes(cancels - {c}) + if c.GroupCancel? then {(c.of, c.cancelId)} else {});
    }
  }

  /** Groundedness of a row set is that of its history, which must be complete. */
  lemma GroundedCancelsMeans(rows: set<Row>)
    ensures var prior := HistoryOf(CancelsOf(rows));
            GroundedCancels(rows) <==> Complete(prior) && forall v | v in prior :: Grounded(prior, v)
  {
    var cancels, prior := CancelsOf(rows), HistoryOf(CancelsOf(rows));
    NodeCount(cancels);
    SettledIsRounds(cancels, |cancels|);
    RoundsEnd(prior, |cancels|);
    AllSettled(rows);
    AllGrounded(prior);
    hide Settled, HistoryOf, Rounds, GroundedCancels, Complete;
  }

  lemma AllSettled(rows: set<Row>)
    ensures var cancels := CancelsOf(rows);
            GroundedCancels(rows) <==> forall v | v in HistoryOf(cancels) :: v in Settled(cancels, |cancels|)
  {
    hide Settled, PriorOf;
    var cancels := CancelsOf(rows);
    forall c | c in cancels ensures (c.of, c.cancelId) in HistoryOf(cancels) {
    }
  }

  lemma AllGrounded(prior: History)
    ensures (forall v | v in prior :: Grounded(prior, v)) ==> Complete(prior)
  {
    if forall v | v in prior :: Grounded(prior, v) {
      forall v | v in prior ensures prior[v] <= prior.Keys {
        SettledHasPrior(prior, v, |prior|);
      }
    }
  }

  lemma SettledHasPrior(prior: History, v: Node, n: nat)
    requires v in Rounds(prior, n)
    ensures v in prior && prior[v] <= prior.Keys
  {
    if n > 1 {
      RoundsGrow(prior, n - 2);
    }
  }

  // ------------------------------------------------------------ the loops of the refresh

  lemma HistoryExtend(cancels: set<Row>, c: Row)
    requires c.GroupCancel?
    ensures var (prior, v) := (HistoryOf(cancels), (c.of, c.cancelId));
            HistoryOf(cancels + {c}) ==
              prior[v := (if v in prior then prior[v] else {}) + set p | p in c.prior :: (c.of, p)]
  {
    var all, v := cancels + {c}, (c.of, c.cancelId);
    assert Nodes(all) == Nodes(cancels) + {v} by {
      forall d | d in cancels && d.GroupCancel? ensures (d.of, d.cancelId) in Nodes(all) {
        assert d in all;
      }
      assert c in all;
    }
    forall w: Node ensures PriorOf(all, w) == PriorOf(cancels, w) + if w == v then PriorOf({c}, v) else {} {
    }
    assert PriorOf({c}, v) == set p | p in c.prior :: (c.of, p);
    PriorIsKnown(cancels, v);
    var prior := HistoryOf(cancels);
    var next := prior[v := (if v in prior then prior[v] else {}) + set p | p in c.prior :: (c.of, p)];
    assert HistoryOf(all).Keys == next.Keys;
    forall w | w in HistoryOf(all) ensures HistoryOf(all)[w] == next[w] {
      if w == v {
        assert PriorOf(all, w) == PriorOf(cancels, w) + PriorOf({c}, v);
        assert w in prior ==> prior[w] == PriorOf(cancels, w);
      } else {
        assert PriorOf(all, w) == PriorOf(cancels, w);
      }
    }
  }

  lemma PriorIsKnown(cancels: set<Row>, v: Node)
    ensures v !in Nodes(cancels) ==> PriorOf(cancels, v) == {}
  {
    if w :| w in PriorOf(cancels, v) {
      var c, p :| c in cancels && c.GroupCancel? && (c.of, c.cancelId) == v && p in c.prior && w == (c.of, p);
      assert v in Nodes(cancels);
    }
  }

  /** The history is complete when every cancellation names known ones only. */
  lemma CompleteMeans(rows: set<Row>)
    ensures Complete(HistoryOf(CancelsOf(rows))) <==>
              forall c | c in rows && c.GroupCancel? :: c.prior <= CancelsAt(rows, c.of)
  {
    var cancels, prior := CancelsOf(rows), HistoryOf(CancelsOf(rows));
    if Complete(prior) {
      forall c, p | c in rows && c.GroupCancel? && p in c.prior ensures p in CancelsAt(rows, c.of) {
        var v := (c.of, c.cancelId);
        assert c in cancels;
        assert v in Nodes(cancels);
        assert (c.of, p) in PriorOf(cancels, v) && prior[v] == PriorOf(cancels, v);
        assert (c.of, p) in prior.Keys && prior.Keys == Nodes(cancels);
        var d :| d in cancels && d.GroupCancel? && (d.of, d.cancelId) == (c.of, p);
      }
    }
    if forall c | c in rows && c.GroupCancel? :: c.prior <= CancelsAt(rows, c.of) {
      forall v, w | v in prior && w in prior[v] ensures w in prior {
        var c, p :| c in cancels && c.GroupCancel? && (c.of, c.cancelId) == v && p in c.prior && w == (c.of, p);
        assert p in CancelsAt(rows, c.of);
        var d :| d in rows && d.GroupCancel? && d.of == c.of && d.cancelId == p;
        assert d in cancels;
      }
    }
  }

  /** The predecessors of each cancellation, unless one is missing (lines 176 to 186). */
  method Dependencies(rows: seq<Row>, cancels: map<Soul, set<CancelId>>) returns (prior: Option<History>)
    requires forall soul: Soul :: CancelsAt(Elements(rows), soul) == if soul in cancels then cancels[soul] else {}
    ensures var all := HistoryOf(CancelsOf(Elements(rows)));
            prior == if Complete(all) then Some(all) else None
  {
    hide Complete, HistoryOf, CancelsAt;
    CompleteMeans(Elements(rows));
    var found: History := map[];
    EmptyHistory();
    for i := 0 to |rows|
      invariant found == HistoryOf(CancelsOf(Elements(rows[..i])))
      invariant forall c | c in rows[..i] && c.GroupCancel? :: c.prior <= CancelsAt(Elements(rows), c.of)
    {
      var row := rows[i];
      assert rows[..i + 1] == rows[..i] + [row];
      assert Elements(rows[..i + 1]) == Elements(rows[..i]) + {row};
      if row.GroupCancel? {
        assert CancelsOf(Elements(rows[..i + 1])) == CancelsOf(Elements(rows[..i])) + {row};
        if !(row.prior <= (if row.of in cancels then cancels[row.of] else {})) {
          assert row in Elements(rows);
          return None;
        }
        HistoryExtend(CancelsOf(Elements(rows[..i])), row);
        var v := (row.of, row.cancelId);
        found := found[v := (if v in found then found[v] else {}) + set p | p in row.prior :: (row.of, p)];
      } else {
        assert CancelsOf(Elements(rows[..i + 1])) == CancelsOf(Elements(rows[..i]));
      }
    }
    assert rows[..|rows|] == rows;
    return Some(found);
  }

  lemma EmptyHistory()
    ensures HistoryOf(CancelsOf(Elements([]))) == map[]
  {
  }

  /** Is the history of cancellations complete and without a cycle (lines 173 to 195)? */
  method CheckHistory(rows: seq<Row>, cancels: map<Soul, set<CancelId>>) returns (ok: bool)
    requires forall soul: Soul :: CancelsAt(Elements(rows), soul) == if soul in cancels then cancels[soul] else {}
    ensures ok <==> GroundedCancels(Elements(rows))
  {
    hide Complete, HistoryOf, CancelsAt, Grounded, GroundedCancels;
    GroundedCancelsMeans(Elements(rows));
    var prior := Dependencies(rows, cancels);
    if prior.None? {
      return false;
    }
    var search := new Search(prior.value);
    ok := search.VisitAll();
  }

  /** The signers and accessors of well-formed rows that are not from the future (lines 123 to 145). */
  method ReadRows(rows: seq<Row>, at: nat) returns (ok: bool, signers: set<Key>, accessors: set<Key>)
    ensures ok <==> forall row | row in rows :: WellFormed(row) && row.issuedAt <= at
    ensures ok ==> signers == Signers(Elements(rows)) && accessors == Accessors(Elements(rows))
  {
    hide WellFormed;
    signers, accessors := {}, {};
    for i := 0 to |rows|
      invariant forall row | row in rows[..i] :: WellFormed(row) && row.issuedAt <= at
      invariant signers == Signers(Elements(rows[..i])) && accessors == Accessors(Elements(rows[..i]))
    {
      var row := rows[i];
      assert rows[..i + 1] == rows[..i] + [row];
      assert Elements(rows[..i + 1]) == Elements(rows[..i]) + {row};
      if !WellFormed(row) || row.issuedAt > at {
        assert row in rows;
        return false, {}, {};
      }
      SignersExtend(Elements(rows[..i]), row);
      signers, accessors := signers + {SignerOf(row)}, accessors + if row.Direct? then {row.accessor} else {};
    }
    assert rows[..|rows|] == rows;
    ok := true;
  }

  lemma SignersExtend(rows: set<Row>, row: Row)
    ensures Signers(rows + {row}) == Signers(rows) + {SignerOf(row)}
    ensures Accessors(rows + {row}) == Accessors(rows) + if row.Direct? then {row.accessor} else {}
  {
    forall r | r in rows ensures SignerOf(r) in Signers(rows + {row}) {
      assert r in rows + {row};
    }
    forall r | r in rows && r.Direct? ensures r.accessor in Accessors(rows + {row}) {
      assert r in rows + {row};
    }
    assert row in rows + {row};
  }

  /** One refresh. It succeeds without a diagnostic exactly when the rows are few enough and
      admitted, and then installs the maps that all reads are answered from. */
  method Refresh(cfg: Config, rows: seq<Row>, at: nat) returns (graph: Option<Graph>)
    ensures graph.Some? <==> |rows| <= MAX_ROWS && Admits(cfg, Elements(rows), at)
    ensures graph.Some? ==> Installed(cfg, Elements(rows), at, graph.value)
  {
    hide WellFormed, GroundedCancels, Winners, CancelsAt;
    assert forall row :: row in rows <==> row in Elements(rows);
    if |rows| > MAX_ROWS {
      return None;
    }
    var ok, signers, accessors := ReadRows(rows, at);
    if !ok || |signers| > MAX_SIGNERS || |signers + accessors + cfg.accounts(at)| > MAX_PRINCIPALS ||
       (exists key :: key in signers && !cfg.historyOk(key, at)) {
      return None;
    }
    if exists row :: row in rows && !cfg.proofOk(row, at) {
      return None;
    }
    var held, cancels := Merge(cfg, rows);
    ok := CheckHistory(rows, cancels);
    return if ok then Some(Graph(held, cancels, at)) else None;
  }
}
