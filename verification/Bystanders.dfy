/** What a reassignment does to everybody else. In every history, a publication of a pending
    operation leaves the direct access of all but the two assignees alone, everywhere, and their
    group access too at every object that is not one of its destinations. */
module Bystanders {
  import opened Identity
  import opened Authority
  import opened Journal
  import opened JournalRuns
  import opened Reconcile
  import opened Protocol

  /** A row that can bear only on the access of `agent`, or on group access at the registry. */
  predicate Confined(row: Row, agent: Key, registry: seq<ObjectId>) {
    match row
    case Ownership(_, _, _) => false
    case Direct(_, _, accessor, _, _, _, _, _, _) => accessor == agent
    case Membership(_, _, _, member, _, _, _, _, _) => member == agent
    case ObjectSet(target, _, _, _, _, _, _, _) => target in registry
    case GroupCancel(of, _, _, _, _, _) =>
      match of
      case MemberSoul(_, _, member) => member == agent
      case ObjectSetSoul(_, _, target) => target in registry
      case _ => false
  }

  lemma ScopeConfines(row: Row, agent: Key, registry: seq<ObjectId>, groups: set<(ObjectId, bool)>)
    requires InScope(row, agent, registry, groups)
    ensures Confined(row, agent, registry) && IsCancellation(row)
  {
  }

  // ------------------------------------------------------------ one confined row

  lemma SameOwner(rows: set<Row>, c: Row, agent: Key, registry: seq<ObjectId>, target: ObjectId)
    requires Confined(c, agent, registry)
    ensures Owned(rows + {c}, target) == Owned(rows, target)
  {
    if Owned(rows, target) {
      var row :| row in rows && row.Ownership? && row.target == target;
      assert row in rows + {c};
    }
  }

  lemma SameHold(cfg: Config, rows: set<Row>, c: Row, row: Row)
    requires !row.GroupCancel? && (c.GroupCancel? || SlotOf(c) != SlotOf(row))
    ensures row in rows + {c} <==> row in rows
    ensures Holds(cfg, rows + {c}, row) == Holds(cfg, rows, row)
  {
  }

  lemma SameCancels(rows: set<Row>, c: Row, soul: Soul)
    requires c.GroupCancel? ==> c.of != soul
    ensures CancelsAt(rows + {c}, soul) == CancelsAt(rows, soul)
  {
  }

  lemma SameDirect(cfg: Config, rows: set<Row>, c: Row, agent: Key, registry: seq<ObjectId>, post: bool,
                   target: ObjectId, other: Key, at: nat)
    requires Confined(c, agent, registry) && other != agent
    ensures CanDirect(cfg, rows + {c}, post, target, other, at) == CanDirect(cfg, rows, post, target, other, at)
  {
    SameOwner(rows, c, agent, registry, target);
    forall row: Row | row.Direct? && SlotOf(row) == GrantSlot(post, target, other)
      ensures row in rows + {c} <==> row in rows
      ensures Holds(cfg, rows + {c}, row) == Holds(cfg, rows, row)
    {
      SameHold(cfg, rows, c, row);
    }
    hide Holds, Owned, Confined;
  }

  lemma SameAssent(cfg: Config, rows: set<Row>, c: Row, agent: Key, registry: seq<ObjectId>, role: bool, edge: Row,
                   other: Key)
    requires Confined(c, agent, registry) && other != agent && edge.ObjectSet?
    ensures Assented(cfg, rows + {c}, role, edge, other) == Assented(cfg, rows, role, edge, other)
  {
    forall m: Row | m.Membership? && SlotOf(m) == MemberSlot(role, edge.circle, edge.group, other)
      ensures m in rows + {c} <==> m in rows
      ensures AssentLive(cfg, rows + {c}, m, role, edge, other) == AssentLive(cfg, rows, m, role, edge, other)
    {
      SameHold(cfg, rows, c, m);
      SameCancels(rows, c, SoulOf(m));
      hide Holds, CancelsAt;
    }
    assert forall m | m in rows :: m in rows + {c};
    hide Holds, Confined, CancelsAt;
  }

  lemma SameGroup(cfg: Config, rows: set<Row>, c: Row, agent: Key, registry: seq<ObjectId>, target: ObjectId,
                  other: Key)
    requires Confined(c, agent, registry) && other != agent && target !in registry
    ensures CanByGroup(cfg, rows + {c}, target, other) == CanByGroup(cfg, rows, target, other)
  {
    SameOwner(rows, c, agent, registry, target);
    forall edge: Row | edge.ObjectSet? && edge.target == target
      ensures edge in rows + {c} <==> edge in rows
      ensures EdgeLive(cfg, rows + {c}, edge, target) == EdgeLive(cfg, rows, edge, target)
      ensures Assented(cfg, rows + {c}, true, edge, other) == Assented(cfg, rows, true, edge, other)
      ensures Assented(cfg, rows + {c}, false, edge, other) == Assented(cfg, rows, false, edge, other)
    {
      SameHold(cfg, rows, c, edge);
      SameCancels(rows, c, SoulOf(edge));
      SameAssent(cfg, rows, c, agent, registry, true, edge, other);
      SameAssent(cfg, rows, c, agent, registry, false, edge, other);
      hide Holds, CancelsAt, Assented;
    }
    hide Assented, Owned, Holds, CancelsAt, Confined;
  }

  // ------------------------------------------------------------ whole histories

  /** What the operation must leave alone between two versions. */
  predicate Untouched(cfg: Config, before: set<Row>, after: set<Row>, registry: seq<ObjectId>, other: Key,
                      target: ObjectId, at: nat) {
    && CanDirect(cfg, after, true, target, other, at) == CanDirect(cfg, before, true, target, other, at)
    && CanDirect(cfg, after, false, target, other, at) == CanDirect(cfg, before, false, target, other, at)
    && (target !in registry ==> CanByGroup(cfg, after, target, other) == CanByGroup(cfg, before, target, other))
  }

  lemma ConfinedUntouched(cfg: Config, rows: set<Row>, c: Row, agent: Key, registry: seq<ObjectId>, other: Key,
                          target: ObjectId, at: nat)
    requires Confined(c, agent, registry) && other != agent
    ensures Untouched(cfg, rows, rows + {c}, registry, other, target, at)
  {
    SameDirect(cfg, rows, c, agent, registry, true, target, other, at);
    SameDirect(cfg, rows, c, agent, registry, false, target, other, at);
    if target !in registry {
      SameGroup(cfg, rows, c, agent, registry, target, other);
    }
    hide CanDirect, CanByGroup, Confined;
  }

  /** The only rows a pending operation adds are its own: cancellations in its scope, or grants to
      its replacement. */
  lemma PublishedRow(cfg: Config, log: seq<State>, i: nat) returns (row: Row)
    requires LegalRun(cfg, log) && i + 1 < |log| && Pending(log[i]) && log[i + 1].rows != log[i].rows
    ensures log[i + 1].rows == log[i].rows + [row]
    ensures var op := log[i].operation.value;
            && (op.phase == Cancelling ==> Confined(row, op.previous, log[i].destinations) && IsCancellation(row))
            && (op.phase == Replacing ==>
                  Confined(row, op.replacement, log[i].destinations) && row.Direct? && row.stated)
  {
    hide LegalRun, Exec, Legal, Material;
    var s := log[i];
    var c, at := LegalLogStep(cfg, log, i);
    RunMaterial(cfg, log, i);
    Publication(s, c);
    hide Attempt;
    row := c.row;
    if s.operation.value.phase == Cancelling {
      PublishedCancellation(cfg, s, c, at);
    } else {
      PublishedGrant(cfg, s, c, at);
    }
  }

  lemma Publication(s: State, c: Command)
    requires Attempt(s, c).Written? && Pending(s) && Attempt(s, c).next.rows != s.rows
    ensures c.Publish? && Attempt(s, c).next.rows == s.rows + [c.row] && c.phase == s.operation.value.phase
  {
    PendingFreezes(s, c);
  }

  lemma PublishedGrant(cfg: Config, s: State, c: Command, at: nat)
    requires Legal(cfg, s, c, at) && Material(s) && c.Publish? && c.phase == Replacing
    ensures Confined(c.row, s.operation.value.replacement, s.destinations) && c.row.Direct? && c.row.stated
  {
    hide Verdict;
    assert PlanFor(DocumentOf(s), PlanOf(s));
  }

  lemma PublishedCancellation(cfg: Config, s: State, c: Command, at: nat)
    requires Legal(cfg, s, c, at) && Material(s) && Pending(s) && c.Publish?
    requires c.phase == s.operation.value.phase == Cancelling
    ensures Confined(c.row, s.operation.value.previous, s.destinations) && IsCancellation(c.row)
  {
    var k := CancellationsOnly(CaseOf(DocumentOf(s), []));
    assert Rejected(CancellationPreflight, k, s.rows) == None;
    ScopeConfines(c.row, k.saved.agent, k.registry, Groups(Elements(s.rows), k.registry));
    forall d | d in k.registry ensures d in s.destinations {
      assert d in Elements(k.registry);
    }
  }

  /** From a pending version on, for as long as the operation stays pending. */
  lemma {:induction false} PendingKeeps(cfg: Config, log: seq<State>, i: nat, j: nat)
    requires LegalRun(cfg, log) && i <= j < |log| && forall k | i <= k <= j :: Pending(log[k])
    ensures Pending(log[i]) && Pending(log[j])
    ensures log[j].destinations == log[i].destinations && SameIntent(log[i].operation.value, log[j].operation.value)
    decreases j
  {
    if i < j {
      PendingKeeps(cfg, log, i, j - 1);
      hide LegalRun, Exec;
      var c, _ := LegalLogStep(cfg, log, j - 1);
      PendingFreezes(log[j - 1], c);
    }
  }

  /** Bystanders keep their access. From any version of a pending operation to any later one it
      leads to, nobody but its two assignees gains or loses direct access to any object at any
      second, or group access to any object that is not registered. */
  lemma {:induction false} BystandersKeepAccess(cfg: Config, log: seq<State>, i: nat, j: nat, other: Key,
                                                target: ObjectId, at: nat)
    requires LegalRun(cfg, log) && i <= j < |log| && Pending(log[i]) && forall k | i <= k < j :: Pending(log[k])
    requires other != log[i].operation.value.previous && other != log[i].operation.value.replacement
    ensures Untouched(cfg, Elements(log[i].rows), Elements(log[j].rows), log[i].destinations, other, target, at)
    decreases j
  {
    hide CanDirect, CanByGroup, LegalRun, Confined;
    if i < j {
      BystandersKeepAccess(cfg, log, i, j - 1, other, target, at);
      PendingKeeps(cfg, log, i, j - 1);
      if log[j].rows != log[j - 1].rows {
        var s := log[j - 1];
        var row := PublishedRow(cfg, log, j - 1);
        var agent := if s.operation.value.phase == Cancelling then s.operation.value.previous
                     else s.operation.value.replacement;
        ConfinedUntouched(cfg, Elements(s.rows), row, agent, s.destinations, other, target, at);
        assert Elements(log[j].rows) == Elements(s.rows) + {row};
      }
    }
  }
}
