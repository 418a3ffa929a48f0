/** What the journal accepts, as laws of its histories: exactly when a call extends a legal
    run and by what, that a finished operation frees the journal for the next one, and
    that a repeated call finds its work done. */
module Progress {
  import opened Identity
  import opened Authority
  import opened Documents
  import opened Journal
  import opened JournalRuns
  import opened Protocol

  function Last(log: seq<State>): State
    requires log != []
  {
    log[|log| - 1]
  }

  predicate Idle(s: State) {
    s.operation == None || s.operation.value.phase == Complete || s.operation.value.phase == Aborted
  }

  /** No operation is under way, five rows for each destination are free, and the
      intent names a fresh id and somebody new. */
  predicate Claimable(s: State, id: OperationId, to: Key) {
    && Idle(s) && |s.rows| + 5 * |s.destinations| <= 1024 && s.revision < MAX_SAFE_INTEGER && |s.used| < 256
    && id.Hex? && id !in s.used && IsSeaPubkey(to) && to != s.assignee && to != s.owner
  }

  /** The claim has been made, and stands. */
  predicate Claimed(s: State, id: OperationId, to: Key) {
    && id.Hex? && IsSeaPubkey(to) && s.operation.Some?
    && s.operation.value.id == id && s.operation.value.replacement == to && s.operation.value.phase != Aborted
  }

  /** The version `n` is a legal successor of the newest one, and `c` writes it. */
  ghost predicate Grows(cfg: Config, log: seq<State>, c: Command, n: State)
    requires log != []
  {
    Exec(Last(log), c) == Written(n) && LegalRun(cfg, log + [n])
  }

  lemma NewestFacts(cfg: Config, log: seq<State>)
    requires LegalRun(cfg, log)
    ensures Inv(log[0], Last(log)) && Last(log).revision == |log| - 1
  {
    LegalRunIsRun(cfg, log);
    RunInv(log, |log| - 1);
  }

  lemma LegalGrows(cfg: Config, log: seq<State>, c: Command, at: nat)
    requires LegalRun(cfg, log) && Exec(Last(log), c).Written? && Legal(cfg, Last(log), c, at)
    ensures Grows(cfg, log, c, Exec(Last(log), c).next)
  {
    hide Exec, Attempt, Legal, Genesis;
    var longer := log + [Exec(Last(log), c).next];
    forall i | 0 <= i < |longer| - 1 ensures LegalStep(cfg, longer[i], longer[i + 1]) {
      if i + 1 < |log| {
        assert LegalStep(cfg, log[i], log[i + 1]);
      }
    }
  }

  // ------------------------------------------------------------ a new claim

  lemma ClaimGuards(genesis: State, s: State, c: Command)
    requires Inv(genesis, s) && c.Claim?
    ensures Exec(s, c).Written? <==> c.actor == s.owner && c.expected == s.revision && Claimable(s, c.id, c.to)
    ensures Exec(s, c) == Keep <==> c.actor == s.owner && Claimed(s, c.id, c.to)
  {
    if s.operation.Some? {
      assert s.operation.value.id in s.used;
    }
    if Attempt(s, c).Written? {
      ReparseExactly(genesis, s, c);
    }
    hide Parses;
  }

  /** Exactly which claims are accepted: those of the owner, on the newest revision, while
      nothing is under way. The claimed version has the operation, and is otherwise the same. */
  lemma ClaimGrows(cfg: Config, log: seq<State>, actor: Key, id: OperationId, to: Key, expected: nat)
    requires LegalRun(cfg, log)
    ensures var s, c := Last(log), Command.Claim(actor, id, to, expected);
            if actor == s.owner && expected == |log| - 1 && Claimable(s, id, to) then
              Grows(cfg, log, c, s.(revision := |log|, used := s.used + [id],
                                    operation := Some(Operation(id, s.assignee, to, Cancelling, None, None))))
            else if actor == s.owner && Claimed(s, id, to) then Exec(s, c) == Keep
            else Exec(s, c).Refused?
  {
    NewestFacts(cfg, log);
    var c := Command.Claim(actor, id, to, expected);
    ClaimGuards(log[0], Last(log), c);
    if Exec(Last(log), c).Written? {
      hide LegalRun;
      LegalGrows(cfg, log, c, 0);
    }
  }

  /** A completed operation frees the journal: the one it gave the forum to can be
      replaced in turn, also by the one it took the forum from. */
  lemma ClaimAfterCompletion(cfg: Config, log: seq<State>, id: OperationId, to: Key)
    requires LegalRun(cfg, log) && Last(log).operation.Some? && Last(log).operation.value.phase == Complete
    requires var s := Last(log);
             && id.Hex? && id !in s.used && |s.used| < 256 && |log| <= MAX_SAFE_INTEGER
             && |s.rows| + 5 * |s.destinations| <= 1024
             && IsSeaPubkey(to) && to != s.owner && to != s.operation.value.replacement
    ensures var s, c := Last(log), Command.Claim(Last(log).owner, id, to, |log| - 1);
            && Exec(s, c).Written? && LegalRun(cfg, log + [Exec(s, c).next])
            && var n := Exec(s, c).next;
            && n.operation == Some(Operation(id, s.operation.value.replacement, to, Cancelling, None, None))
            && n.receipts == s.receipts && s.operation.value.id in n.receipts
            && n.rows == s.rows && n.destinations == s.destinations && n.assignee == s.operation.value.replacement
  {
    NewestFacts(cfg, log);
    ClaimGrows(cfg, log, Last(log).owner, id, to, |log| - 1);
    hide LegalRun, Exec;
  }

  /** So does an aborted one, and the assignee is who it was. */
  lemma ClaimAfterAbort(cfg: Config, log: seq<State>, id: OperationId, to: Key)
    requires LegalRun(cfg, log) && Last(log).operation.Some? && Last(log).operation.value.phase == Aborted
    requires var s := Last(log);
             && id.Hex? && id !in s.used && |s.used| < 256 && |log| <= MAX_SAFE_INTEGER
             && |s.rows| + 5 * |s.destinations| <= 1024
             && IsSeaPubkey(to) && to != s.owner && to != s.operation.value.previous
    ensures var s, c := Last(log), Command.Claim(Last(log).owner, id, to, |log| - 1);
            && Exec(s, c).Written? && LegalRun(cfg, log + [Exec(s, c).next])
            && var n := Exec(s, c).next;
            && n.operation == Some(Operation(id, s.operation.value.previous, to, Cancelling, None, None))
            && n.receipts == s.receipts && s.operation.value.id !in n.receipts
            && n.rows == s.rows && n.destinations == s.destinations && n.assignee == s.operation.value.previous
  {
    NewestFacts(cfg, log);
    ClaimGrows(cfg, log, Last(log).owner, id, to, |log| - 1);
    hide LegalRun, Exec;
  }

  // ------------------------------------------------------------ aborts, admissions, children

  lemma AbortGuards(genesis: State, s: State, c: Command)
    requires Inv(genesis, s) && c.Abort?
    ensures Exec(s, c).Written? <==>
              c.actor == s.owner && s.operation.Some? && s.operation.value.id == c.id &&
              s.operation.value.phase == Cancelling && s.revision < MAX_SAFE_INTEGER
    ensures Exec(s, c) == Keep <==>
              c.actor == s.owner && s.operation.Some? && s.operation.value.id == c.id &&
              s.operation.value.phase == Aborted
  {
    if Attempt(s, c).Written? {
      ReparseExactly(genesis, s, c);
    }
    hide Parses;
  }

  /** Until the replacement has begun every operation can be aborted, with material bound to it
      or without, and no other one can. Only its phase changes. */
  lemma AbortGrows(cfg: Config, log: seq<State>, actor: Key, id: OperationId)
    requires LegalRun(cfg, log)
    ensures var s, c := Last(log), Command.Abort(actor, id);
            if actor == s.owner && s.operation.Some? && s.operation.value.id == id &&
               s.operation.value.phase == Cancelling && |log| <= MAX_SAFE_INTEGER then
              Grows(cfg, log, c, s.(revision := |log|, operation := Some(s.operation.value.(phase := Aborted))))
            else if actor == s.owner && s.operation.Some? && s.operation.value.id == id &&
                    s.operation.value.phase == Aborted then Exec(s, c) == Keep
            else Exec(s, c).Refused?
  {
    NewestFacts(cfg, log);
    var c := Command.Abort(actor, id);
    AbortGuards(log[0], Last(log), c);
    if Exec(Last(log), c).Written? {
      hide LegalRun;
      LegalGrows(cfg, log, c, 0);
    }
  }

  /** A row speaks of these objects only, or owns the forum, or is between a group and a member. */
  predicate Concerns(row: Row, objects: seq<ObjectId>, forum: ObjectId) {
    match row
    case Ownership(target, _, _) => target in objects || target == forum
    case Direct(_, target, _, _, _, _, _, _, _) => target in objects
    case ObjectSet(target, _, _, _, _, _, _, _) => target in objects
    case Membership(_, _, _, _, _, _, _, _, _) => true
    case GroupCancel(of, _, _, _, _, _) => of.ObjectSetSoul? ==> of.target in objects
  }

  /** Rows that may stand in a journal with this destination registered. */
  predicate Admissible(s: State, destination: ObjectId, rows: seq<Row>) {
    && IsObjectId(destination) && (destination in s.destinations || |s.destinations| < 64)
    && (forall row | row in rows ::
          WellFormed(row) && (row in s.rows || Concerns(row, s.destinations + [destination], s.forum)))
  }

  lemma AdditionsMembers(known: seq<Row>, rows: seq<Row>)
    ensures forall row :: row in Additions(known, rows) <==> row in rows && row !in known
  {
  }

  lemma AdmitGuards(genesis: State, s: State, c: Command)
    requires Inv(genesis, s) && c.Admit?
    ensures Exec(s, c).Written? <==>
              && c.actor == s.owner && c.expected == s.revision < MAX_SAFE_INTEGER && Idle(s)
              && Admissible(s, c.destination, c.rows) && |s.rows| + |Additions(s.rows, c.rows)| <= 1024
  {
    hide WellFormed, RowAllowed, Concerns;
    AdditionsMembers(s.rows, c.rows);
    forall row | WellFormed(row)
      ensures RowAllowed(row, s.destinations + [c.destination], s.forum) <==>
                Concerns(row, s.destinations + [c.destination], s.forum)
    {
      ConcernsMeans(row, s.destinations + [c.destination], s.forum);
    }
    if Attempt(s, c).Written? {
      ReparseExactly(genesis, s, c);
    }
    hide Parses;
  }

  lemma ConcernsMeans(row: Row, objects: seq<ObjectId>, forum: ObjectId)
    requires WellFormed(row)
    ensures RowAllowed(row, objects, forum) <==> Concerns(row, objects, forum)
  {
  }

  /** An admission adds its destination and its rows, and nothing else. */
  ghost predicate Admitted(s: State, destination: ObjectId, rows: seq<Row>, n: State) {
    && n == s.(revision := s.revision + 1, destinations := n.destinations, rows := n.rows)
    && Ascending(n.destinations) && Elements(n.destinations) == Elements(s.destinations) + {destination}
    && Prefix(s.rows, n.rows) && Elements(n.rows) == Elements(s.rows) + Elements(rows)
  }

  lemma AdmittedWrites(s: State, c: Command)
    requires c.Admit? && Exec(s, c).Written?
    ensures Admitted(s, c.destination, c.rows, Exec(s, c).next)
  {
    AdditionsMembers(s.rows, c.rows);
    assert Elements(s.destinations + [c.destination]) == Elements(s.destinations) + {c.destination};
    hide Parses;
  }

  lemma AdmitGrows(cfg: Config, log: seq<State>, actor: Key, expected: nat, destination: ObjectId, rows: seq<Row>)
    requires LegalRun(cfg, log)
    ensures var s, c := Last(log), Command.Admit(actor, expected, destination, rows);
            && (Exec(s, c).Written? <==>
                  && actor == s.owner && expected == |log| - 1 < MAX_SAFE_INTEGER && Idle(s)
                  && Admissible(s, destination, rows) && |s.rows| + |Additions(s.rows, rows)| <= 1024)
            && (Exec(s, c).Written? ==>
                  Grows(cfg, log, c, Exec(s, c).next) && Admitted(s, destination, rows, Exec(s, c).next))
  {
    NewestFacts(cfg, log);
    var c := Command.Admit(actor, expected, destination, rows);
    AdmitGuards(log[0], Last(log), c);
    if Exec(Last(log), c).Written? {
      hide LegalRun;
      AdmittedWrites(Last(log), c);
      LegalGrows(cfg, log, c, 0);
    }
  }

  /** A child of a registered destination, newer than the one that is held. */
  predicate Dispatchable(s: State, child: Child) {
    && child.record.id in s.destinations && ParsesDrawerRecord(child.record)
    && child.record.forum == s.forum && child.record.agent == s.owner && 0 < child.signature.length <= 32768
    && (child.record.id in s.children ==> s.children[child.record.id].record.rev < child.record.rev)
  }

  /** The record is there already. */
  predicate Dispatched(s: State, child: Child) {
    && child.record.id in s.destinations && child.record.id in s.children
    && s.children[child.record.id].record == child.record
  }

  lemma ChildGuards(genesis: State, s: State, c: Command)
    requires Inv(genesis, s) && c.WriteChild?
    ensures Exec(s, c).Written? <==>
              c.expected == s.revision < MAX_SAFE_INTEGER && Idle(s) && Dispatchable(s, c.child)
    ensures Exec(s, c) == Keep <==> c.expected == s.revision && Idle(s) && Dispatched(s, c.child)
  {
    if Attempt(s, c).Written? {
      ReparseExactly(genesis, s, c);
    }
    hide Parses;
  }

  /** A child write replaces the record of its destination by a newer one, while nothing is under way. */
  lemma ChildGrows(cfg: Config, log: seq<State>, expected: nat, child: Child)
    requires LegalRun(cfg, log)
    ensures var s, c := Last(log), Command.WriteChild(expected, child);
            if expected == |log| - 1 < MAX_SAFE_INTEGER && Idle(s) && Dispatchable(s, child) then
              Grows(cfg, log, c, s.(revision := |log|, children := s.children[child.record.id := child]))
            else if expected == |log| - 1 && Idle(s) && Dispatched(s, child) then Exec(s, c) == Keep
            else Exec(s, c).Refused?
  {
    hide Dispatchable, Dispatched, Idle, Attempt, Exec, Inv, LegalRun;
    NewestFacts(cfg, log);
    var c := Command.WriteChild(expected, child);
    ChildGuards(log[0], Last(log), c);
    if Exec(Last(log), c).Written? {
      ChildWrites(Last(log), c);
      LegalGrows(cfg, log, c, 0);
    }
  }

  lemma ChildWrites(s: State, c: Command)
    requires c.WriteChild? && Exec(s, c).Written?
    ensures Exec(s, c).next == s.(revision := s.revision + 1, children := s.children[c.child.record.id := c.child])
  {
    hide Parses;
  }

  // ------------------------------------------------------------ repeated calls

  /** The call's operation is current, and in the phase in which the call is a success. */
  predicate Stands(l: State, c: Command) {
    && !c.Admit? && !c.WriteChild? && l.operation.Some? && l.operation.value.id == c.id
    && var phase := l.operation.value.phase;
       match c
       case Abort(_, _) => phase == Aborted
       case Begin(_, _, _) => phase == Replacing
       case Publish(_, _, _, published, _) => phase == published
       case _ => phase != Aborted
  }

  /** Version `l` comes after `n`, which `c` has written. */
  lemma StandingAnswer(s: State, n: State, l: State, c: Command)
    requires Attempt(s, c) == Written(n) && Since(s, n) && Since(n, l) && n.revision == s.revision + 1
    requires SameOperation(n, l) ==> Advances(n.operation.value, l.operation.value)
    ensures Attempt(l, c) == Keep <==> Stands(l, c)
  {
    hide WellFormed, IsDigest;
    if c.Publish? {
      assert c.row in n.rows;
      MoreRows(n.rows, l.rows);
      assert c.row in Elements(l.rows);
    }
  }

  /** A client that repeats a call after it has written, whatever others did in between, is told
      so as long as the operation stands; else it is refused. Nothing is written again. */
  lemma RepeatedCall(log: seq<State>, i: nat, j: nat, c: Command)
    requires Run(log) && i < j < |log| && Exec(log[i], c) == Written(log[i + 1])
    ensures if Stands(log[j], c) then Exec(log[j], c) == Keep else Exec(log[j], c).Refused?
  {
    hide Attempt, Exec, Since, Advances, Stands;
    ExecIsAttempt(log[i], c);
    NoCommandWritesTwice(log, i, j, c);
    RunSince(log, i, i + 1);
    RunSince(log, i + 1, j);
    RunInv(log, i);
    RunInv(log, i + 1);
    if SameOperation(log[i + 1], log[j]) {
      OperationAdvances(log, i + 1, j);
    }
    StandingAnswer(log[i], log[i + 1], log[j], c);
    KeepIsAttempt(log[j], c);
  }

  lemma KeepIsAttempt(s: State, c: Command)
    ensures Exec(s, c) == Keep <==> Attempt(s, c) == Keep
  {
  }
}
