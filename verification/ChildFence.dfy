/** Why a caller of `publishChild` must not name a revision that is still to come
    (lib/delegation-runtime.ts:160-179): its authority is checked on the version that is there,
    and the write lands on the one that was named, whatever has been revoked in between. */
module ChildFence {
  import opened Identity
  import opened Authority
  import opened Documents
  import opened Journal
  import opened Protocol
  import opened Planner
  import opened Wedge
  import opened Runtime

  const MAY_SEE := Direct(false, FIRST, OTHER, true, 0, GRANT_SECONDS, 1, 0, NO_PROOF)
  const MAY_POST := Direct(true, FIRST, OTHER, true, 0, GRANT_SECONDS, 1, 0, NO_PROOF)
  const REVOKED := Direct(true, FIRST, OTHER, false, 0, GRANT_SECONDS, 2, 0, NO_PROOF)

  const RECORD := DrawerRecord(SubtaskRecord, FORUM, OWNER, FIRST, OTHER, 0, 0, true, 1, 0, TaskPending, None)
  const CHILD := Child(RECORD, Signature(0, 1))

  /** The owner's subtask, on which somebody else may write. */
  const GRANTED := State(0, FORUM, OWNER, OLD, [FIRST], [Ownership(FIRST, 0, NO_PROOF), MAY_SEE, MAY_POST], None,
                         map[], map[], [])
  const WITHDRAWN := GRANTED.(revision := 1, rows := GRANTED.rows + [REVOKED])
  const WRITTEN := WITHDRAWN.(revision := 2, children := map[FIRST := CHILD])

  const REVOKE := Admit(OWNER, 0, FIRST, [REVOKED])
  const WRITE := WriteChild(1, CHILD)

  lemma OneDestination()
    ensures SortedSet([FIRST] + [FIRST]) == [FIRST]
  {
    assert Elements([FIRST] + [FIRST]) == Elements([FIRST]);
    AscendingUnique(SortedSet([FIRST] + [FIRST]), [FIRST]);
  }

  lemma StartIsGenesis()
    ensures Genesis(GRANTED) && Parses(WITHDRAWN) && Parses(WRITTEN)
  {
  }

  lemma RevocationWellFormed()
    ensures WellFormed(REVOKED)
  {
  }

  lemma RevocationWritten(cfg: Config)
    ensures LegalStep(cfg, GRANTED, WITHDRAWN)
  {
    hide Parses, SortedSet, WellFormed;
    StartIsGenesis();
    OneDestination();
    RevocationWellFormed();
    assert Additions(GRANTED.rows, [REVOKED]) == [REVOKED];
    assert Exec(GRANTED, REVOKE) == Written(WITHDRAWN) && Legal(cfg, GRANTED, REVOKE, 0);
  }

  lemma ChildWritten(cfg: Config)
    ensures LegalStep(cfg, WITHDRAWN, WRITTEN) && Exec(WITHDRAWN, WRITE) == Written(WRITTEN)
  {
    hide Parses;
    StartIsGenesis();
    assert Exec(WITHDRAWN, WRITE) == Written(WRITTEN) && Legal(cfg, WITHDRAWN, WRITE, 0);
  }

  lemma HistoryIsLegal(cfg: Config)
    ensures LegalRun(cfg, [GRANTED, WITHDRAWN, WRITTEN])
  {
    hide LegalStep, Genesis;
    StartIsGenesis();
    RevocationWritten(cfg);
    ChildWritten(cfg);
  }

  /** A row without a competitor holds. */
  lemma HoldsAlone(cfg: Config, rows: set<Row>, row: Row)
    requires row in rows && row.Direct?
    requires forall other | other in rows && !other.GroupCancel? && SlotOf(other) == SlotOf(row) :: other == row
    ensures Holds(cfg, rows, row)
  {
    BeatsIrreflexive(cfg, row);
    hide Beats;
  }

  lemma GrantedRows()
    ensures var rows := Elements(GRANTED.rows);
            && rows == {Ownership(FIRST, 0, NO_PROOF), MAY_SEE, MAY_POST} && Owned(rows, FIRST)
            && forall r | r in rows ::
                 WellFormed(r) && r.issuedAt == 0 && SignerOf(r) == OWNER && (r.Direct? ==> r.accessor == OTHER)
  {
    assert Ownership(FIRST, 0, NO_PROOF) in Elements(GRANTED.rows);
  }

  lemma GrantsHeld(cfg: Config)
    ensures CanDirect(cfg, Elements(GRANTED.rows), true, FIRST, OTHER, 0)
    ensures CanDirect(cfg, Elements(GRANTED.rows), false, FIRST, OTHER, 0)
  {
    hide WellFormed, Owned, Elements, Holds;
    GrantedRows();
    var rows := Elements(GRANTED.rows);
    HoldsAlone(cfg, rows, MAY_SEE);
    HoldsAlone(cfg, rows, MAY_POST);
  }

  lemma WriterHadAccess(cfg: Config)
    requires Lenient(cfg)
    ensures MayWriteChild(cfg, GRANTED.rows, RECORD, 0)
  {
    hide WellFormed, Owned, Elements, CanDirect, Admits;
    GrantedRows();
    PlainRowsAdmitted(cfg, Elements(GRANTED.rows));
    GrantsHeld(cfg);
  }

  lemma WriterLostAccess(cfg: Config)
    ensures !MayWriteChild(cfg, WITHDRAWN.rows, RECORD, 0)
  {
    var rows := Elements(WITHDRAWN.rows);
    hide Admits, WellFormed;
    assert REVOKED in rows && Beats(cfg, REVOKED, MAY_POST);
    assert !Holds(cfg, rows, MAY_POST);
    assert !CanDirect(cfg, rows, true, FIRST, OTHER, 0);
  }

  /** The other side of the fence of `PublishChild`: a legal history in which a child is checked
      on version 0 and names revision 1. It is written on version 1, in which its writer may
      not write it any more; named as revision 0, it is refused there. */
  lemma AheadSlipsPast(cfg: Config)
    requires Lenient(cfg)
    ensures LegalRun(cfg, [GRANTED, WITHDRAWN, WRITTEN])
    ensures MayWriteChild(cfg, GRANTED.rows, RECORD, 0) && !MayWriteChild(cfg, WITHDRAWN.rows, RECORD, 0)
    ensures Exec(WITHDRAWN, WriteChild(1, CHILD)) == Written(WRITTEN)
    ensures Exec(WITHDRAWN, WriteChild(0, CHILD)).Refused? && Exec(GRANTED, WriteChild(1, CHILD)).Refused?
  {
    hide MayWriteChild, LegalRun, Parses;
    HistoryIsLegal(cfg);
    ChildWritten(cfg);
    WriterHadAccess(cfg);
    WriterLostAccess(cfg);
  }
}
