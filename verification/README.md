# Reassignment journal, replicated forum state and forum ledger: verified models

These Dafny modules model the parts of the repository that coordinate many writers over
shared state, and prove what those parts are for.

**The reassignment protocol.** One document, changed only by compare-and-swap, holds who a
forum is assigned to, the registered destinations, an append-only list of signed authority
rows and the operation in progress. A reassignment cancels the old assignee's access, proves
it gone, grants the replacement, proves that too, and commits. Every step can lose a race,
crash, or be repeated.

- `Identity`, `Authority`, `Documents`: names, signed authority rows, the merge and the
  access checks of the authority graph, and the documents of one operation.
- `Journal`, `JournalRuns`: the commands of the journal as partial functions from state to
  state, the invariant that is stronger than its parser, and facts about whole histories.
- `Refresh`: the refresh of the authority graph with its search for cyclic cancellations.
- `Reconcile`: the evidence check in its three modes, as a verdict and as the loops that
  compute it.
- `Protocol`, `Reservation`: what the clients add to the guards, and what then holds of every
  history: cancel before grant, the commit fence, the row reservation. `Progress`: exactly
  which calls extend a history; `Bystanders`: whose access a reassignment cannot touch.
- `Resumption`, `SinglePass`: crash, resume and termination; `Wedge`, `Expiry`: where an
  accepted claim cannot finish, for want of rows or of time.
- `Deployment`: the running system as a class. A `World` holds the store, the create-once
  documents, a clock and a schedule of what everybody else does (journal writes, saved
  documents, time, the client's own crash) at each wait. A contract of a method that takes a
  `World` holds for every schedule.
- `JournalClient`, `MutationSession`, `Outbox`, `Planner`, `PlannerSound`, `Publisher`,
  `Runtime`: the calls of the journal, the mutation session, the prepared documents, the
  planner, the staged driver and the runtime, as classes and methods over a `World`.
- `ChildFence`: what happens to a child write beyond the fence of `Runtime`.
- `Admission`, `Launch`: that what the planner makes is admitted, accepted and enough, from
  the claim to the commit.
- `Inventory`: the destination registry with its swap loop, over its own store and schedule.

**Replicated forum state.** `Drawer` (last-writer order with tombstones and replay floors),
`Needs` (need life cycle), `Offers` (bounded offer cache and delivery versions),
`ReceiveProofs` (receipts with dependencies and fencing), `ReceiveRetry` (rotating retry).

**The forum ledger.** `LedgerFile` (nine tables, parser, consistency check), `LedgerRules`
(what keeps a file well formed, what is never undone), `Ledger` (eleven operations).

## What was found

- The row reservation made by a claim covers every publication (`ClaimReservesPublication`),
  but not the driver's own preflights: a preflight appends the whole plan to the durable rows
  without removing those already published, and the authority refresh takes at most 1024 rows.
  With r durable rows, c cancellations and g grants, none durable yet, an operation that is
  left alone completes if r + 2c - 1 and r + c + 2g - 1 are at most 1024; else, if r + 2c - 1
  and r + c + g are, it ends in a version of the replacement phase that nobody can write
  again, where it never completes, cannot be aborted, and blocks every other write
  (`Wedge.WedgedForever`); else it is held up before the replacement, where it can still be
  aborted (`Wedge.ClaimEnds`, and `Wedge.RoomDecides` from anywhere on the way).
  `Wedge.AcceptedAndWedged` is a family of histories, the same but for the number of durable
  rows: with two destinations a claim is accepted up to 1014 rows; up to 1013 the operation
  completes, with 1014 the journal is lost.
- Planned grants run out a day after they are planned, a bound plan cannot be replaced, and an
  operation in the replacement phase cannot be aborted. With its rows admitted and room for
  the checks, a replacement that began completes on evidence of a second if and only if every
  grant of its plan is live at that second (`Expiry.FinishesWhileLive`); once one has run out,
  the journal is not written on evidence of that second or later (`Expiry.ExpiredRefuses`).
  Every operation with room comes to a version where this can happen
  (`Expiry.InterruptedTooLong`); `Expiry.AcceptedAndExpired` is a concrete history. A write
  whose evidence is from before may still land after it.
- A child is checked on the version that is there and written on the one its caller names. A
  caller that names a revision still to come may write a child whose writer lost access in
  between (`ChildFence.AheadSlipsPast`); `Runtime.DelegationRuntime.PublishChild` says exactly
  when the two versions are the same.
- `bindReplacementPlan` does not test that a cancellation digest is bound; only the re-parse
  of the written document does. This is the one guard that `Fits` needs for it.
- The ledger saves a file with a negative time stamp and then refuses to load it for ever
  (`Ledger.Step` says exactly when, `Ledger.NegativeStampIsFinal` for how long;
  `Ledger.RegisteredTooEarly` registers one bot at second -1 in an empty ledger).
- Two branches cannot be reached: the subject's second test in `authorizeForumNeed`
  (lib/forum-squad.ts:702-707, `Needs.SecondTestIsDead`) and the key conflict test in `read`
  (lib/forum-receive-proofs.ts:46).

## Assumptions

Digests are injective (a digest is modelled by what it is taken of). An entity tag is never
reused. Signature, key-history and clock-dependent checks of authority rows are uninterpreted
functions of the row and the second (`Authority.Config`); the bytes a row is signed over
determine its content. Every writer of the journal follows the discipline `Protocol.Legal`. In
the deployment that the runtime runs in, whoever prepares a cancellation document has planned
it (`World.planned`), so that it holds at most three cancellations for each destination
(`Protocol.OfPlannerSize`). That the driver and the planner modelled here keep both is proved,
not assumed.

What is said of an undisturbed `Start` supposes an owner whose evidence is in order
(`Launch.InOrder`): its rows are admitted, it owns the destinations and the sets to cancel
memberships of, its signatures verify, the principals still fit, and the digest that names a
membership cancellation of a new operation occurs in no earlier row (`PlannerSound.NewIds`).

## Model

| member | source | states |
|---|---|---|
| `Authority.BeatsTransitive` | lib/identity/forum-authority.ts:34-41 | the merge order of competing rows is transitive, so a winner exists whatever the arrival order |
| `Authority.LexLessMeans` | lib/identity/forum-authority.ts:39-40 | smaller bytes: at the first place where two texts differ, or where the smaller one ends |
| `Authority.DirectIsInForce` | lib/identity/forum-authority.ts:34-66 | direct access is the owner's, or that of a stated grant in its time whose address has no row of a later state, no withdrawal of the same state and no equal with smaller bytes |
| `Authority.Merge` | lib/identity/forum-authority.ts:158-176 | whatever the order and repetition of the rows, the merge keeps one undefeated row per address and collects every cancellation |
| `Authority.HoldsUnique` | lib/identity/forum-authority.ts:34-41 | two undefeated rows at one address say the same |
| `Authority.DirectAgrees` | lib/identity/forum-authority.ts:55-66 | direct see and post, read from the merged maps, are a function of the set of rows alone |
| `Authority.GroupAgrees` | lib/identity/forum-authority.ts:67-82 | group reading, read from the merged maps, is a function of the set of rows alone |
| `Authority.GrantsAreIndependent` | lib/delegation-reconcile.ts:71-73 | direct grants to one accessor never change any access of another |
| `Authority.AdmitsFewerGrants` | lib/identity/forum-authority.ts:116-201 | leaving direct grants out of an admitted row set leaves it admitted |
| `Refresh.Search.Visit` | lib/identity/forum-authority.ts:188-196 | the depth-first search returns true only with everything below grounded, and false only if some cancellation never settles |
| `Refresh.Search.VisitAll` | lib/identity/forum-authority.ts:188-197 | the search finds a cycle if and only if not every cancellation settles after finitely many rounds |
| `Refresh.RoundsEnd` | lib/identity/forum-authority.ts:177-197 | whatever ever settles has settled after as many rounds as there are cancellations |
| `Refresh.GroundedCancelsMeans` | lib/identity/forum-authority.ts:177-197 | a set of rows is grounded exactly if no predecessor is missing and every cancellation settles, in whatever order the rows arrive |
| `Refresh.CheckHistory` | lib/identity/forum-authority.ts:177-197 | the loops and the search accept exactly the grounded sets of rows |
| `Refresh.Refresh` | lib/identity/forum-authority.ts:116-201 | a refresh succeeds without a diagnostic exactly for an admitted row set within 1024 rows, and installs its winners and cancellations |
| `Journal.ReparseExactly` | lib/delegation-journal.ts:73-76 | under the invariant a command whose guards pass is written if and only if it meets the named capacity limits; no other re-parse can fail |
| `Journal.StepInv` | lib/delegation-journal.ts:21-59 | every write keeps the parser's conditions and the stronger invariant (replacement is not the owner, current id is the last used, newest receipt names the assignee) and raises the revision by one |
| `JournalRuns.StepSince` | lib/delegation-journal.ts:88-192 | rows and used ids are append-only, receipts and destinations never go, a child's revision only rises |
| `JournalRuns.PendingFreezes` | lib/delegation-journal.ts:78-81 | while an operation is pending only its own progress is written: no child, destination or foreign row changes |
| `JournalRuns.RetiredForever` | lib/delegation-journal.ts:92-92 | an aborted or superseded operation id never gains a receipt in any later version |
| `JournalRuns.OperationAdvances` | lib/delegation-journal.ts:99-109 | as long as an operation is current its intent is fixed, its digests are bound once, and its phase only moves forward |
| `JournalRuns.ReceiptsNameTheirCommit` | lib/delegation-journal.ts:182-192 | the version a receipt names is the one that completed the operation, and no earlier one has the receipt |
| `JournalRuns.ExactlyOnce` | lib/delegation-journal.ts:182-192 | a receipt never changes, no two operations share a commit, receipts are ordered by commit, and the assignee is the replacement of the newest one or the initial assignee |
| `JournalRuns.NoCommandWritesTwice` | lib/delegation-journal.ts:88-192 | a repeated command writes at most once in any history, whatever others write in between |
| `JournalRuns.WhoMayWrite` | lib/delegation-journal.ts:77-77 | only the owner writes anything but a child, and a call that names an expected revision extends exactly that one |
| `Progress.ClaimGrows` | lib/delegation-journal.ts:88-98 | in every history exactly those claims are written that are the owner's, name the newest revision, a fresh id and somebody new, while no operation is under way and five rows per destination are free; nothing else changes |
| `Progress.ClaimAfterCompletion` | lib/delegation-journal.ts:78-98 | a completed operation frees the journal: its replacement can be replaced in turn, and its receipt stays |
| `Progress.ClaimAfterAbort` | lib/delegation-journal.ts:78-119 | so does an aborted one, with the assignee who was there before |
| `Progress.AbortGrows` | lib/delegation-journal.ts:110-119 | exactly an operation that has not begun its replacement can be aborted, bound or not, and only its phase changes |
| `Progress.AdmitGrows` | lib/delegation-journal.ts:120-128 | exactly which admissions are written, and that they add their destination and rows and nothing else |
| `Progress.ChildGrows` | lib/delegation-journal.ts:129-141 | exactly which child records are written, and that each replaces an older one of its destination and nothing else |
| `Progress.RepeatedCall` | lib/delegation-journal.ts:88-192 | a call repeated after it wrote, whatever others did in between, succeeds without a write as long as its operation stands, and is refused otherwise |
| `Reconcile.Gather` | lib/delegation-reconcile.ts:53-80 | the rows put before the refresh, or the first reason to refuse a candidate |
| `Reconcile.Evaluate` | lib/delegation-reconcile.ts:40-125 | the loops over the merged graph compute the verdict that is defined on the set of rows |
| `Reconcile.VerdictMeans` | lib/delegation-reconcile.ts:85-106 | success means exactly: admitted, all cancellations present, old access gone at every destination, every grant present and effective, within 1024 rows |
| `Reconcile.CancellationPreflightStable` | lib/delegation-reconcile.ts:65-70 | publishing saved cancellations, in any order, leaves a sound cancellation preflight sound |
| `Reconcile.CancellationsReconcile` | lib/delegation-reconcile.ts:85-95 | once all are published the preflight's success is the durable one |
| `Reconcile.ReplacementPreflightStable` | lib/delegation-reconcile.ts:71-80 | publishing grants of the plan, in any order, leaves a sound replacement preflight sound |
| `Reconcile.GrantsReconcile` | lib/delegation-reconcile.ts:96-106 | once all are published the preflight's success is the durable one |
| `Reconcile.CancellationsStayReconciled` | lib/delegation-reconcile.ts:71-73 | however much of the plan is published, the old assignee stays shut out |
| `Protocol.RunMaterial` | lib/delegation-runtime.ts:74-112 | in every history the bound digests are those of documents made for the current operation and its frozen destinations |
| `Protocol.ReplacementIsCleared` | lib/delegation-publish.ts:73-94 | from the replacement phase on every saved cancellation is durable |
| `Protocol.CancelBeforeGrant` | lib/delegation-publish.ts:81-94 | a replacement row enters only on top of a version that holds every cancellation and in which the old assignee has lost every destination |
| `Protocol.BeginIsCleared` | lib/delegation-publish.ts:81-85 | the irreversible phase is entered on the same evidence |
| `Protocol.CommitFence` | lib/delegation-publish.ts:95-105 | the rows that passed the final check are exactly those of the version the commit extends, all admitted; there the old assignee is out and each grant is effective; both documents stay in every later version |
| `Bystanders.PublishedRow` | lib/delegation-reconcile.ts:17-26 | a pending operation adds only cancellations of its old assignee's access or of group relations of its destinations, and then only grants to its replacement |
| `Bystanders.BystandersKeepAccess` | lib/delegation-reconcile.ts:17-26 | while an operation is pending nobody but its two assignees gains or loses direct access to any object, or group access to any object that is not one of its destinations |
| `Reservation.PlanSize` | lib/delegation-runtime.ts:137-142 | grants to one accessor at distinct addresses are at most two per destination |
| `Reservation.ReservationHolds` | lib/delegation-journal.ts:173-181 | between claim and completion the journal gains distinct new rows of the two documents and nothing else |
| `Reservation.PendingWasClaimed` | lib/delegation-journal.ts:94-96 | every pending operation was claimed on a version with five free rows per destination |
| `Reservation.ClaimReservesPublication` | lib/delegation-journal.ts:94-94 | no legal publication of a pending operation is ever refused for row capacity or an unregistered destination |
| `Resumption.SoloProgress` | lib/delegation-publish.ts:50-107 | one undisturbed write completes the operation or leaves it finishable with fewer writes to go, the same final rows and the same room |
| `Resumption.AttemptsConverge` | lib/delegation-publish.ts:50-107 | however the writes are cut into attempts they stop; each added row is a missing plan row, once; the operation completes if and only if there was room, with exactly the starting rows and both plans |
| `Resumption.RoomAtClaim` | lib/delegation-reconcile.ts:65-83 | for plans with no durable row yet, room is a bound on the largest refresh |
| `Wedge.WedgedForever` | lib/delegation-journal.ts:94-94 | no version follows one in the replacement phase whose plan and durable rows together exceed a refresh while a grant is missing |
| `Wedge.RoomDecides` | lib/delegation-publish.ts:50-107 | left alone, every legal history with a finishable operation extends to one in which it is complete, or wedged in the replacement phase, or held up before it with an abort still written, and which one is decided by the room at the start |
| `Wedge.ClaimEnds` | lib/delegation-journal.ts:94-94 | the same from a bound claim, by the numbers of rows, cancellations and grants |
| `Wedge.ClaimRoom` | lib/delegation-journal.ts:94-94 | an operation completes if at its binding seven rows per destination, less one, are free |
| `Wedge.AcceptedAndWedged` | lib/delegation-journal.ts:94-94 | concrete accepted claims: with two destinations the operation completes from up to 1013 durable rows, and is wedged with 1014 |
| `Expiry.DeadRefuses` | lib/delegation-reconcile.ts:103-104 | in the replacement phase nothing is written on evidence of a second at which some grant of the plan is not live |
| `Expiry.ExpiredRefuses` | lib/delegation-reconcile.ts:103-104 | once a grant has run out, nothing is written on evidence of that second or later |
| `Expiry.FinishesWhileLive` | lib/delegation-publish.ts:79-105 | with its rows admitted and room, a planned replacement that began can be completed on evidence of a second if and only if every grant is live at it |
| `Expiry.InterruptedTooLong` | lib/delegation-runtime.ts:72-72 | every operation with room comes to a version that can be finished now and not any more once a given grant has run out |
| `Expiry.AcceptedAndExpired` | lib/delegation-runtime.ts:72-72 | concrete accepted claims that come to such a version |
| `SinglePass.CancelReadyStep` | lib/delegation-publish.ts:62-69 | undisturbed, each record of the cancellations whose preflight succeeds is published or already there |
| `SinglePass.GrantReadyStep` | lib/delegation-publish.ts:86-93 | likewise for each grant |
| `SinglePass.CancelReadyVerdict` | lib/delegation-publish.ts:59-69 | the preflight of a record fails only when the refresh is full; the budget of the batch is enough for every record, and the last one needs all of it |
| `SinglePass.GrantReadyVerdict` | lib/delegation-publish.ts:81-93 | likewise for the grants |
| `Deployment.World.CompareAndSwap` | lib/delegation-blob-inventory.ts:58-73 | a conditional write succeeds exactly when its tag is current, and then extends the history by a legal step |
| `Deployment.World.Create` | lib/delegation-outbox.ts:5-12 | create-if-absent never changes an existing document |
| `Deployment.World.Await` | lib/delegation-inventory.ts:4-9 | whatever others do while a client waits, the history stays legal and documents stay |
| `JournalClient.AssignmentJournal.Claim` | lib/delegation-journal.ts:88-98 | the reply is what the command does to one version that was current during the call, and a success is that version's successor |
| `JournalClient.AssignmentJournal.BindCancellations` | lib/delegation-journal.ts:99-109 | the same, for a document that fitted an earlier version of the operation |
| `JournalClient.AssignmentJournal.Abort` | lib/delegation-journal.ts:110-117 | the same |
| `JournalClient.AssignmentJournal.Admit` | lib/delegation-journal.ts:120-126 | the same |
| `JournalClient.AssignmentJournal.WriteChild` | lib/delegation-journal.ts:129-138 | the same |
| `JournalClient.BindIsLegal` | lib/delegation-journal.ts:99-109 | a document that fitted an operation still fits it whenever its digest can still be bound |
| `MutationSession.Session.constructor` | lib/delegation-journal.ts:140-142 | a session opens on one version in which its operation is active |
| `MutationSession.Session.Current` | lib/delegation-journal.ts:143-148 | a session sees only its own last version |
| `MutationSession.Session.Change` | lib/delegation-journal.ts:149-154 | the session's writes are the versions right after the one it opened on, in order; once overtaken it never writes again |
| `MutationSession.Session.BindPlan` | lib/delegation-journal.ts:157-166 | a call does to the session's version what the command says, or has no effect the session goes on from |
| `MutationSession.Session.Begin` | lib/delegation-journal.ts:167-172 | the same |
| `MutationSession.Session.Publish` | lib/delegation-journal.ts:173-181 | the same |
| `MutationSession.Session.Commit` | lib/delegation-journal.ts:182-192 | a returned receipt is in the session's version, committed on the version the evidence was evaluated on, without any row in between |
| `Outbox.SnapshotOperation` | lib/delegation-outbox.ts:22-46 | the validating loop accepts exactly scoped documents of 1 to 256 distinct cancellations |
| `Outbox.SnapshotGrants` | lib/delegation-replacement-grants.ts:13-26 | the validating loop accepts exactly 1 to 512 positive grants at distinct addresses |
| `Outbox.LoadsAgree` | lib/delegation-outbox.ts:48-72 | a document or plan once found is what every later load by any client finds |
| `Outbox.FoundIsPlanned` | lib/delegation-replacement-grants.ts:46-67 | a loaded plan is bound to the document and stays within its replacement and destinations |
| `Outbox.BoundOutbox.Load` | lib/delegation-bound-outbox.ts:42-47 | a load under interference returns the one document of the frozen registry |
| `Outbox.BoundOutbox.LoadReassignment` | lib/delegation-bound-outbox.ts:57-64 | and never one with another replacement |
| `Outbox.BoundOutbox.PrepareReassignment` | lib/delegation-bound-outbox.ts:31-56 | success means that the one document is the requested one; a different existing one is a conflict; undisturbed, a valid request succeeds if there is no other document, also the second time |
| `Outbox.ReplacementOutbox.Load` | lib/delegation-replacement-grants.ts:53-67 | a load under interference returns the one plan bound to the document |
| `Outbox.ReplacementOutbox.Prepare` | lib/delegation-replacement-grants.ts:69-80 | success means that the one plan is the requested one; undisturbed, a valid request succeeds if there is no other plan, also the second time |
| `Planner.PlanDirect` | lib/delegation-runtime.ts:66-73 | for each destination a post and a see row that outrank every row of their address; undisturbed, the ones of `DirectRows` |
| `Planner.GroupsOf` | lib/delegation-runtime.ts:94-97 | the memberships found cover every group reading of every destination, at most one per destination |
| `Planner.PlanGroups` | lib/delegation-runtime.ts:87-108 | one cancellation per covered membership, naming all earlier ones, signed by the owner; undisturbed, it only fails on evidence or on sets of other owners |
| `PlannerSound.PlanShutsOut` | lib/delegation-runtime.ts:82-108 | the planned cancellations end every access of the old assignee at every destination |
| `PlannerSound.PlanFitsScope` | lib/delegation-reconcile.ts:17-25 | a plan is at most three distinct cancellations per destination, all within the scope the preflight enforces |
| `PlannerSound.PlanSparesOthers` | lib/delegation-runtime.ts:85-86 | the planned cancellations change nothing for anybody else at any object |
| `PlannerSound.PlannedIsReady` | lib/delegation-runtime.ts:74-143 | a planned operation passes both preflights as soon as its rows are admitted |
| `Admission.PlannedRowsAdmitted` | lib/identity/forum-authority.ts:116-201 | rows signed by a known owner, with cancellations under new ids, are admitted on top of admitted rows as long as the principals fit |
| `Launch.DocumentIsValid` | lib/delegation-runtime.ts:74-112 | what is planned on a version in order meets the outbox's conditions and the planner's size |
| `Launch.UndertakingReady` | lib/delegation-runtime.ts:74-143 | the whole undertaking is a planned job whose preflights succeed on the version it was planned on |
| `Launch.BoundRoom` | lib/delegation-publish.ts:50-107 | the room for its one pass, by the numbers of rows, destinations and memberships |
| `Launch.LaunchIsSmooth` | lib/delegation-publish.ts:50-58 | prepared and bound, it is all that the driver needs |
| `Publisher.Reconciler.Evaluate` | lib/delegation-reconcile.ts:40-125 | a success under interference is a verdict on the rows of some version current during the call, at a second that is still current |
| `Publisher.AssignmentPublisher.CancelAll` | lib/delegation-publish.ts:59-69 | every publication is legal for the version it extends; undisturbed, all cancellations become durable if and only if the last check has room |
| `Publisher.AssignmentPublisher.GrantAll` | lib/delegation-publish.ts:85-93 | likewise for the grants |
| `Publisher.AssignmentPublisher.CommitPhase` | lib/delegation-publish.ts:95-105 | the commit extends exactly the version that was evaluated |
| `Publisher.AssignmentPublisher.PrepareReplacement` | lib/delegation-runtime.ts:137-143 | the plan on the shelf holds the grants planned on the rows of one version; undisturbed it is prepared, and for the newest one |
| `Publisher.AssignmentPublisher.Resume` | lib/delegation-publish.ts:50-107 | whatever others do, the driver keeps the history legal, returns only the durable receipt, and leaves every cancellation durable once it is past the first stage; undisturbed, one call completes the operation, with the starting rows and both plans, if and only if the last check of each batch has room, and else names the batch that has none |
| `Runtime.DelegationRuntime.Bindings` | lib/delegation-runtime.ts:47-64 | an active operation is bound to a registry frozen on exactly its destinations |
| `Runtime.DelegationRuntime.PlanCancellations` | lib/delegation-runtime.ts:80-110 | the document holds the withdrawals and membership cancellations planned on the bound version; undisturbed, planning succeeds |
| `Runtime.DelegationRuntime.PrepareCancellations` | lib/delegation-runtime.ts:74-112 | success means that some version binds exactly the one document on the shelf, planned on the bound version if it was not found; undisturbed, a fresh claim is planned and bound |
| `Runtime.DelegationRuntime.Resume` | lib/delegation-runtime.ts:124-145 | a completed resume returns the durable receipt for the requested replacement, to a verified owner; undisturbed, an operation that has its receipt answers with it and writes nothing, nobody but the verified owner gets or changes anything, and from a fresh claim or from wherever an earlier run has come to it completes exactly if there is room |
| `Runtime.DelegationRuntime.Start` | lib/delegation-runtime.ts:115-123 | the same from the claim on: undisturbed, with the evidence in order, an accepted claim completes if and only if the rows, six for each destination and one for each membership, less one, are at most 1024; a refused claim changes nothing, a repeated one resumes |
| `Runtime.DelegationRuntime.StartTwice` | lib/delegation-runtime.ts:115-129 | a start repeated after it completed, with anything in between, returns the same receipt, and undisturbed writes nothing |
| `Runtime.DelegationRuntime.Owner` | lib/delegation-runtime.ts:34-46 | exactly the verified owner gets the journal, on rows and at a second of the call |
| `Runtime.DelegationRuntime.Abort` | lib/delegation-runtime.ts:146-146 | exactly the verified owner's abort reaches the journal |
| `Runtime.MayWriteMeans` | lib/identity/forum-child-write.ts:7-16 | who may write a child: the agent on its own object, or whoever has grants in force both to see it and to post there, and to see what it names |
| `Runtime.DelegationRuntime.CheckForumChildWrite` | lib/identity/forum-child-write.ts:7-16 | the check on the installed maps decides exactly that |
| `Runtime.DelegationRuntime.CheckChild` | lib/delegation-runtime.ts:164-175 | a child passes only with its writer's key, its signature and its grants on the rows of one version, at a second that is still current; undisturbed, exactly then |
| `Runtime.DelegationRuntime.PublishChild` | lib/delegation-runtime.ts:160-179 | a child that reaches the journal is signed by its writer's key and was authorized on one version, which is the one it extends if and only if the expected revision was not ahead; undisturbed, exactly the publishable children reach it, and another changes nothing |
| `ChildFence.AheadSlipsPast` | lib/delegation-runtime.ts:160-179 | a legal history in which a child checked on version 0 is written on version 1, where its writer may not write it any more, because its caller named revision 1 |
| `Runtime.DelegationRuntime.AdmitDestination` | lib/delegation-runtime.ts:180-191 | the same for an admitted destination, whose rows must make the verified owner its owner |
| `Inventory.HistoryKeeps` | lib/delegation-inventory.ts:35-69 | registered destinations stay, a frozen registry never changes, the list is always sorted and free of duplicates |
| `Inventory.OneOwner` | lib/delegation-inventory.ts:62-69 | at most one operation ever owns a registry |
| `Inventory.DelegationInventory.Update` | lib/delegation-inventory.ts:35-42 | the swap loop answers for a version current during the call, gives up only after eight other writes, and finds the registry missing only before it was provisioned; undisturbed, the change is made |
| `Inventory.DelegationInventory.Register` | lib/delegation-inventory.ts:54-61 | a destination whose registration returned is in every version from then on; undisturbed, a valid new one on an unfrozen registry with room is added, and nothing else is |
| `Inventory.DelegationInventory.Freeze` | lib/delegation-inventory.ts:62-69 | a freeze that returned fixed one list for one operation for good; undisturbed, an unowned registry is frozen |
| `Inventory.DelegationInventory.Initialize` | lib/delegation-inventory.ts:44-52 | provisioning succeeds only if the stored registry is the intended one |
| `Drawer.WinsIsStrictTotalOrder` | lib/forum-drawer.ts:77-80 | the row order is a strict total order: later revision, then the tombstone, then the smaller text |
| `Drawer.DrawersConverge` | lib/forum-drawer.ts:98-149 | drawers that accepted the same rows, in any order and multiplicity, hold the same row for every id |
| `Drawer.Live` | lib/forum-drawer.ts:164-215 | over any series of calls, reconnects among them, no revision floor falls, and no live row up to the revision of an accepted tombstone is ever held again |
| `Drawer.ForumDrawer.StartReceive` | lib/forum-drawer.ts:98-116 | a verification starts exactly when the hint is sound and there is room, at most 32 at once; exactly the sound hints are kept and, for want of room, queued; known ids stay within 128, a repeated hint keeps its first time |
| `Drawer.ForumDrawer.FinishReceive` | lib/forum-drawer.ts:117-137 | exactly a row that passes every check under the same connection and key is accepted, what is held stays the greatest accepted row, and the held row's proof is recorded exactly when the accepted row is the held one under the same key |
| `Drawer.ForumDrawer.Rows` | lib/forum-drawer.ts:172-176 | exactly the displayable held rows, oldest first, each readable, authorized, proved on this connection under its writer's current key, and later than every accepted tombstone of its id |
| `Drawer.ReceiveAndShow` | lib/forum-drawer.ts:98-176 | a row whose verification starts and yields it, that the viewer may be shown and that wins over what is held, is on display afterwards |
| `Drawer.Redisplay` | lib/forum-drawer.ts:98-215 | what is on display goes with the connection and is back once it is received again, under whatever signature |
| `Drawer.ForumDrawer.Expire` | lib/forum-drawer.ts:150-162 | exactly the hints older than 30 seconds go |
| `Drawer.ForumDrawer.Drain` | lib/forum-drawer.ts:142-147 | exactly the queued hints that can still be verified are taken up, until the queue is empty or 32 are under way |
| `Drawer.ForumDrawer.Disconnect` | lib/forum-drawer.ts:164-169 | floors and held rows survive, hints do not, and running verifications are fenced out |
| `Drawer.ForumDrawer.Connect` | lib/forum-drawer.ts:203-215 | a reconnect keeps floors and held rows, forgets hints, and fences out running verifications |
| `Drawer.ForumDrawer.Recover` | lib/forum-drawer.ts:179-193 | a recovered revision becomes a floor, exactly if it parses, is readable and there is room; its content is received like any other row |
| `Drawer.ForumDrawer.FinishRecover` | lib/forum-drawer.ts:193-200 | what is put on the mesh again is exactly an accepted saved row that is held, the greatest of its id, and readable now |
| `Needs.OutsidersOnlyClose` | lib/forum-squad.ts:677-709 | anyone but the owner is accepted exactly as the subject of an open row that it closes by one step, nothing else changed, on an offer that is posted, live, made for this need and forum, by a helper who may see the need |
| `Needs.AuthorizedExactly` | lib/forum-squad.ts:677-731 | exactly which rows are accepted from whom, in terms of the rows and the offer: every close of an open row, the owner's too, needs a live offer of a helper who may see the need |
| `Needs.AdmissionCloses` | lib/forum-squad.ts:677-709 | an admission one step behind is an open row that the close closes in its forum |
| `Needs.OpenRowsAreOwned` | lib/forum-squad.ts:677-709 | an open row is accepted from its owner only |
| `Needs.SecondTestIsDead` | lib/forum-squad.ts:702-707 | the subject's second test is never reached, and would never pass |
| `Needs.NeedBoard.Accept` | components/SquadForum.tsx:936-1012 | over every series of deliveries exactly the publishable rows are accepted, at most one step above what the owner signed, and no need's HAM state falls |
| `Offers.RetainForumOffer` | lib/forum-squad.ts:1644-1655 | the delete loops compute the bounded cache |
| `Offers.RetainedKeeps` | lib/forum-squad.ts:1643-1655 | an offer that is too long, or the live row of a cancelled key, changes nothing; every other one is last, and everything else was there before |
| `Offers.EvictsOldest` | lib/forum-squad.ts:1651-1653 | besides the row it replaces at most one row goes: the oldest of the offer's need if it has 32 others, else the oldest of all if there are 256 |
| `Offers.AlwaysBounded` | lib/forum-squad.ts:1637-1655 | after any series from empty at most 256 offers and 32 per need remain |
| `Offers.CancelledStays` | lib/forum-squad.ts:1323-1331 | a key held as cancelled never turns live while it stays in the map |
| `Offers.EventVersions.Bump` | lib/forum-squad.ts:430-455 | the new generation is current, the key's others are not, what went stale stays stale, and a key bumped within the last 1024 bumps is not evicted |
| `ReceiveProofs.ValidIsGrounded` | lib/forum-receive-proofs.ts:16-20 | checking the top row's keys and the chain of conditions is the same as checking contents, keys and conditions all the way down |
| `ReceiveProofs.Proofs.Soundness` | lib/forum-receive-proofs.ts:16-20 | a row is valid exactly when its whole chain is |
| `ReceiveProofs.Proofs.Enroll` | lib/forum-receive-proofs.ts:28-31 | only a valid row enrols, within 128 principals |
| `ReceiveProofs.Proofs.Reset` | lib/forum-receive-proofs.ts:26-26 | no row is valid after a reset, and operations begun before it are fenced |
| `ReceiveProofs.Operation.StartRead` | lib/forum-receive-proofs.ts:39-42 | a read starts exactly when fewer than 32 are under way and the operation is current |
| `ReceiveProofs.Operation.FinishRead` | lib/forum-receive-proofs.ts:43-49 | a row comes back exactly if it was verified, the operation is current and the key is still the principal's, and the key is then recorded |
| `ReceiveProofs.Operation.Depend` | lib/forum-receive-proofs.ts:51-60 | succeeds exactly on a valid row for a current operation, which stays current, and takes over its keys |
| `ReceiveProofs.Operation.Retain` | lib/forum-receive-proofs.ts:61-66 | retains exactly when current with keys and conditions, never for an operation begun before an interrupt or reset |
| `ReceiveProofs.Fenced` | lib/forum-receive-proofs.ts:25-36 | once interrupted or reset, an operation reads, rests on and retains nothing, whatever happens and however many other operations are at work or begin |
| `ReceiveRetry.EveryRowInEight` | lib/forum-receive-retry.ts:27-36 | of any eight consecutive retries of an unchanged set one has a given row among its first 32 |
| `ReceiveRetry.RotationPlaces` | lib/forum-receive-retry.ts:29-34 | the place of a row in a retry |
| `ReceiveRetry.ReplaysRenewNothing` | lib/forum-receive-retry.ts:8-25 | a replayed hint keeps its first time, and a prune 30 seconds after it removes the hint |
| `ReceiveRetry.FreshRows` | lib/forum-receive-retry.ts:8-8 | a prune removes exactly the hints that are 30 seconds old |
| `ReceiveRetry.SetPlaces` | lib/forum-receive-retry.ts:25-25 | a known key keeps its place and time and gets the new data, a new one comes last, and the other rows stay as they are |
| `ReceiveRetry.ReceiveRetryQueue.Remember` | lib/forum-receive-retry.ts:10-25 | a known key keeps place and time, a new one needs room |
| `ReceiveRetry.ReceiveRetryQueue.Retry` | lib/forum-receive-retry.ts:27-36 | every pending row is started once, from the cursor on |
| `LedgerFile.ParseForumFile` | lib/forum.ts:861-949 | the loops compute the parser |
| `LedgerFile.FileIsConsistent` | lib/forum.ts:951-1024 | the loops accept exactly files with unique keys and live references |
| `LedgerRules.ParsesToItself` | lib/forum.ts:861-949 | the parser returns a file unchanged exactly when it is well formed |
| `LedgerRules.ParsedIsWellFormed` | lib/forum.ts:861-949 | whatever is parsed is well formed |
| `LedgerRules.ProperParses` | lib/forum.ts:1438-1440 | a file the operations build is read back unchanged, or not at all when a time stamp is negative |
| `LedgerRules.KeptTransitive` | lib/forum.ts:356-505 | what no operation undoes, no series of operations undoes |
| `Ledger.Forum.RegisterBot` | lib/forum.ts:356-396 | granted exactly for a known label of the same kind or a new one with a free id; a known label gives the same bot, a new bot joins its owner's channel, nothing else changes |
| `Ledger.Forum.CopyBot` | lib/forum.ts:398-420 | granted exactly for the owner's bot, a free label and a free id; the copy has a new id and the same kind and joins nothing |
| `Ledger.Forum.ArchiveBot` | lib/forum.ts:422-437 | granted exactly for the owner's bot; that bot alone changes, and only the first time |
| `Ledger.Forum.JoinBot` | lib/forum.ts:439-461 | granted exactly for an active bot, which is a member of its owner's channel afterwards |
| `Ledger.Forum.Post` | lib/forum.ts:463-505 | granted exactly for a member at home that is active, on its own channel or one its owner can see; one message is appended |
| `Ledger.Forum.Invite` | lib/forum.ts:599-616 | granted exactly to two different accounts; the guest can see the owner's channel afterwards |
| `Ledger.Forum.Uninvite` | lib/forum.ts:618-636 | granted exactly to an owner with a channel; exactly the guest's invitation goes |
| `Ledger.Forum.CreateGroup` | lib/forum.ts:638-659 | granted exactly for a known label, which gives the same group, or with a free id |
| `Ledger.Forum.AddMember` | lib/forum.ts:661-682 | granted exactly for the owner's group; the member sees the group's channel afterwards, and nobody else is added |
| `Ledger.Forum.RemoveMember` | lib/forum.ts:684-704 | granted exactly for the owner's group; exactly the member's row goes |
| `Ledger.Forum.PublishDesktop` | lib/forum.ts:535-581 | granted exactly for clean content; the channel's desktop is replaced by the cleaned one, the others stay |
| `Ledger.InviteAdmits` | lib/forum.ts:1164-1172 | an invitation admits its guest to its channel and nobody else to anything |
| `Ledger.UninviteAdmits` | lib/forum.ts:1164-1172 | without the invitation the guest keeps what groups and ownership give |
| `Ledger.LedgerKeeps` | lib/forum.ts:356-704 | over any run the ledger stays readable, messages are append-only, channels and bots are never deleted, an archived bot never changes or posts again |
| `Ledger.LabelKeepsItsBot` | lib/forum.ts:368-381 | registering a label again at any later time gives the same bot id |
| `Ledger.NegativeStampIsFinal` | lib/forum.ts:1425-1440 | one save with a negative time stamp and the ledger is never read or changed again |
| `Ledger.EarlyFileIsUnreadable` | lib/forum.ts:1438-1440 | the empty file is read back, the same with one bot of second -1 is not |
| `Ledger.RegisteredTooEarly` | lib/forum.ts:1425-1440 | the registration that saves it |

## Left out

- Signatures, key histories, SHA-256 digests, SIWE and witness checks: uninterpreted or injective, as said under Assumptions.
- Textual grammars (ids, addresses, labels, handles): a value is well formed or not, in a canonical spelling or another.
- JSON text and byte-size caps (2,097,152 and 1,048,576 bytes, 32,768 characters): documents are values, only record counts are bounded. Two spellings of one authority record are one row.
- A journal that was never provisioned, and stores that lose or roll back data: a `World` starts from a provisioned journal.
- `Runtime.DelegationRuntime.Bindings`: provisioning and freezing a registry is one create-if-absent step here, because nobody registers destinations in the registry of a single operation; its two steps, and the swap loop, are in `Inventory`.
- `Deployment.World.Await`: other clients are bound to the discipline `Protocol.Legal`; a writer that ignores it is not modelled.
- `ReceiveProofs.Operation.Retain`: an operation that depends again after it retained a row would also condition that row in the source; the receipt here takes the dependencies as they were, which asks less. No caller does this.
- Subscriptions and puts of the drawer: that a row is put again is an answer of `Drawer.ForumDrawer.FinishRecover`.
- `Needs.NeedBoard.Accept`: the pending queue of needs whose owner or offer is not loaded yet, and removals, are not part of the model.
- Drawer `publish`, feed pulls, outbound posting, chat, presence, roles, ranking and watches of the forum squad.
- `readChild`, HTTP routes and readers, blob streaming, Gun peers and React state.
- Ledger `read` and `readSnapshot`, PNG bytes, activity scrubbing, failing file writes.
- `lib/grant-delivery.ts`.
