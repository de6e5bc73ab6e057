# Verified model of the workspace lifecycle and its evidence stores

This project models, in Dafny 4.11, the parts of the ASD-KONTUR repository that decide what may
happen to a workspace and what remains provable about it afterwards:

* **The workspace lifecycle** — the stored function `transition_lifecycle`, the material write
  fence, the column guard and the append-only evidence tables. A workspace is a value `Store`
  (row, commands, history, revisions, outbox, evidence, material content). `Event` lists
  everything that can happen to it, `Apply` is one atomic step and `Exec` a run. A refused event
  is part of a run and changes nothing, so each theorem about `Exec` holds for every sequence of
  events from a workspace as created. The class `Database` runs the same steps statement by
  statement, with the rollback of a failed transaction, and is proved equal to `Apply`.
* **Concurrent callers** — a call is split into the unlocked lookup and the part under the row
  lock, and arbitrary interleavings are shown to be runs of whole calls.
* **Versioned evidence stores** — supersession links, reviewer/finalizer separation, and corpus
  snapshots with their commit-time count check: tables under triggers, grown by guarded inserts
  and shrunk by the destruction executor under RESTRICT.
* **Two small algorithms** — spreadsheet column names, and the grouped index and manifest of the
  native provision batch against the linear scan of the canary.

| file | contents |
|---|---|
| `LifecycleStates.dfy`, `LifecycleEvidence.dfy`, `LifecycleTransition.dfy` | the states and their table, evidence rows with constraints and gates, the effect of each event |
| `LifecycleAnswers.dfy`, `LifecycleStory.dfy`, `LifecycleInserts.dfy` | when a call is accepted and what it answers, what it writes, and what the evidence tables hold, in the columns of the tables |
| `LifecycleRuns.dfy`, `LifecycleLog.dfy`, `LifecycleRetries.dfy` | what every run keeps; log replay; idempotency |
| `LifecycleShape.dfy`, `LifecycleWitness.dfy`, `LifecycleFreshness.dfy` | point of no return, run length, forced stages; evidence behind every log row; freshness |
| `LifecycleDestruction.dfy`, `LifecycleCoverage.dfy`, `LifecycleContent.dfy` | what stands behind a purge and a destroyed workspace; when counted receipts cover a deletion plan; frozen content |
| `LifecycleRoutes.dfy`, `LifecycleOrder.dfy`, `LifecyclePlans.dfy` | which continuations always exist; destruction in and out of the documented order; which plan opens VERIFYING_RESET |
| `LifecycleConcurrency.dfy`, `LifecycleInFlight.dfy`, `LifecycleDatabase.dfy` | interleavings of calls; writes in flight at a freeze; the imperative form |
| `Supersession.dfy`, `SupportReview.dfy`, `CorpusSnapshot.dfy` | the versioned evidence stores |
| `SpreadsheetColumns.dfy`, `NativeProvision.dfy` | the two algorithms |
| `Wrappers.dfy` | Option, Result and what append-only means for a map |

## Reading of the code

* The time a call uses is the start of its transaction, so it is a parameter of each call and no
  order between calls is assumed. Every theorem holds for arbitrary times.
* `transition_lifecycle` stores the operation key as the operation id before the column guard
  runs. An empty key therefore reads as no id and the guard refuses the update: `DirectMutation`.
* A part of a call under the row lock is one step. It reads committed rows at successive
  statements, but evidence is append-only, the hold lives in the locked row, and at most one gate
  of a target looks at invalidations, so the reads agree with one moment.
* The implementation note (docs/implementation/G06_WORKSPACE_LIFECYCLE_FOUNDATION_v0.1.md:25-41)
  pairs RECOVERY_REQUIRED with a controlled retry. In the
  transition table a workspace that enters RECOVERY_REQUIRED, even from FREEZING, can only go
  on to purge, destruction or quarantine; `PointOfNoReturn` states it. The note also shows
  destruction after RESET_VERIFIED only, while the table lets RECOVERY_REQUIRED go to DESTROYING.
  The model follows the table. `DestroyedOutOfOrder` is a run that destroys a workspace that was
  never frozen, in five transitions, and `DestructionStaysPossible` shows that every reachable
  workspace can be destroyed without a further reset. `DestroyedInOrderIff` gives the exact
  condition: a destroyed workspace took the documented road, from FREEZING through CLOSED and
  RESET_VERIFIED to DESTROYED, exactly when its log has no entry to RECOVERY_REQUIRED; and it passed
  RESET_VERIFIED at all exactly when it once entered DESTROYING from there (`PassedResetIff`).
* The gate of VERIFYING_RESET counts the good receipts of a plan (lines 750-764 of migration 0003)
  and compares them with the length of the item array. That an open gate means every item is
  covered is false of the code, for three reasons the tables leave open (lines 396-474): receipts
  may come from several operations, a receipt may name an item outside the plan, and the array may
  repeat an item. `GateForcesCoverageIff` gives the exact condition for receipts that name items
  of the plan and come from at most k operations: for a reset plan with d distinct items the gate
  forces coverage exactly when d = 0 or k * (d - 1) is below the length of the array. For an array
  without repetitions this is k <= 1 or at most one item (`DistinctItemsForcedIff`). When receipts
  may name any items, it forces coverage exactly when k = 0 or the plan is empty
  (`AnyItemsForcedIff`). The tables demand neither that receipts name items of the plan nor a
  bound on the operations. The evidence in these statements is any sequence of inserts, which is the
  evidence of the reachable workspaces (`EvidenceIsRecorded`, `RecordedIsReachable`).
* The same condition holds at the very call: `ResetForcesCoverageIff` speaks of workspaces that
  enter VERIFYING_RESET.
* Nothing ties the plan that opens VERIFYING_RESET to the plan PURGING was authorized for (lines
  737-764). `PlansAgreeIff` says exactly when they must agree if no plan is added: when every other
  stored reset plan already has a bad receipt. If plans may be added, a fresh plan without items
  opens it in every case (`EmptyPlanOpens`).
* A workspace starts in PROVISIONING with the values both creators insert, among them revision row 1
  (src/asd_kontur/persistence/repositories.py:120-161,
  src/asd_kontur/application_spine/postgres.py:149-184). The table itself gives `lifecycle_state`
  no default, and no trigger guards an insert into `workspace.workspaces`.
* A call with a NULL digest or a NULL target is not modelled. In the source a repeated key with a
  NULL digest and the same target skips the conflict test of line 655, since NULL makes the
  disjunction unknown, and gets the original answer.
* The canary passes the current time as `verified_at` and the batch its start time. The agreement
  in `BatchIsCanaries` is with a canary given the batch's `verified_at`.
* Supersession is not kept linear: the triggers lack a guard against superseding a version twice.
  `LinearThroughoutIff` says that this guard is exactly what is missing.
* The snapshot check runs once, for the header's own transaction. `ExactWhileUntouched` says
  exactly when the counts are still exact later, and `LateMemberBreaksExactness` that late
  memberships are accepted.

## Model

| member | source | states |
|---|---|---|
| LifecycleDatabase.Database.constructor | src/asd_kontur/persistence/repositories.py:113-161 | a created workspace is the initial store: PROVISIONING, version 1, revision 1 with its revision row, unfenced, no hold, and no other rows |
| LifecycleDatabase.Database.TransitionLifecycle | migrations/versions/0003_g06_workspace_lifecycle.py:624-840 | the stored function leaves exactly the store and gives exactly the answer of the atomic call, on every path |
| LifecycleDatabase.Database.LockedTransition | migrations/versions/0003_g06_workspace_lifecycle.py:661-839 | the part under the row lock commits all five writes or, whichever constraint fails midway, none |
| LifecycleDatabase.Database.CheckTransition | migrations/versions/0003_g06_workspace_lifecycle.py:664-793 | the first failing check, in the order of the code, decides the error; no error means the version is current, the step is in the table, the gate is open and no hold stands in the way; a hold stops steps only from the five states that lead to a destructive one |
| LifecycleDatabase.Database.WriteTransition | migrations/versions/0003_g06_workspace_lifecycle.py:794-838 | command, row, history, revision and outbox are written together; which guard, row check or key stops the writes, a row check before the keys of its table |
| LifecycleAnswers.TableIsListed | migrations/versions/0003_g06_workspace_lifecycle.py:667-686 | the transition table is the list of 36 pairs |
| LifecycleAnswers.AnswersInOrder | migrations/versions/0003_g06_workspace_lifecycle.py:664-839 | in every reachable workspace a call with an unused key is told the first that applies: version conflict, unlisted pair, hold, missing checkpoint, missing evidence, empty key, no identity, and otherwise the target and the next version |
| LifecycleAnswers.UngatedIff | migrations/versions/0003_g06_workspace_lifecycle.py:667-693 | in every reachable workspace the eleven targets without evidence can be entered exactly along a listed pair |
| LifecycleAnswers.VersionTaggedIff | migrations/versions/0003_g06_workspace_lifecycle.py:707-716 | FROZEN and FINALIZED can be entered exactly from the state before, with a verified manifest or report of the current version |
| LifecycleAnswers.ExportAndArchiveIff | migrations/versions/0003_g06_workspace_lifecycle.py:717-728 | EXPORTED and ARCHIVED can be entered exactly from the state before, with a verified export of the current revision or a verified check of a verified package |
| LifecycleAnswers.ResetAuthorizedIff | migrations/versions/0003_g06_workspace_lifecycle.py:729-736 | RESET_AUTHORIZED can be entered exactly from RESET_PLANNING, without a hold, with an unexpired authorization that no row revokes |
| LifecycleAnswers.PurgingIff | migrations/versions/0003_g06_workspace_lifecycle.py:737-749 | PURGING can be entered exactly from RESET_AUTHORIZED, or from RECOVERY_REQUIRED with a checkpoint, without a hold, with such an authorization for a stored reset plan of its digest and no later version |
| LifecycleAnswers.VerifyingResetIff | migrations/versions/0003_g06_workspace_lifecycle.py:750-764 | VERIFYING_RESET can be entered exactly from PURGING with a stored reset plan whose receipts all say deleted or already absent and are as many as its items or more |
| LifecycleAnswers.DestroyingIff | migrations/versions/0003_g06_workspace_lifecycle.py:774-784 | DESTROYING can be entered exactly from RESET_VERIFIED, or from RECOVERY_REQUIRED with a checkpoint, without a hold, with such an authorization for a stored destroy plan |
| LifecycleAnswers.AttestedIff | migrations/versions/0003_g06_workspace_lifecycle.py:765-793 | RESET_VERIFIED and DESTROYED can be entered exactly from the state before with a verified attestation of unchanged integrity for a stored plan of the kind, DESTROYED only without a hold |
| LifecycleStory.EveryRowTold | migrations/versions/0003_g06_workspace_lifecycle.py:794-838 | each history row and its command have, column by column, the data of one call of the run and of the row that call found |
| LifecycleStory.EveryEventTold | migrations/versions/0003_g06_workspace_lifecycle.py:825-834 | each event in the outbox has the version, states, key, correlation and time of one history row, prior and new state apart, and the digest of its call |
| LifecycleStory.OutboxReplays | migrations/versions/0003_g06_workspace_lifecycle.py:825-834 | undrained, the events lead from PROVISIONING state by state and version by version to the state and version of the row |
| LifecycleStory.EveryRevisionTold | migrations/versions/0003_g06_workspace_lifecycle.py:813-824 | revision row 1 is that of the creation and each later one that of one reopening, created by its actor, or else by its service, at its time |
| LifecycleDatabase.Database.RecordEvidence | migrations/versions/0003_g06_workspace_lifecycle.py:245-548 | an evidence row is stored exactly when its keys, references and checks admit it |
| LifecycleInserts.InsertStores | migrations/versions/0003_g06_workspace_lifecycle.py:245-548 | for each of the eleven kinds an accepted insert stores exactly this row and a refused one nothing |
| LifecycleInserts.TablesHoldWhatWasAccepted | migrations/versions/0003_g06_workspace_lifecycle.py:245-573 | after any run the tables hold exactly the rows whose insert was accepted |
| LifecycleInserts.AcceptedIffLawful | migrations/versions/0003_g06_workspace_lifecycle.py:245-548 | an insert is accepted exactly when the tables with just this row more meet every CHECK, UNIQUE and FOREIGN KEY constraint |
| LifecycleInserts.AlwaysLawful | migrations/versions/0003_g06_workspace_lifecycle.py:245-548 | the tables of every reachable workspace meet them |
| LifecycleDatabase.Database.SetLegalHold | migrations/versions/0003_g06_workspace_lifecycle.py:601-614 | outside the function only the hold and the revision move, the hold only under an operation id |
| LifecycleDatabase.Database.WriteMaterial | migrations/versions/0003_g06_workspace_lifecycle.py:579-600 | an ordinary write is admitted exactly in PROVISIONING and ACTIVE, and a refused one changes nothing |
| LifecycleDatabase.Database.DeleteMaterial | migrations/versions/0003_g06_workspace_lifecycle.py:595-599 | the executor's delete passes the fence in every state |
| LifecycleDatabase.Database.DeleteOutboxRow | migrations/versions/0003_g06_workspace_lifecycle.py:936-938 | the executor may delete single outbox rows |
| LifecycleEvidence.ConstraintsKept | migrations/versions/0003_g06_workspace_lifecycle.py:426-548 | identity, expiry, attestation and receipt-key constraints hold of all stored rows after any insert |
| LifecycleRuns.LogReplays | migrations/versions/0003_g06_workspace_lifecycle.py:797-824 | after any run the history is chained and folds to the state, version, fence, revision and timestamps of the row, and the revision rows are the first one and one per reopening |
| LifecycleRuns.RunGrows | migrations/versions/0003_g06_workspace_lifecycle.py:553-573 | no run changes or loses a history or evidence row; nor, by the events of the model, a command or revision row. Export and package rows are outside the immutability list and rest on the grants of lines 878-882 |
| LifecycleRuns.Reachable | migrations/versions/0003_g06_workspace_lifecycle.py:794-839 | log, commands, outbox and evidence agree with each other in every reachable store |
| LifecycleLog.OncePerKey | migrations/versions/0003_g06_workspace_lifecycle.py:212-225 | each operation key is applied at most once, every stored command is complete, and there are as many commands as log rows |
| LifecycleLog.OutboxComplete | migrations/versions/0003_g06_workspace_lifecycle.py:825-834 | before executor deletes the outbox holds exactly one event per log row, in order, with the command's digest |
| LifecycleLog.OutboxFaithful | migrations/versions/0003_g06_workspace_lifecycle.py:825-834 | after any deletes the remaining events still report distinct log rows in order |
| LifecycleLog.DrainTakesOne | migrations/versions/0003_g06_workspace_lifecycle.py:936-938 | a drain takes exactly the event at its place out of the outbox and leaves every other table alone |
| LifecycleLog.LogKeysAlwaysFree | migrations/versions/0003_g06_workspace_lifecycle.py:806-824 | the keys of history and revisions never reject a reachable call |
| LifecycleLog.RevisionFollowsVersion | migrations/versions/0003_g06_workspace_lifecycle.py:798-804 | apart from hold updates the row's revision rises with the lifecycle version |
| LifecycleRetries.RetryAnswered | migrations/versions/0003_g06_workspace_lifecycle.py:651-660 | however far the workspace moved on, a retry changes nothing and gets the original state and version, or a conflict if digest or target differ |
| LifecycleRetries.RetryElimination | migrations/versions/0003_g06_workspace_lifecycle.py:651-660 | deleting every retry from a run leaves the same final store |
| LifecycleRetries.ErasureKeepsAnswers | migrations/versions/0003_g06_workspace_lifecycle.py:651-660 | every event that survives the deletion gets the answer it got in the original run |
| LifecycleRetries.ErasureIsRetryFree | migrations/versions/0003_g06_workspace_lifecycle.py:651-660 | what remains after that deletion has no retry |
| LifecycleRetries.ErasesOnlyRetries | migrations/versions/0003_g06_workspace_lifecycle.py:651-660 | a run is unchanged by that deletion exactly when it has no retry |
| LifecycleShape.PointOfNoReturn | migrations/versions/0003_g06_workspace_lifecycle.py:667-693 | once the purge timestamp is set or recovery is required, every continuation stays fenced in the seven doomed states |
| LifecycleShape.DoomedOnceCrossed | migrations/versions/0003_g06_workspace_lifecycle.py:667-687 | a workspace is in a doomed state exactly when its log has a row into PURGING or RECOVERY_REQUIRED |
| LifecycleShape.ReopenGuardNeverFires | migrations/versions/0003_g06_workspace_lifecycle.py:691-693 | the guard against reopening after a purge decides no reachable call |
| LifecycleShape.LengthBoundedByRank | migrations/versions/0003_g06_workspace_lifecycle.py:667-687 | transitions are bounded by the rank of the state plus 6 per recovery, 11 per reopening and 2 per dropped plan |
| LifecycleShape.RunLength | migrations/versions/0003_g06_workspace_lifecycle.py:667-687 | every run makes at most 18b+17 transitions, b its backward steps |
| LifecycleShape.ChainForced | migrations/versions/0003_g06_workspace_lifecycle.py:667-680 | since the last ACTIVE the log has passed each earlier stage of the chain, in order |
| LifecycleShape.ExportsInDistinctEpochs | migrations/versions/0003_g06_workspace_lifecycle.py:667-685 | between two entries to EXPORTED the workspace was reopened |
| LifecycleWitness.CommitPoint | migrations/versions/0003_g06_workspace_lifecycle.py:794-839 | every log row was written by one accepted call of the run, with that call's data |
| LifecycleWitness.EveryRowPassedItsGate | migrations/versions/0003_g06_workspace_lifecycle.py:694-793 | every log row was written by an event that found the gate of its target open, its recovery checkpoint stored and no hold in the way, and all that append-only tables keep of that evidence is still stored |
| LifecycleFreshness.EvidenceIsFresh | migrations/versions/0003_g06_workspace_lifecycle.py:707-721 | distinct entries to FROZEN, FINALIZED and EXPORTED rest on distinct verified manifests, reports and exports, each stored with its tag when the entry was made, and unchanged since |
| LifecycleFreshness.RoadToReset | migrations/versions/0003_g06_workspace_lifecycle.py:667-728 | a workspace in RESET_AUTHORIZED passed the nine states from FREEZING to CLOSED in order since it was last ACTIVE, entered each through its open gate, and the proofs of those gates are still stored, with a complete and readable archive |
| LifecycleDestruction.DestructionIsAuthorized | migrations/versions/0003_g06_workspace_lifecycle.py:688-690 | each step into PURGING or DESTROYING had no hold and an unexpired, not invalidated authorization of four distinct identities for a plan of the right kind, still stored |
| LifecycleDestruction.DestroyedWasAuthorized | migrations/versions/0003_g06_workspace_lifecycle.py:774-784 | every DESTROYED workspace entered DESTROYING under such an authorization |
| LifecycleDestruction.DestroyedIsAttested | migrations/versions/0003_g06_workspace_lifecycle.py:785-793 | it was not held when declared destroyed, and a verified destroy attestation without residue was stored at that moment and is unchanged |
| LifecycleDestruction.DestroyedStays | migrations/versions/0003_g06_workspace_lifecycle.py:667-687 | nothing moves a destroyed workspace |
| LifecycleDestruction.HoldProtects | migrations/versions/0003_g06_workspace_lifecycle.py:688-690 | while a hold stands no run enters RESET_AUTHORIZED, PURGING, DESTROYING or DESTROYED |
| LifecycleDestruction.HoldIsLastSet | migrations/versions/0003_g06_workspace_lifecycle.py:601-614 | the hold is always as the last hold update with a positive revision, and an operation id if it moves the hold, has set it |
| LifecycleDestruction.HoldUpdateWrites | migrations/versions/0003_g06_workspace_lifecycle.py:864-866 | such an update writes the two granted columns and nothing else, and any other changes nothing |
| LifecycleDestruction.RevocationIsFinal | migrations/versions/0003_g06_workspace_lifecycle.py:445-454 | after an accepted invalidation no later inserts make the authorization live again |
| LifecycleDestruction.RevokedNeverServes | migrations/versions/0003_g06_workspace_lifecycle.py:729-749 | every later entry to RESET_AUTHORIZED, PURGING or DESTROYING finds another authorization, unexpired and not revoked |
| LifecycleDestruction.SpoiledPlanNeverWitnesses | migrations/versions/0003_g06_workspace_lifecycle.py:750-764 | after a stored receipt that says failed, incomplete or residue detected, every later entry to VERIFYING_RESET rests on another plan or version without such a receipt |
| LifecycleCoverage.CoveredIffEnoughNamed | migrations/versions/0003_g06_workspace_lifecycle.py:456-474 | for all evidence, a plan is covered exactly when its good receipts name as many distinct items of the plan as it has |
| LifecycleCoverage.CountingIsCovering | migrations/versions/0003_g06_workspace_lifecycle.py:456-474 | under the table constraints, for distinct items, receipts that name items of the plan and at most one operation, the receipt count reaches the item count exactly when every item has a good receipt |
| LifecycleCoverage.GateForcesCoverageIff | migrations/versions/0003_g06_workspace_lifecycle.py:750-764 | for every reset plan and every k: over all evidence the tables accept, with receipts that name items of the plan and come from at most k operations, an open gate means full coverage exactly when k operations cannot reach the count without one of the items |
| LifecycleCoverage.DistinctItemsForcedIff | migrations/versions/0003_g06_workspace_lifecycle.py:750-764 | for a plan of distinct items that is so exactly when k is at most 1 or the plan has at most one item |
| LifecycleCoverage.TwoOperationsMissAnItem | migrations/versions/0003_g06_workspace_lifecycle.py:750-764 | for every reset plan of two or more distinct items the tables accept receipts of two operations, all for items of the plan, that open the gate with an item uncovered |
| LifecycleCoverage.AnyItemsForcedIff | migrations/versions/0003_g06_workspace_lifecycle.py:456-474 | with receipts for any items, an open gate means full coverage exactly when there is no operation or no item; otherwise one operation with receipts outside the plan opens it |
| LifecycleCoverage.InsertsAccepted | migrations/versions/0003_g06_workspace_lifecycle.py:456-474 | the tables accept one after the other any receipts of a stored plan with counts from 0 and distinct (operation, item) keys |
| LifecycleCoverage.RecordedIsReachable | migrations/versions/0003_g06_workspace_lifecycle.py:245-548 | whatever evidence a sequence of inserts leaves in the tables, a reachable workspace has it |
| LifecyclePlans.ResetForcesCoverageIff | migrations/versions/0003_g06_workspace_lifecycle.py:750-764 | over all runs: whenever a workspace enters VERIFYING_RESET with receipts of a plan that name its items and come from at most k operations, a plan that counts as purged is covered exactly when there is no room for a full count beside an unnamed item |
| LifecyclePlans.PlansAgreeIff | migrations/versions/0003_g06_workspace_lifecycle.py:737-764 | in a purging workspace to which no plan is added, VERIFYING_RESET can be entered only with a given plan purged exactly when every other reset plan already has a bad receipt |
| LifecyclePlans.EmptyPlanOpens | migrations/versions/0003_g06_workspace_lifecycle.py:750-764 | in every purging workspace, whatever plan it was purged for, two inserts let the next call enter VERIFYING_RESET on a plan without items or receipts while that plan is spoiled |
| LifecycleOrder.PassedResetIff | migrations/versions/0003_g06_workspace_lifecycle.py:682-684 | a workspace that left RESET_VERIFIED passed it exactly when its log has an entry to DESTROYING from RESET_VERIFIED |
| LifecycleOrder.DestroyedInOrderIff | docs/implementation/G06_WORKSPACE_LIFECYCLE_FOUNDATION_v0.1.md:25-34 | a destroyed workspace passed the closing chain and the seven states from RESET_PLANNING to DESTROYED in order exactly when it never entered RECOVERY_REQUIRED; every row was entered through its open gate |
| LifecycleOrder.DestroyedOutOfOrder | migrations/versions/0003_g06_workspace_lifecycle.py:682-683 | a run from a created workspace to DESTROYED through ACTIVE, FREEZING, RECOVERY_REQUIRED and DESTROYING only |
| LifecycleRoutes.DestructionStaysPossible | migrations/versions/0003_g06_workspace_lifecycle.py:667-687 | from every reachable workspace some continuation of at most six transitions destroys it without entering RESET_VERIFIED |
| LifecycleRoutes.WalkArrives | migrations/versions/0003_g06_workspace_lifecycle.py:794-839 | fresh calls take any path of the transition table that does not reopen, as long as the stored evidence and checkpoints open its gates at every version, and change neither evidence nor content |
| LifecycleContent.FrozenContent | migrations/versions/0003_g06_workspace_lifecycle.py:579-600 | in every fenced state the content is that of the last freeze less the executor's deletes, and equal to it without them |
| LifecycleContent.CloseThenReopen | migrations/versions/0003_g06_workspace_lifecycle.py:579-600 | closing and reopening gives back the content at the freeze, less what the executor deleted since, and exactly it when the executor deleted nothing since |
| LifecycleContent.FenceFlagAgrees | migrations/versions/0003_g06_workspace_lifecycle.py:801-801 | `write_fenced` stands exactly outside PROVISIONING and ACTIVE and tells exactly which writes the trigger refuses |
| LifecycleContent.LastWriteIsRead | migrations/versions/0003_g06_workspace_lifecycle.py:579-600 | an admitted insert, update or delete leaves its row as it asked until the next event that names the row; a refused one leaves it alone |
| LifecycleContent.ExecutorAlwaysDeletes | migrations/versions/0003_g06_workspace_lifecycle.py:595-599 | in every state the executor's delete takes its row away, and no other, until an event names the row again |
| LifecycleInFlight.PromptWriteIsAtomic | migrations/versions/0003_g06_workspace_lifecycle.py:579-600 | a write that lands right after its trigger read the row is the write in one step, and the trigger admits exactly in PROVISIONING and ACTIVE |
| LifecycleInFlight.OnlyWritesInFlight | migrations/versions/0003_g06_workspace_lifecycle.py:579-600 | with the read of the trigger and the write taken apart: in every fenced state the content differs from that of the last freeze only in rows deleted by the executor and rows of writers that had read the fence before the freeze, each of which lands at most once |
| LifecycleInFlight.ContentFixedIff | migrations/versions/0003_g06_workspace_lifecycle.py:592-597 | executor deletes aside, fenced content cannot change exactly when no write was in flight |
| LifecycleConcurrency.InterleavingIsAtomic | migrations/versions/0003_g06_workspace_lifecycle.py:651-666 | every interleaving of lookups, locked parts and other writes leaves the store of a run of whole calls |
| LifecycleConcurrency.AnswersAreAtomic | migrations/versions/0003_g06_workspace_lifecycle.py:794-839 | each caller is answered as by the whole call at its place in that run; a racer that lost its key only gets an error |
| LifecycleConcurrency.AtMostOnce | migrations/versions/0003_g06_workspace_lifecycle.py:223-223 | of callers racing on one key with any expected versions at most one is told it made the transition |
| LifecycleConcurrency.SessionOfLookup | migrations/versions/0003_g06_workspace_lifecycle.py:651-660 | whatever the other callers do, a caller is answered for the request of its own first lookup |
| LifecycleConcurrency.FinishedIsAnswered | migrations/versions/0003_g06_workspace_lifecycle.py:661-839 | a caller that looked up and finishes is answered, and the answer stays |
| Supersession.VersionTable.InsertVersion | migrations/versions/0005_wp11_common_domain_kernel.py:262-268 | a version is stored exactly when its key is new and it supersedes a stored lower version or none |
| Supersession.VersionTable.UpdateVersion | migrations/versions/0005_wp11_common_domain_kernel.py:609-614 | a stored version is never changed |
| Supersession.VersionTable.DeleteVersion | migrations/versions/0005_wp11_common_domain_kernel.py:609-614 | only the executor deletes, and only versions nothing refers to |
| Supersession.AlwaysWellFounded | migrations/versions/0004_g07_ai_vlm_harness.py:280-291 | in every reachable table no link dangles and each leads to a lower version |
| Supersession.InsertKeepsLinks | migrations/versions/0005_wp11_common_domain_kernel.py:252-269 | an insert is accepted exactly when the workspace is writable, the key is new and every link of the larger table leads to a stored lower version |
| Supersession.DeleteKeepsLinks | migrations/versions/0005_wp11_common_domain_kernel.py:609-614 | a version is deleted exactly when the executor asks, no other table refers to it and no link of the smaller table dangles |
| Supersession.ChainReachesRoot | migrations/versions/0008_wp14_audit_slice.py:244-254 | following the link strictly decreases through stored versions and reaches a root within `version` steps |
| Supersession.AncestryKeptInRun | migrations/versions/0005_wp11_common_domain_kernel.py:252-269 | while a version stays stored its whole ancestry never changes |
| Supersession.StepLinearIff | migrations/versions/0005_wp11_common_domain_kernel.py:262-268 | for every table in which no two versions supersede the same one: a change keeps it so exactly when it inserts no version above an already superseded one, a guard the code lacks |
| Supersession.LinearThroughoutIff | migrations/versions/0005_wp11_common_domain_kernel.py:262-268 | a table is linear all through a run exactly when every insert of the run met that guard |
| Supersession.SupersededForksAgain | migrations/versions/0005_wp11_common_domain_kernel.py:262-268 | every superseded version can be superseded again by an accepted insert |
| SupportReview.SupportStore.AddGrant | migrations/versions/0007_wp13_support_slice.py:164-175 | a grant is admitted, and reported as admitted, exactly when the workspace is writable, its key is new and its checks hold |
| SupportReview.SupportStore.Decide | migrations/versions/0007_wp13_support_slice.py:522-532 | a review is stored exactly when its human holds an active review grant at the decision time |
| SupportReview.SupportStore.Finalize | migrations/versions/0007_wp13_support_slice.py:533-547 | a finalization is stored exactly when an approved review by another identity and an active finalization grant exist |
| SupportReview.SupportStore.Remove | migrations/versions/0007_wp13_support_slice.py:505-508 | the executor deletes only rows nothing refers to |
| SupportReview.SeparationOfDuty | migrations/versions/0007_wp13_support_slice.py:374-387 | in every reachable store each review is by a person with a stored active review grant valid at the time, and each finalized document was approved by one such person and finalized by another under a different, active finalization grant |
| SupportReview.GrantsKept | migrations/versions/0007_wp13_support_slice.py:164-175 | a grant is stored exactly when the workspace is writable, its key is new and the tables with it keep every promise on grants, reviews and finalizations |
| SupportReview.ReviewsKept | migrations/versions/0007_wp13_support_slice.py:522-532 | likewise a review: a person, under a grant to that person for document review, active and valid at the decision |
| SupportReview.FinalsKept | migrations/versions/0007_wp13_support_slice.py:533-547 | likewise a finalization: an approved review by another person, and a grant to the finalizer, active and valid |
| SupportReview.DeletesKept | migrations/versions/0007_wp13_support_slice.py:505-508 | the executor deletes an unpinned row exactly when the promises hold without it |
| SupportReview.AccountabilityKeptInRun | migrations/versions/0007_wp13_support_slice.py:380-387 | over any run in which a finalized version stays stored, its review and both grants stay as they are |
| CorpusSnapshot.CorpusStore.Commit | migrations/versions/0008_wp14_audit_slice.py:617-618 | a transaction adds all its rows and passes every deferred check, or changes nothing |
| CorpusSnapshot.CorpusStore.InsertRows | migrations/versions/0008_wp14_audit_slice.py:617-618 | the rows are added in order, each checked against those before it, or one is refused |
| CorpusSnapshot.CorpusStore.FireDeferred | migrations/versions/0008_wp14_audit_slice.py:617-618 | the deferred checks pass exactly when each header of the transaction passes its own |
| CorpusSnapshot.CorpusStore.VerifyInventory | migrations/versions/0008_wp14_audit_slice.py:536-546 | the trigger accepts exactly the headers whose four counts match and that have a reconciliation; an accepted header under its table checks starts with its counts as lower bounds |
| CorpusSnapshot.CorpusStore.DeleteRow | migrations/versions/0008_wp14_audit_slice.py:499-503 | the executor deletes only rows nothing refers to |
| CorpusSnapshot.CountsExactAtCommit | migrations/versions/0008_wp14_audit_slice.py:536-546 | at the commit that inserts a snapshot its counts equal its memberships |
| CorpusSnapshot.TransactionIff | migrations/versions/0008_wp14_audit_slice.py:536-546 | a transaction takes effect exactly when each row is admitted after those before it and each of its headers has its four counts and a reconciliation in the end |
| CorpusSnapshot.AdmittedIffLawful | migrations/versions/0008_wp14_audit_slice.py:518-525 | a row is admitted exactly when the workspace is writable, its key is free and the tables with it keep every promise: validations, accepted boundaries of documents, headers, memberships |
| CorpusSnapshot.DeletedIffLawful | migrations/versions/0008_wp14_audit_slice.py:499-503 | a stored row is deleted exactly when no other table refers to it and the tables without it keep every promise |
| CorpusSnapshot.AddStores | migrations/versions/0008_wp14_audit_slice.py:499-503 | an insert under a free key adds exactly its row to the tables |
| CorpusSnapshot.RemoveDrops | migrations/versions/0008_wp14_audit_slice.py:499-503 | a delete of a stored row takes exactly this row away |
| CorpusSnapshot.AlwaysLawful | migrations/versions/0008_wp14_audit_slice.py:260-360 | after any transactions and deletes the tables keep every promise |
| CorpusSnapshot.SnapshotAccounting | migrations/versions/0008_wp14_audit_slice.py:304-321 | without executor deletes the counts stay lower bounds and validated <= readable <= expected <= stored pages |
| CorpusSnapshot.ExactWhileUntouched | migrations/versions/0008_wp14_audit_slice.py:322-349 | the counts are still exact exactly when no counted membership of the snapshot was added since |
| CorpusSnapshot.LateMemberBreaksExactness | migrations/versions/0008_wp14_audit_slice.py:336-342 | a page added after the header's transaction is accepted and makes its count short |
| CorpusSnapshot.MembersAreTraced | migrations/versions/0008_wp14_audit_slice.py:518-525 | after any transactions and deletes every stored document and every member document rests on a stored validation with disposition accepted, an authority decision and no failure codes |
| SpreadsheetColumns.ColumnName | tools/build_industrial_intake_synthetic_corpus.py:57-62 | the loop computes the column name of every index from 0 |
| SpreadsheetColumns.LoopEndsIffNotNegative | tools/build_industrial_intake_synthetic_corpus.py:59-60 | the loop ends exactly for indices that are not negative |
| SpreadsheetColumns.ColumnIsBijective | tools/build_industrial_intake_synthetic_corpus.py:57-62 | decoding inverts encoding both ways: indices from 1 and non-empty A-Z names correspond one to one |
| SpreadsheetColumns.ColumnOrder | tools/build_industrial_intake_synthetic_corpus.py:57-62 | a column comes before another exactly when its name is shortlex-smaller |
| SpreadsheetColumns.DecimalValue | tools/build_industrial_intake_synthetic_corpus.py:69-69 | the row part of a reference is the decimal numeral of the row, without a leading zero |
| SpreadsheetColumns.ReferenceInjective | tools/build_industrial_intake_synthetic_corpus.py:69-69 | a cell reference determines its column and row |
| SpreadsheetColumns.SheetReferences | tools/build_industrial_intake_synthetic_corpus.py:65-74 | the references of a sheet are those of their positions and pairwise distinct |
| NativeProvision.FragmentsByPath | tools/run_ntd_native_provision_batch.py:155-161 | the grouped index gives for every path the fragments of the linear scan in the same order, and nothing when absent |
| NativeProvision.MatchingSelects | tools/run_ntd_native_provision_canary.py:42-49 | the scan keeps exactly the fragments of the path, each as often as it occurs |
| NativeProvision.RunBatch | tools/run_ntd_native_provision_batch.py:49-100 | the loops produce the outcome sequence of the batch |
| NativeProvision.RunJob | tools/run_ntd_native_provision_batch.py:64-100 | the loop over one artifact's paths judges each path by its unique match |
| NativeProvision.BatchIsCanaries | tools/run_ntd_native_provision_canary.py:42-60 | one outcome per candidate path, in order: supported with the result of the canary at the same verification time, or blocked for its reason |
| NativeProvision.SummaryConserves | tools/run_ntd_native_provision_batch.py:179-212 | supported and blocked add up to the denominator, blocker counts to blocked, and nothing is blocked exactly when all are supported |
| NativeProvision.BlockerCountsExact | tools/run_ntd_native_provision_batch.py:183-185 | each blocker is counted as often as it blocks and no other key appears |
| NativeProvision.CountsExact | tools/run_ntd_native_provision_batch.py:182-212 | supported and reused outcomes are counted as often as they occur |
| NativeProvision.PayloadDescribes | tools/run_ntd_native_provision_batch.py:186-192 | the hashed payload is the one with an entry for each outcome, in order, with its columns but for reuse |
| NativeProvision.PayloadIgnoresOnlyReuse | tools/run_ntd_native_provision_batch.py:186-198 | two batches hash the same payload exactly when their outcomes differ at most in reuse |
| NativeProvision.ReplayKeepsPayload | tools/run_ntd_native_provision_batch.py:186-205 | a later replay, at another verification time, whose answers differ only in reuse keeps the payload |

## Left out

- Scope check, roles, grants and row-level security: one workspace scope is assumed, and the grants only decide which events exist. Direct inserts into the command, history, revision and outbox tables, which some service roles could make, are not events of the model.
- LifecycleRuns.RunGrows: does not model direct updates of rows outside the immutability list: UPDATE is granted on `lifecycle_commands` (migration 0003, line 897), on `workspace_revisions` and on `workspace_outbox` (migration 0001, lines 578 and 583). A role using them could change a command, a revision row or an outbox event, and with it the answer to a retry.
- Wall clock: times are integers given with each call or row; `CURRENT_TIMESTAMP` is not modelled further.
- Digests, UUIDs, JSON payloads and free text: opaque values; the format checks on digests and the uniqueness of random identifiers are taken for granted, and so is that `deletion_items` is an array of (adapter, item) pairs.
- State names outside the 21 states: a request carries one of them; the code refuses any other name as an invalid transition.
- Legal hold, residual verification, archive import, export item and archive item tables: no gate reads them.
- Material tables: one map of rows stands for all of them; their own keys, references and per-table triggers can only refuse more.
- LifecycleDatabase.Database.WriteMaterial: takes the trigger and the write as one step, although the trigger reads the workspace row without a lock and the write may land after a freeze; `OnlyWritesInFlight` and `ContentFixedIff` take them apart.
- LifecycleContent.FrozenContent: holds of the runs in which trigger and write are one step; with writes in flight `OnlyWritesInFlight` holds instead.
- LifecycleFreshness.RoadToReset: says that a verified archive is stored, not that it belongs to this visit; the archive gate names no version or revision.
- LifecycleWitness.EveryRowPassedItsGate: that the gate's evidence is still stored leaves out two facts that may change after the entry, a later invalidation of an authorization and a later bad receipt for a plan.
- SupportReview.SeparationOfDuty: does not say that the review was of the finalized candidate; the trigger does not compare them.
- References from support and corpus rows to candidates, print validations, objects, page manifests, source versions and rule sets: not part of this model, except that a row of another table may pin a row against deletion.
- The revision check of audit headers and the evidence check of published platform assertions: single-row guards of the same shape as those modelled.
- NativeProvision.RunBatch: qualification, PDF extraction and the database queries are not part of this model; qualification is an arbitrary function of artifact, path, fragment, verification time and number of earlier outcomes, and only its ValueError is modelled.
- NativeProvision.PayloadIgnoresOnlyReuse: canonical JSON and SHA-256 are not modelled; the fingerprint is whatever function of the payload they compute.
- SpreadsheetColumns.SheetReferences: the XML around the references and the cell values are left out.
- Downgrades, network tools, the user interface and the migrations 0006 and 0009 to 0011.
