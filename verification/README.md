# Verified model of the resume assistant's core

A Dafny 4.11 model of the parts of this repository whose correctness is hard to see from the code: the three-way
choice merge of resume snapshots, the lease protocol of the AI run stores, the orchestration loop with its budget,
trace and output checks, the forest of merged user accounts, the span backfill for job requirements, the usage
ledger with its daily limits, the transactional outbox, and the resume editor. `dafny verify dfyconfig.toml` checks
the whole project.

Code that changes things step by step is a method or a class and is proved equal to a specification function or
relation; the promises are then proved about that specification over all inputs, all runs or all reachable states.

| file | what it models |
|---|---|
| `Wrappers.dfy`, `Sequences.dfy` | optional values and results; lists without duplicates, projections, orders |
| `ReconcileOrder.dfy` | the splice loop that interleaves two orders, and exactly when it keeps both |
| `SnapshotMerge.dfy`, `MergeTheorems.dfy` | conflict list and merge of two resume snapshots |
| `RunStore.dfy`, `MemoryRunStore.dfy`, `RedisRunStore.dfy` | both run stores |
| `RunProtocol.dfy`, `StoreAgreement.dfy` | what every run of a store keeps, the simulation between the two, and when their answers differ |
| `StoreLaws.dfy` | what both stores keep of a run: its creation, its receipt, its lease |
| `EventLedger.dfy`, `RunBudget.dfy`, `PiRuntime.dfy`, `Postflight.dfy`, `Workflow.dfy` | one workflow run: trace, budget, runtime call, output validation, the loop |
| `ServedRuns.dfy` | the loop's receipts as the server hands them to a store |
| `Aliases.dfy`, `AccountMerge.dfy`, `AccountDeletion.dfy`, `OwnerTriggers.dfy` | user aliases, account merges and deletions, and the owner tests of the two databases |
| `SpanBackfill.dfy` | first-fit source spans of migration 0015 |
| `UsageLedger.dfy`, `LedgerRuns.dfy` | admission of AI tasks, reservations, the ledger's guard; runs of them with account merges and deletions in between |
| `DailyLimits.dfy`, `DecidedKeys.dfy` | the daily limits and the idempotency keys over these runs |
| `Dispatcher.dfy`, `OutboxRuns.dfy` | the outbox dispatcher and what its runs keep |
| `EditorOperations.dfy`, `EditorReducer.dfy` | the editor's list operations, reducer and undo history |

What the proofs show where code and expectation part ways:

- The truth test on the neighbour found by `reconcileOrder` treats the empty id as no neighbour. The lesser order
  then survives exactly when the two orders agree and the empty id is not the first shared one behind an earlier
  kept one (`SecondaryOrderKeptIff`, with the input of `EmptyKeySpoilsAgreeingOrders`).
- With repeated ids the conflict list compares the local snapshot to what is left of the cloud's when every entry is
  replaced by the last one under its id: the list is empty exactly when the two are equal (`NoConflictsExactly`). So
  a snapshot with a repeated id may conflict with itself, and two different snapshots may show no conflict
  (`NoConflictWithItself`, `RepeatedIdConflictsWithItself`, `RepeatedIdHidesDifference`); no rule of the snapshot's
  shape excludes such input. All choices for one side give that side back up to the same replacement
  (`AllCloudExactly`, `AllLocalExactly`).
- The two run stores answer a call with different statuses exactly in five cases that show in the records before it:
  a create that meets a lapsed lease, a stranger's completion of a lapsed run, a mark-running whose lease does not
  last, the empty id, and a cancel of a run that only one of them has written down as ended (`AnswersPartExactly`,
  with the inputs of `MarkRunningParts` and `CancelParts`).
- An error code of `""` does not survive the Redis hash (`RoundTrip`).
- A deadline that has fired makes the run end as cancelled: the outer catch clause asks the signal first. A timeout
  that the loop itself reports therefore means that time was over (`LoopTimeoutIsOvertime`).
- A limit error that the provider's stream swallows is reported as a timeout, also when the last event met it and all
  events are returned (`RefusalOfLastEvent`); the next preflight then ends the run.
- PostgreSQL's owner test accepts two chains that never end, SQLite's refuses them unless they meet
  (`TestsAgreeExactly`); account merges never make such chains.
- An admission reads the clock once for its creation and again for the day that it looks at. A task that is created
  just before midnight and looked at just after counts on no day that anyone checks: a calendar day can hold twice its
  cost, or a twenty-first task (`MidnightSlip`, `MidnightTask`). Every calendar day keeps its cost limit exactly while
  no admission finds less room on its own day than it takes, which happens only across midnight
  (`CostEachDayThroughout`, `OnlyAcrossMidnight`); with a single reading of the clock the limit always holds
  (`CostEachDayHolds`). What counts since the start of the latest day is within the limit in every run
  (`CostLimitHolds`).
- All cost that is held can pass the limit also by use that is recorded directly when no room is left
  (`HeldEachDayThroughout`, `HeldThroughout`, `DirectUseIsNotLimited`).
- The limit of twenty tasks a day for a user with all aliases fails also when an account merge joins two accounts that
  have more between them, and in no other way (`TasksEachDayThroughout`, `TasksThroughout`, with the input of
  `MergeOverfills`).
- A decided request gets its decision again, and an error for other input, exactly when no merge has brought in a
  record of the same key that says otherwise (`DecidedOnce`, with the input of `MergeSpoilsKey`), as long as the
  account is not deleted.
- The ledger's trigger refuses every deletion, so an account that ever had a row in it cannot be deleted
  (`DeleteAccount`, `AllowedStays`); a refused request can be forgotten with its account (`RefusalForgotten`).
- Splitting a merged pair of bullets gives the pair back only when both are trimmed, not empty and free of
  separators (`SplitUndoesMerge`).

## Model

| member | source | states |
|---|---|---|
| ReconcileOrder.SpliceSecondary | app/web/features/editor/snapshot-merge.ts:188-203 | the find, indexOf and splice loop computes the order that the specification defines by recursion over the secondary order |
| ReconcileOrder.ReconcileOrder | app/web/features/editor/snapshot-merge.ts:183-205 | the result lists the retained entries in that order |
| ReconcileOrder.OrderedKeys | app/web/features/editor/snapshot-merge.ts:188-203 | after any number of turns the list holds exactly the retained ids of the preferred order and of the part of the secondary order seen |
| ReconcileOrder.EachTurn | app/web/features/editor/snapshot-merge.ts:189-203 | each turn of the loop leaves the list alone or inserts its id beside a neighbour: before the next id of the secondary order that is placed, else behind the nearest earlier one, else at the end |
| ReconcileOrder.EachKeptKeyOnce | app/web/features/editor/snapshot-merge.ts:183-205 | when the orders cover the retained ids and the preferred one has no duplicates, every retained id comes out exactly once |
| ReconcileOrder.PreferredOrderKept | app/web/features/editor/snapshot-merge.ts:188-203 | the result restricted to the preferred ids is the preferred order of the retained ones |
| ReconcileOrder.SecondaryOrderKeptIff | app/web/features/editor/snapshot-merge.ts:189-203 | the secondary order survives too exactly when the two agree on shared retained ids and the empty id does not trip the truth test |
| ReconcileOrder.TrapMisplaces | app/web/features/editor/snapshot-merge.ts:193-202 | whenever the empty id is the first shared retained id behind an earlier retained one, the secondary order breaks |
| ReconcileOrder.EmptyKeySpoilsAgreeingOrders | app/web/features/editor/snapshot-merge.ts:193-202 | a concrete pair of agreeing orders that comes out broken |
| SnapshotMerge.PresenceDifferences | app/web/features/editor/snapshot-merge.ts:68-84 | the loop reports exactly the ids that one side has: those of the cloud in its order, then those of the local side in its order |
| SnapshotMerge.ContentConflicts | app/web/features/editor/snapshot-merge.ts:151-169 | the loop reports a text conflict, or a fact conflict under equal text, for each shared bullet that differs |
| SnapshotMerge.ConflictsOfSection | app/web/features/editor/snapshot-merge.ts:97-170 | the conflicts of one shared section in the code's order |
| SnapshotMerge.ConflictsInSharedSections | app/web/features/editor/snapshot-merge.ts:97-170 | the conflicts of all shared sections |
| SnapshotMerge.ResumeSnapshotConflicts | app/web/features/editor/snapshot-merge.ts:40-172 | the whole conflict list |
| SnapshotMerge.DifferenceIsListed | app/web/features/editor/snapshot-merge.ts:40-172 | every difference is listed, whatever the ids |
| SnapshotMerge.ListedIsDifference | app/web/features/editor/snapshot-merge.ts:40-172 | with unique local ids nothing but a difference is listed |
| SnapshotMerge.RetainBullet | app/web/features/editor/snapshot-merge.ts:224-239 | one bullet: kept, dropped, or the missing choice that stops it is a difference of the section |
| SnapshotMerge.RetainBullets | app/web/features/editor/snapshot-merge.ts:221-239 | the map of kept bullets |
| SnapshotMerge.MergeSection | app/web/features/editor/snapshot-merge.ts:207-256 | the merged section, or a missing choice for a difference inside it |
| SnapshotMerge.RetainSection | app/web/features/editor/snapshot-merge.ts:276-286 | one section: merged, kept, dropped, or a missing choice |
| SnapshotMerge.RetainSections | app/web/features/editor/snapshot-merge.ts:273-286 | the map of kept sections |
| SnapshotMerge.MergeUnchecked | app/web/features/editor/snapshot-merge.ts:265-303 | everything after the opening loop: any `chosen` that throws asks about a difference; its result is the specified one, whose places each follow their own choice (`MergedFollowsChoices`) |
| SnapshotMerge.MergeResumeSnapshots | app/web/features/editor/snapshot-merge.ts:258-303 | succeeds exactly when every listed conflict has a choice, so no later `chosen` throws, and otherwise names the first without one; in the result each place has the side that its own id was given: title, target, each section's title and type, each shared bullet as a whole, each presence and each order |
| SnapshotMerge.MergedFollowsChoices | app/web/features/editor/snapshot-merge.ts:207-303 | for any choices that cover the differences, each place of the merged snapshot has the side chosen for its own id, and equal places have the common value |
| MergeTheorems.NoConflictsExactly | app/web/features/editor/snapshot-merge.ts:40-172 | for any two snapshots the list is empty exactly when the local one is the cloud one with every entry replaced by the last under its id |
| MergeTheorems.NoConflictWithItself | app/web/features/editor/snapshot-merge.ts:40-172 | a snapshot has no conflict with itself exactly when that replacement leaves it as it is |
| MergeTheorems.NoConflictsIffEqual | app/web/features/editor/snapshot-merge.ts:40-172 | with unique cloud ids the list is empty exactly when the snapshots are equal |
| MergeTheorems.ListedAreTheDifferences | app/web/features/editor/snapshot-merge.ts:40-172 | the listed ids are exactly the differences |
| MergeTheorems.ListAscends | app/web/features/editor/snapshot-merge.ts:40-172 | title and target come first in the list, then the presences and the order of the sections, then what is inside them |
| MergeTheorems.SectionListAscends | app/web/features/editor/snapshot-merge.ts:100-170 | inside a section: title, type, presences, order, then the contents of its bullets |
| MergeTheorems.SectionsInLocalOrder | app/web/features/editor/snapshot-merge.ts:97-170 | the conflicts of the shared sections come in the order of the local snapshot |
| MergeTheorems.BulletsInLocalOrder | app/web/features/editor/snapshot-merge.ts:151-169 | and those of the bullets' contents in the order of the local section |
| MergeTheorems.DependsOnListedOnly | app/web/features/editor/snapshot-merge.ts:263-303 | two sets of choices that agree on the listed ids merge alike |
| MergeTheorems.OnlyItsPlace | app/web/features/editor/snapshot-merge.ts:258-303 | over all choices: deciding one id anew changes the merged snapshot at most in the place that the id names |
| MergeTheorems.OnlyItsPlaceInSection | app/web/features/editor/snapshot-merge.ts:207-256 | the same inside a shared section: title, type, order, one bullet |
| MergeTheorems.MergeSymmetric | app/web/features/editor/snapshot-merge.ts:207-303 | swapping the sides and all choices gives the same merge |
| MergeTheorems.AllCloudExactly | app/web/features/editor/snapshot-merge.ts:207-303 | cloud for every conflict gives, for any ids, the cloud snapshot with every entry replaced by the last under its id, bullets only in sections that both sides have |
| MergeTheorems.AllCloudIsCloud | app/web/features/editor/snapshot-merge.ts:207-303 | with unique cloud ids that is the cloud snapshot: content, orders, fact references |
| MergeTheorems.AllLocalExactly | app/web/features/editor/snapshot-merge.ts:207-303 | the same for local choices and the local snapshot |
| MergeTheorems.AllLocalIsLocal | app/web/features/editor/snapshot-merge.ts:207-303 | with unique local ids local for every conflict gives the local snapshot |
| MergeTheorems.BulletsComeWhole | app/web/features/editor/snapshot-merge.ts:227-238 | every merged bullet is, text with its own fact references, a bullet of the same section on one side |
| MergeTheorems.SectionsKept | app/web/features/editor/snapshot-merge.ts:271-286 | the sections kept are the shared ones and those their presence choice keeps, each once |
| MergeTheorems.BulletsKept | app/web/features/editor/snapshot-merge.ts:219-239 | the same for the bullets of a shared section |
| MergeTheorems.MergeKeepsUniqueIds | app/web/features/editor/snapshot-merge.ts:258-303 | the merge of snapshots with unique ids has unique ids |
| MergeTheorems.SectionOrdersKept | app/web/features/editor/snapshot-merge.ts:288-299 | the chosen section order survives; the other one exactly when it can |
| MergeTheorems.BulletOrdersKept | app/web/features/editor/snapshot-merge.ts:241-252 | the same for the bullets of a shared section |
| MergeTheorems.RepeatedIdConflictsWithItself | app/web/features/editor/snapshot-merge.ts:117-169 | with a repeated bullet id a snapshot conflicts with itself |
| MergeTheorems.RepeatedIdHidesDifference | app/web/features/editor/snapshot-merge.ts:117-169 | with a repeated bullet id two different snapshots may have no conflict |
| RunStore.TerminalReceiptClosed | packages/ai/src/server/run-store.ts:81-132 | a rewritten receipt has the given status and error code, keeps the earlier events, stays numbered from 1, ends with the event of its status, which it adds only when it is missing, and has a result only when it succeeded with one |
| MemoryRunStore.MemoryRunStore.constructor | packages/ai/src/server/memory-run-store.ts:22-28 | a new store is empty |
| MemoryRunStore.MemoryRunStore.CreateOrGet | packages/ai/src/server/memory-run-store.ts:34-45 | new state and reply of a create: stored as given, or found as existing exactly when the input hash is the same |
| MemoryRunStore.MemoryRunStore.Get | packages/ai/src/server/memory-run-store.ts:47-51 | new state and reply of a read, which expires a lapsed lease |
| MemoryRunStore.MemoryRunStore.MarkRunning | packages/ai/src/server/memory-run-store.ts:53-62 | new state and reply of mark-running: a live run is running with a lease of `leaseMs` from now |
| MemoryRunStore.MemoryRunStore.Heartbeat | packages/ai/src/server/memory-run-store.ts:64-76 | new state and reply of a heartbeat: answered exactly for the owner of an unfinished run under a live lease, which then lasts `leaseMs` from now |
| MemoryRunStore.MemoryRunStore.Complete | packages/ai/src/server/memory-run-store.ts:78-115 | new state and reply of a completion: owner fencing, lapsed lease, cancel wins; the receipt is kept as `StoreLaws.ReceiptKept` says |
| MemoryRunStore.MemoryRunStore.RequestCancel | packages/ai/src/server/memory-run-store.ts:117-133 | new state and reply of a cancel request, which names the owner |
| MemoryRunStore.MemoryRunStore.ExpireOwnerLease | packages/ai/src/server/memory-run-store.ts:154-170 | a lapsed unfinished run becomes failed with its owner lost, everything else stays |
| RedisRunStore.RoundTrip | packages/ai/src/server/redis-run-store.ts:404-418 | a record survives the hash exactly when its error code is not the empty string |
| RedisRunStore.RedisRunStore.CreateOrGet | packages/ai/src/server/redis-run-store.ts:59-78 | the create script and the read after it |
| RedisRunStore.RedisRunStore.MarkRunningScript | packages/ai/src/server/redis-run-store.ts:80-101 | the script's effect on the hash |
| RedisRunStore.RedisRunStore.ExpireOwnerScript | packages/ai/src/server/redis-run-store.ts:103-118 | the script's effect on the hash |
| RedisRunStore.RedisRunStore.Heartbeat | packages/ai/src/server/redis-run-store.ts:120-142 | new state and reply of the heartbeat script |
| RedisRunStore.RedisRunStore.RequestCancel | packages/ai/src/server/redis-run-store.ts:144-155 | new state and reply of the cancel script |
| RedisRunStore.RedisRunStore.CompleteScript | packages/ai/src/server/redis-run-store.ts:157-184 | the script's effect on the hash |
| RedisRunStore.RedisRunStore.Get | packages/ai/src/server/redis-run-store.ts:260-275 | expires, then reads |
| RedisRunStore.RedisRunStore.MarkRunning | packages/ai/src/server/redis-run-store.ts:277-292 | marks, then reads |
| RedisRunStore.RedisRunStore.Complete | packages/ai/src/server/redis-run-store.ts:308-347 | completes, then reads |
| RunProtocol.StepKeeps | packages/ai/src/server/memory-run-store.ts:34-133 | one operation never removes a run, changes its owner or input, changes a terminal record, or takes back a cancel |
| RunProtocol.StepEnds | packages/ai/src/server/memory-run-store.ts:78-115 | only a completion by the owner under a live lease ends a run succeeded or cancelled, and never succeeded once cancelled |
| RunProtocol.TerminalForever | packages/ai/src/server/memory-run-store.ts:34-133 | over whole runs a terminal record never changes again |
| RunProtocol.CreatedOnce | packages/ai/src/server/memory-run-store.ts:34-45 | over whole runs each id is answered created at most once |
| RunProtocol.CancelWins | packages/ai/src/server/memory-run-store.ts:78-133 | after an accepted cancel request the run never ends succeeded in the memory store |
| RunProtocol.OnlyLiveOwnerEnds | packages/ai/src/server/memory-run-store.ts:78-115 | a run that ended succeeded or cancelled was completed by its owner under a live lease |
| RunProtocol.LapsedForever | packages/ai/src/server/memory-run-store.ts:154-170 | once a lease lapsed the memory store answers no heartbeat, and every later get or mark-running reports the owner as lost |
| RunProtocol.ReceiptsMatch | packages/ai/src/server/run-store.ts:81-132 | in every reachable state of either store an ended run has a numbered receipt that ends as its status says |
| RunProtocol.Simulation | packages/ai/src/server/redis-run-store.ts:59-184 | driven by one trace the two stores stay related: same runs, same effective status |
| StoreAgreement.AnswersPartExactly | packages/ai/src/server/redis-run-store.ts:234-375 | after any trace the two stores answer a call with the same status exactly unless the records before it show one of five cases: lapsed at a create, lapsed and completed by a stranger, marked running by a lease that does not last, found under the empty id, cancelled while ended in one store only |
| StoreAgreement.MarkRunningParts | packages/ai/src/server/redis-run-store.ts:80-101 | a new run, marked running with a lease of no length: running in one store, failed in the other |
| StoreAgreement.CancelsAgreeExactly | packages/ai/src/server/redis-run-store.ts:144-155 | the whole answers to a cancel agree exactly when both stores or neither have the run as ended and an unfinished run names its owner |
| StoreAgreement.CancelParts | packages/ai/src/server/memory-run-store.ts:117-133 | a lapsed run, created once more and then cancelled: accepted by one store, ended in the other |
| StoreAgreement.SameStatusThroughGet | packages/ai/src/server/redis-run-store.ts:260-275 | every read at any later time reports the same status from both stores |
| StoreAgreement.SameControlReplies | packages/ai/src/server/redis-run-store.ts:59-142 | both agree on who created a run and on every heartbeat |
| StoreAgreement.RedisCancelWins | packages/ai/src/server/redis-run-store.ts:144-184 | after an accepted cancel request the run never ends succeeded in the Redis store |
| StoreAgreement.RedisOnlyLiveOwnerEnds | packages/ai/src/server/redis-run-store.ts:157-184 | a run that the Redis store has succeeded or cancelled was completed there by its owner under a live lease |
| StoreAgreement.RedisLapsedForever | packages/ai/src/server/redis-run-store.ts:80-142 | once a lease lapsed the Redis store answers no heartbeat, and every later create, get, mark-running or completion reports a failed run |
| StoreLaws.ReceiptKept | packages/ai/src/server/memory-run-store.ts:78-115 | over whole runs of the memory store: once its owner has completed an unfinished run, every later read answers the given status, exactly the given receipt and its error code; a success that a cancel overrides, or a lapsed lease, leaves a receipt without result that begins with the given events and ends with the cancel or the failure |
| StoreLaws.RedisReceiptKept | packages/ai/src/server/redis-run-store.ts:157-184 | the same of the Redis store, with the error code that the call was given |
| StoreLaws.RedisTerminalForever | packages/ai/src/server/redis-run-store.ts:59-184 | over whole runs a terminal hash never changes again |
| StoreLaws.RenewalLasts | packages/ai/src/server/memory-run-store.ts:53-76 | in both stores: after an answered heartbeat or mark-running the owner's next one is answered exactly when it comes within `leaseMs`, whatever is read, cancelled, created or tried by others in between |
| StoreLaws.FirstLeaseLasts | packages/ai/src/server/memory-run-store.ts:34-76 | the same of the lease that a run is created with |
| StoreLaws.CreationRemembered | packages/ai/src/server/memory-run-store.ts:34-45 | in both stores: every later create under the id is answered existing exactly for the same input, and an accepted cancel names the owner that created the run |
| EventLedger.EventLedger.Append | packages/ai/src/tracing/event-ledger.ts:272-293 | one event with the next number is appended |
| EventLedger.EventLedger.AppendPiEvent | packages/ai/src/tracing/event-ledger.ts:295-362 | a provider event becomes one trace event of the type that a table by its name says, the first delta as the first token; usage is added, counter by counter, from closing events only; a cost out of range is refused without an event |
| RunBudget.RunBudget.PreflightAttempt | packages/ai/src/workflows/run-budget.ts:43-59 | passes exactly with fewer than four turns and six tools, tokens below 12,000 and cost below the limit; names the first limit that is spent |
| RunBudget.RunBudget.SetCostLimit | packages/ai/src/workflows/run-budget.ts:60-65 | the limit in force becomes the lesser of the two and never loosens |
| RunBudget.RunBudget.ReserveTurn | packages/ai/src/workflows/run-budget.ts:66-71 | at most four turns |
| RunBudget.RunBudget.ReserveTool | packages/ai/src/workflows/run-budget.ts:72-77 | at most six tools |
| RunBudget.RunBudget.PreflightProvider | packages/ai/src/workflows/run-budget.ts:78-119 | passes exactly when tools, tokens and cost leave room for the worst case of the request, and sets the route's limit; which error when not |
| RunBudget.RunBudget.RecordPiEvent | packages/ai/src/workflows/run-budget.ts:120-141 | each turn_start counts one turn and each tool_execution_start one tool, refused at the fifth and the seventh; tokens and cost of a closing event are taken in even when it throws, and then the next preflight refuses |
| Postflight.CheckRefs | packages/ai/src/workflows/postflight.ts:45-54 | one failure for each reference that is not allowed, in order |
| Postflight.IntakeFailures | packages/ai/src/workflows/postflight.ts:67-84 | the loop lists one failure for each candidate of another answer and each range outside the answer, then one for each unknown fact of the question |
| Postflight.ComposeFailures | packages/ai/src/workflows/postflight.ts:85-101 | one failure for each section type or cited fact that is not allowed, in order |
| Postflight.ParseFailures | packages/ai/src/workflows/postflight.ts:102-116 | one failure for each category or range that is not valid, in order |
| Postflight.MatchFailures | packages/ai/src/workflows/postflight.ts:117-130 | one failure for each unknown or repeated requirement, missing requirement or unconfirmed fact, in order |
| Postflight.PermutationOfRequirements | packages/ai/src/workflows/postflight.ts:120-128 | no repeat, only known ids and the right count is the same as being a permutation (pigeonhole) |
| Postflight.SourceFailures | packages/ai/src/workflows/postflight.ts:131-174 | the failures of the sources, one by one |
| Postflight.SuggestionFailures | packages/ai/src/workflows/postflight.ts:131-174 | the failures of the suggestions, one by one |
| Postflight.SuggestFailures | packages/ai/src/workflows/postflight.ts:131-174 | the failures of the sources, then those of the suggestions |
| Postflight.NoFeedbackExactly | packages/ai/src/workflows/postflight.ts:64-177 | for every workflow that list is empty exactly when all references, types, categories and ranges are the input's and, for a match, the requirements are a permutation of the confirmed ones |
| Postflight.AcceptableExactly | packages/ai/src/workflows/postflight.ts:64-182 | the same written out for each workflow from the input's own ids, types, categories and ranges; of suggestion sources with one key the last counts |
| Postflight.FirstFailureIs | packages/ai/src/workflows/postflight.ts:64-177 | which failure comes first, and so which error a rejected run ends with: of the first wrong candidate, section or requirement its reference or type before its range, in the other workflows an unknown reference before the coverage |
| Postflight.RefFeedbackCounts | packages/ai/src/workflows/postflight.ts:45-54 | each reference that is not allowed is reported once |
| Postflight.ReferenceFeedback | packages/ai/src/workflows/postflight.ts:64-177 | the first twenty failures; cutting the list never turns a rejection into an acceptance |
| Postflight.ValidateRuntimeOutput | packages/ai/src/workflows/postflight.ts:179-182 | accepts exactly the outputs of the right shape with confirmed references; reports at most twenty failures, the deciding one first |
| PiRuntime.Stream | packages/ai/src/workflows/pi-runtime.ts:108-112 | every event is kept and then recorded; the first refused record ends the stream with a limit spent; turns and tools grow by the starts among the recorded events |
| PiRuntime.RunStructured | packages/ai/src/workflows/pi-runtime.ts:71-144 | exactly when a call throws, and how it ends when it returns; that the budget took in exactly the returned events, with one turn for the call and one for each turn start, one tool for each tool start; whether the budget refused one of them, at the last event or before, which is then reported as a timeout and leaves a spent limit behind |
| PiRuntime.AdmittedExactly | packages/ai/src/workflows/pi-runtime.ts:71-107 | a call gets as far as its stream exactly when there is a route and every limit leaves room for the worst case of its request |
| PiRuntime.RefusalOfLastEvent | packages/ai/src/workflows/pi-runtime.ts:108-144 | a single event that the budget refuses is returned all the same: the refusal does not show in the events |
| Workflow.AbsorbEvents | packages/ai/src/workflows/run-workflow.ts:227-236 | ledger and budget grow by the same tokens and cost, whoever recorded the events; the signals are read before each event; the trace grows by exactly the types of the events taken in |
| Workflow.CallRuntime | packages/ai/src/workflows/run-workflow.ts:190-218 | what the call and its catch clause do: the result returned, cancelled, thrown on for a stated reason, or a provider failure without events for any unknown error |
| Workflow.ReadSignal | packages/ai/src/workflows/run-workflow.ts:154-166 | the loop goes on exactly when neither signal has fired and time is left; it is cancelled exactly when the user has aborted, so a timeout is thrown only when the user has not |
| Workflow.TakeResult | packages/ai/src/workflows/run-workflow.ts:221-236 | the signal, the route's cost limit and the events after a call |
| Workflow.TryAttempt | packages/ai/src/workflows/run-workflow.ts:185-236 | one attempt keeps ledger and budget level, tightens limits only, and is not begun with a spent limit; one whose own stream met a limit does not succeed and leaves a spent limit behind |
| Workflow.AfterFailure | packages/ai/src/workflows/run-workflow.ts:246-287 | which allowance each kind of failure uses, and the error when none is left |
| Workflow.AfterOutput | packages/ai/src/workflows/run-workflow.ts:289-312 | an acceptable output succeeds; another is corrected once, then fails with the error that its first failure names |
| Workflow.Decide | packages/ai/src/workflows/run-workflow.ts:237-312 | the decision after a result, that the open retry is closed first, and the mark that the result leaves in the trace |
| Workflow.AllowanceSpent | packages/ai/src/workflows/run-workflow.ts:246-312 | every way round the loop spends one of three one-shot allowances and begins a new phase |
| Workflow.AtMostFour | packages/ai/src/workflows/run-workflow.ts:170-182 | four phases, none twice, so at most four attempts |
| Workflow.CancelledRun | packages/ai/src/workflows/run-workflow.ts:148-153 | a cancelled receipt is numbered and ends in the cancel event |
| Workflow.Caught | packages/ai/src/workflows/run-workflow.ts:322-331 | the outer catch clause: cancelled when a signal has fired, otherwise failed with the error's code |
| Workflow.Interrupted | packages/ai/src/workflows/run-workflow.ts:322-331 | an attempt that was cancelled or threw ends the run with a sound receipt that carries its error |
| Workflow.Stopped | packages/ai/src/workflows/run-workflow.ts:322-331 | the same with other exceptions: raised, unless a signal has fired |
| Workflow.ReplaysOn | packages/ai/src/workflows/run-workflow.ts:184-321 | each further attempt is the one that the last result led to |
| Workflow.SettledGrows | packages/ai/src/workflows/run-workflow.ts:224-236 | from attempt to attempt the ledger's totals equal the budget's and the sum over all attempts |
| Workflow.BudgetsGrow | packages/ai/src/workflows/run-workflow.ts:219-236 | each attempt is given the budget that the one before left |
| Workflow.CountsGrow | packages/ai/src/workflows/run-workflow.ts:99-102 | from attempt to attempt the budget's turns and tools are those that the events start, and one turn for each call that does its own bookkeeping |
| Workflow.ReasonsGiven | packages/ai/src/workflows/run-workflow.ts:246-312 | over every run each attempt has its reason: a correction follows an output that does not parse or pass, a retry a provider failure of the first route, a fallback a timeout there or a provider failure with no retry left; and a run fails by decision only when nothing is left that could make up for its last result |
| Workflow.DecisionShows | packages/ai/src/workflows/run-workflow.ts:47-58 | the error code for each kind of last result, written out: schema or reference, runtime, timeout, route, or the limit that was met |
| Workflow.ToldGrows | packages/ai/src/workflows/run-workflow.ts:167-321 | each attempt adds to the history the events of its provider, the end of the retry if it was one, and the mark of its result |
| Workflow.TracedOneMore | packages/ai/src/workflows/run-workflow.ts:227-236 | each provider event adds one entry to the trace, under its type |
| Workflow.SuccessFacts | packages/ai/src/workflows/run-workflow.ts:314-321 | a succeeded run kept every limit ever set, accounts for all tokens and cost, has an acceptable output and no retry left open |
| Workflow.NotCancelledNeverAborted | packages/ai/src/workflows/run-workflow.ts:154-165 | a run that is not cancelled never read a fired signal |
| Workflow.LoopTimeoutIsOvertime | packages/ai/src/workflows/run-workflow.ts:154-166 | a run that fails for a timeout of the loop's own ran out of time and met no fired deadline |
| Workflow.RunWorkflow | packages/ai/src/workflows/run-workflow.ts:60-334 | ends after at most four calls. The attempts replay the decisions one by one, each with its reason and with the budget that the last one left; the turn and tool counters of a succeeded run equal the turns and tool calls of all attempts and are at most 4 and 6; it succeeds exactly when the last result is accepted, and fails with the error code of the last result, for a timeout read last, for a limit that the final budget or the refused call shows, or for the runtime's own error. The receipt's trace is exactly the history of the run, type by type, from its opening to its end; the signals were read around each call and before each event. Every receipt is numbered and ends as its status says; whenever a last result decides, the ledger's token and cost totals are those of the final budget; an attempt whose stream met a limit, at the last event or before, is the last |
| ServedRuns.ServedReceiptsMatch | packages/ai/src/server/app.ts:236-301 | however the server drives either store, each ended run's receipt is gapless and ends as its status says |
| Aliases.CanonicalUserId | packages/api/app/db/ownership.py:7-16 | returns the end of the chain, and raises exactly when the chain has none |
| Aliases.CycleHasNoEnd | packages/api/app/db/ownership.py:9-16 | a chain that meets itself never ends |
| Aliases.AuthorizedOwnerIds | packages/api/app/db/ownership.py:19-36 | exactly the users with the same canonical user, that one first, the rest sorted and without duplicates; the frontier loop ends |
| Aliases.ClassIsSameRoot | packages/api/app/db/ownership.py:19-36 | being among the owners is having the same canonical user |
| AccountMerge.Accounts.MergeUsers | packages/api/app/db/task3_repositories.py:281-311 | commits exactly when the target's chain ends and source and canonical target are two users, the source no alias yet; then the source is an alias of the canonical target, which owns its rows, otherwise nothing changes |
| AccountMerge.Handover | packages/api/app/db/task3_repositories.py:297-302 | the rows of the source, and no others, change hands |
| AccountMerge.RootAfterMerge | packages/api/app/db/task3_repositories.py:289-296 | a merge changes the canonical user of the source's class only, to the target's root |
| AccountMerge.ClassAfterMerge | packages/api/app/db/ownership.py:19-36 | after a merge the target's class is the union of the two, every other class is unchanged |
| AccountMerge.MergesKeepForest | packages/api/app/db/models.py:76-92 | no sequence of merges makes a chain without an end |
| AccountMerge.CanonicalNeverRaises | packages/api/app/db/ownership.py:7-16 | from an empty alias table the canonical user is always found |
| AccountMerge.SameRootStays | packages/api/app/db/task3_repositories.py:281-311 | users who share a canonical user keep sharing it |
| AccountMerge.RowsFollowTheirOwner | packages/api/app/db/task3_repositories.py:297-307 | after a merge every row belongs to the canonical user of its former owner, and none to an alias |
| AccountDeletion.PrivateData.DeleteAccount | packages/api/app/modules/privacy/worker.py:121-211 | commits exactly when no alias of the user has a row in the ledger; then the records, aliases and users of the account go, but for the canonical user, otherwise nothing changes |
| AccountDeletion.RootAfterDeletion | packages/api/app/modules/privacy/worker.py:189-193 | every removed user is canonical by itself, every other one keeps its canonical user |
| AccountDeletion.ClassAfterDeletion | packages/api/app/modules/privacy/worker.py:189-193 | the deleted account falls apart, every other class stays |
| OwnerTriggers.OwnerChainIsUp | packages/api/migrations/versions/0002_resume_heads_and_fact_status.py:535-540 | the recursive query finds exactly the users on the chain, also on a cycle |
| OwnerTriggers.CanonicalOwnerIsRoot | packages/api/migrations/versions/0002_resume_heads_and_fact_status.py:531-548 | PostgreSQL's function and the Python one agree on every table |
| OwnerTriggers.TestsAgreeExactly | packages/api/migrations/versions/0002_resume_heads_and_fact_status.py:443-575 | on any table the two tests differ exactly on two endless chains that do not meet |
| OwnerTriggers.TriggersAgreeOn | packages/api/app/db/models.py:1320-1464 | on any table without an endless chain both databases accept the same resume and bullet rows |
| OwnerTriggers.AcceptedExactly | packages/api/app/db/models.py:1320-1464 | there both accept a row exactly when everything it refers to belongs to the canonical owner of the row |
| OwnerTriggers.TriggersAgree | packages/api/app/db/models.py:1320-1464 | so they do on every alias table that merges can reach |
| OwnerTriggers.CyclesTellThemApart | packages/api/migrations/versions/0002_resume_heads_and_fact_status.py:531-575 | two pairs of mutual aliases tell the tests apart |
| OwnerTriggers.AcceptedStaysAccepted | packages/api/app/db/models.py:1320-1464 | a row that either database accepted is accepted by it after any later merges |
| SpanBackfill.FirstFit | packages/api/migrations/versions/0015_jd_provenance.py:63-76 | the scan finds the leftmost occurrence apart from all used spans, and ends |
| SpanBackfill.FirstFitIsNext | packages/api/migrations/versions/0015_jd_provenance.py:63-76 | first fit from the left is the leftmost occurrence after the last span given |
| SpanBackfill.Backfill | packages/api/migrations/versions/0015_jd_provenance.py:43-107 | every row gets the occurrence of its rank among the rows of its key; fails exactly when a source text is missing |
| SpanBackfill.SourceIsSlice | packages/api/migrations/versions/0015_jd_provenance.py:77-88 | the stored source is the named slice; an explicit one is the requirement's text |
| SpanBackfill.SpansAreApart | packages/api/migrations/versions/0015_jd_provenance.py:54-84 | explicit spans of one job description and text lie one after another and never overlap |
| SpanBackfill.PassedOverIsTaken | packages/api/migrations/versions/0015_jd_provenance.py:62-86 | an occurrence that a row has passed over, for one further right or for none, overlaps the span of an earlier row of the same job description and text |
| SpanBackfill.AsManyAsPossible | packages/api/migrations/versions/0015_jd_provenance.py:62-86 | the number of explicit rows is the lesser of the rows and the greatest number of occurrences without overlap |
| SpanBackfill.RunsOutAtMaximum | packages/api/migrations/versions/0015_jd_provenance.py:63-76 | the leftmost choice runs out exactly at that greatest number |
| SpanBackfill.MaximumExists | packages/api/migrations/versions/0015_jd_provenance.py:63-76 | that greatest number exists for every text that is not empty |
| SpanBackfill.EmptyTextIsExplicit | packages/api/migrations/versions/0015_jd_provenance.py:63-86 | an empty text is marked explicit at the very start |
| UsageLedger.Ledger.AppendAiTask | packages/api/app/db/task3_repositories.py:318-357 | a consumed row of the canonical owner, field by field, or a refusal that changes nothing |
| UsageLedger.Ledger.AdmitAiTask | packages/api/app/db/task3_repositories.py:429-587 | a new key is allowed exactly when held and requested cost are within 100, the held cost and the account's twenty tasks of the day leave room, fewer than two tasks run, and it is no retry from a held cost of 90 on; the reason and wait in each case; a reservation, field by field, exactly when allowed, and the record; a known key gets its recorded answer or the reuse error; when several records answer to a key, the query may find any of them |
| UsageLedger.Ledger.UpdateRow | packages/api/app/db/models.py:1526-1554 | an update passes exactly when it settles a reserved row, consumed with a run or released without one, and changes nothing else but its time |
| UsageLedger.AdmissionCostIsBoth | packages/api/app/db/task3_repositories.py:407-427 | admission cost is reserved plus consumed cost |
| UsageLedger.HeldCostGrows | packages/api/app/db/task3_repositories.py:407-427 | a row counts against the day's cost exactly while it is an AI task reserved or consumed, created since the start of the day |
| UsageLedger.TasksGrow | packages/api/app/db/task3_repositories.py:359-373 | and in the same way against the day's tasks of its owner |
| UsageLedger.GuardConserves | packages/api/app/db/models.py:1526-1554 | a release lowers the total by exactly its row's cost; a settlement keeps it and adds the cost to the day's |
| LedgerRuns.ConsumedNeverFalls | packages/api/app/db/models.py:1526-1567 | over every run the consumed cost since any moment never falls |
| LedgerRuns.SettledForGood | packages/api/app/db/models.py:1526-1567 | over every run a row keeps its place and, once settled, never changes |
| DailyLimits.CostEachDayExactly | packages/api/app/modules/usage/service.py:366-391 | from an admitted cost within 100 on every calendar day a step leaves that exactly by an admission that finds less room on the day of its creation than it takes |
| DailyLimits.OnlyAcrossMidnight | packages/api/app/modules/usage/service.py:380-387 | an admission takes too much of a day only if it was created before the day it has looked at |
| DailyLimits.CostEachDayThroughout | packages/api/app/modules/usage/service.py:366-391 | the admitted cost of every calendar day stays within 100 all through a run exactly when there is no such admission |
| DailyLimits.CostEachDayHolds | packages/api/app/modules/tasks/service.py:1141-1222 | when each creation lies on the day looked at, as with one reading of the clock, it stays within 100 over every run |
| DailyLimits.MidnightSlip | packages/api/app/modules/usage/service.py:380-387 | two requests of 100, the second created just before midnight and checked just after: 200 on the first day, nothing on the second |
| DailyLimits.MidnightTask | packages/api/app/modules/usage/service.py:380-387 | the same with a twenty-first task |
| DailyLimits.HeldEachDayExactly | packages/api/app/db/task3_repositories.py:318-345 | the same iff for all cost that is held, with use that is recorded directly |
| DailyLimits.HeldEachDayThroughout | packages/api/app/db/task3_repositories.py:318-345 | its form for whole runs |
| DailyLimits.TasksEachDayExactly | packages/api/app/db/task3_repositories.py:281-311 | from at most 20 tasks a day for each user with all aliases a step leaves that exactly by an admission that finds its own day full or a merge that joins too many tasks of some day |
| DailyLimits.TasksEachDayThroughout | packages/api/app/db/task3_repositories.py:281-311 | its form for whole runs |
| DailyLimits.CostLimitHolds | packages/api/app/modules/usage/service.py:310-322 | over every run, with any merges and deletions and clocks that need not agree, the admitted cost since the start of the latest day stays within 100 |
| DailyLimits.CostLimitHoldsFromEmpty | packages/api/app/db/task3_repositories.py:487-568 | the same from an empty ledger |
| DailyLimits.HeldExactly | packages/api/app/db/task3_repositories.py:318-345 | since the start of the latest day the held cost passes 100 exactly by direct use for which no room is left |
| DailyLimits.HeldThroughout | packages/api/app/db/task3_repositories.py:318-345 | since the start of the latest day it stays within 100 all through a run exactly when there is no such step |
| DailyLimits.DirectUseIsNotLimited | packages/api/app/db/task3_repositories.py:318-345 | one direct use that passes the limit from an empty ledger |
| DailyLimits.MergeTasksExactly | packages/api/app/db/task3_repositories.py:281-311 | after a merge every user with all aliases is within 20 tasks exactly when the two accounts are together, for any day or period |
| DailyLimits.TasksExactly | packages/api/app/modules/usage/service.py:297-304 | since the start of the latest day a step passes 20 tasks exactly by a merge that joins too many |
| DailyLimits.TasksThroughout | packages/api/app/modules/usage/service.py:297-304 | since the start of the latest day each user with all aliases stays within 20 tasks all through a run exactly when there is no such merge |
| DailyLimits.MergeOverfills | packages/api/app/db/task3_repositories.py:281-311 | two users with twenty tasks each, in rows that the table's keys allow, merged into one with forty |
| DecidedKeys.RepeatsExactly | packages/api/app/db/task3_repositories.py:464-485 | a key that has a record changes nothing, and is always answered with one decision, or an error for other input, exactly when all its records say so |
| DecidedKeys.StepSays | packages/api/app/db/task3_repositories.py:464-485 | a step loses a found key exactly by deleting its account, and spoils its answer exactly by a merge that brings in a record that says otherwise |
| DecidedKeys.DecidedOnce | packages/api/app/db/task3_repositories.py:464-485 | after any run that leaves the account, asked by the user or any alias, a decided key gets its first decision again exactly when its records agreed to begin with and no merge brought in one that says otherwise |
| DecidedKeys.RowKeepsAccount | packages/api/app/db/models.py:1556-1567 | over every run an account with a row in the ledger is never deleted |
| DecidedKeys.AllowedStays | packages/api/app/modules/privacy/worker.py:136-174 | so the account of an allowed request is never deleted |
| DecidedKeys.RunKeepsBacked | packages/api/app/db/task3_repositories.py:514-580 | over every run each record of an allowed request has a row of its owner in the ledger |
| DecidedKeys.RefusalForgotten | packages/api/app/modules/privacy/worker.py:136-174 | a refused request leaves its account deletable, and the deletion makes its key new again |
| DecidedKeys.NewKeySays | packages/api/app/db/task3_repositories.py:464-587 | the record of a new key agrees with its decision |
| DecidedKeys.MergeSpoilsKey | packages/api/app/db/task3_repositories.py:281-311 | two users decide one key for different input; after a merge the second one's own request is refused |
| Dispatcher.OutboxDispatcher.FailExhaustedTask | packages/api/app/workers/dispatcher.py:149-268 | all that a failed task gives back, table by table: its own fields, its unused reservation, the answer, session or job description that it worked on, the snapshot in the row, and one event with the next number; nothing when the task is gone or over |
| Dispatcher.OutboxDispatcher.DispatchLocked | packages/api/app/workers/dispatcher.py:113-147 | nothing for a settled row or one that is not due; otherwise one call and one attempt, then sent, waiting for the doubled delay and jitter, or exhausted with the third |
| Dispatcher.OutboxDispatcher.DispatchTask | packages/api/app/workers/dispatcher.py:73-87 | the look at the first row of the task, or no row |
| Dispatcher.OutboxDispatcher.DispatchPending | packages/api/app/workers/dispatcher.py:89-111 | exactly one call for each of the first `limit` rows that are due at the call and still due when looked at, in the order of the table; each of these rows was tried once and every other row is as before; the result counts the rows newly dispatched |
| Dispatcher.DueRowsRanked | packages/api/app/workers/dispatcher.py:89-107 | the rows selected ascend, the k-th is the k-th that waits, and no waiting row of a rank below the limit is missing |
| Dispatcher.LooksDispatch | packages/api/app/workers/dispatcher.py:108-111 | looking at them one after another makes exactly those calls |
| Dispatcher.FailingGivesBack | packages/api/app/workers/dispatcher.py:149-268 | what failing a task gives back, written out table by table |
| OutboxRuns.RunKeepsSound | packages/api/app/workers/dispatcher.py:113-168 | over every run: attempts equal publish calls and are at most three; never both dispatched and exhausted; an exhausted row's task is absent or terminal |
| OutboxRuns.LooksAreSteps | packages/api/app/workers/dispatcher.py:89-111 | a pending dispatch is a run of single looks |
| OutboxRuns.StepSpends | packages/api/app/workers/dispatcher.py:113-147 | every publish call lowers the attempts left over unsettled rows |
| OutboxRuns.CallsAreBounded | packages/api/app/workers/dispatcher.py:113-147 | in a whole run at most three calls for each row |
| OutboxRuns.SettledForEver | packages/api/app/modules/tasks/service.py:668-691 | a settled row stays, but for snapshots that services drop from its payload, exactly until its owner's account is deleted; its task gets no other row and is never published again |
| OutboxRuns.RunIsWellSpaced | packages/api/app/workers/dispatcher.py:120-141 | over every run the calls for one row are spaced by delays that double |
| OutboxRuns.ExhaustionFreesReservation | packages/api/app/workers/dispatcher.py:171-185 | exhaustion of an unstarted AI task releases its reservation under the guard and lowers the held cost by exactly that |
| OutboxRuns.OtherwiseLedgerIsKept | packages/api/app/workers/dispatcher.py:113-185 | any other look leaves the ledger alone |
| OutboxRuns.RunKeepsNumbers | packages/api/app/modules/tasks/service.py:1387-1410 | whoever appends events, the dispatcher, the service or the creation of the task, and whatever accounts are deleted, those of each task are numbered 1, 2, 3 without a gap |
| EditorOperations.MoveItem | app/web/features/editor/editor-operations.ts:1-7 | the item is at its new place and the others keep their order; nothing outside the list |
| EditorOperations.MovedIsOne | app/web/features/editor/editor-operations.ts:1-7 | that determines the list |
| EditorOperations.MoveBack | app/web/features/editor/editor-operations.ts:1-7 | moving back undoes a move |
| EditorOperations.MovePermutes | app/web/features/editor/editor-operations.ts:1-7 | a move only permutes |
| EditorOperations.PartsAreClean | app/web/features/editor/editor-operations.ts:9-15 | every part of a split is trimmed, not empty and free of separators |
| EditorOperations.SplitUndoesMerge | app/web/features/editor/editor-operations.ts:9-21 | splitting a merged pair gives it back exactly when both bullets are such parts |
| EditorOperations.SplitUndoesJoin | app/web/features/editor/editor-operations.ts:9-15 | a bullet that joins any number of clean texts, with either separator anywhere, is replaced by exactly those texts |
| EditorOperations.PiecesOfJoined | app/web/features/editor/editor-operations.ts:12 | splitting undoes joining, piece by piece |
| EditorOperations.EveryTextIsJoined | app/web/features/editor/editor-operations.ts:12 | and every text is such a join of its pieces |
| EditorOperations.PartsDoNotSplit | app/web/features/editor/editor-operations.ts:9-15 | a part does not split again |
| EditorReducer.Reduce | app/web/features/editor/editor-reducer.ts:70-136 | the state after every kind of action, written out: which bullets of which module change and how, what undo reaches then, which marks are set; everything else stays |
| EditorReducer.EditKeepsModules | app/web/features/editor/editor-reducer.ts:70-113 | an edit only permutes the modules and leaves none without a bullet |
| EditorReducer.ReachableIsConsistent | app/web/features/editor/editor-reducer.ts:48-124 | in every reachable state the content is the snapshot's text, the history has at most twenty entries, and all of it shows the same modules |
| EditorReducer.RunRemembers | app/web/features/editor/editor-reducer.ts:48-57 | k effective edits leave the starting snapshot k places back |
| EditorReducer.UndosRestore | app/web/features/editor/editor-reducer.ts:114-124 | up to twenty effective edits, with any other actions between, are undone by as many undos |
| EditorReducer.UndoReachesTwenty | app/web/features/editor/editor-reducer.ts:48-124 | after twenty effective edits further undos stop at the twentieth snapshot back |

## Left out

- Display texts of conflicts and their labels: only the id of a conflict decides a merge.
- Conflict ids as strings: here they are values, so two ids that read alike when ids contain colons stay apart.
- Clones of bullets, sections and records: values are not shared in the model.
- Redis key expiry after a day, publish and subscribe, and the clock difference between instances; each store operation has one time and each script is one step.
- Receipt contents and error codes when the two stores are compared: they differ by design of the call paths, so only statuses are related.
- Event details, hashes, times of events, provider and model names, prompt texts and the feedback given to the model.
- The shape check of inputs and outputs: an output either has the shape of its workflow or is malformed.
- Rounding of costs: amounts are real numbers.
- Costs and token counts that are not finite: they are read as 0 before they enter the model of ledger and budget; an invalid ledger cost is a negative one.
- Token estimate and price table of the provider: the preflight takes the prompt's tokens and the estimated cost as given.
- The count of running tasks at admission is a parameter: the task service is not part of this model.
- Rows of other tables that refuse an account's deletion: such a deletion is no step of a run.
- All other services' changes of owners.
- Admissions made together with a task have no steps of their own: one under a key that is never used again stands for them.
- Concurrent transactions: merges, admissions and dispatches are whole committed steps; the crash between a publish call and its commit is left out.
- The advisory lock and the transaction modes of the two databases.
- Identifiers made by random generators are parameters.
- SQLite's queries in the metadata that use UNION ALL: on a forest they find the same users, and on a cycle they would not end.
- The editor's text of a snapshot: any text that differs for different snapshots.
- Web and mini-program pages, routing, uploads, exports, the evidence verifier, the model router and the other migrations.
