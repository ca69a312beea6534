# Durable child tasks, approvals and run delivery: a verified model

This project models the parts of ChulkHarness whose guarantees span many operations,
and proves those guarantees.

- **Child tasks** (`src/chulk/children`): a store of tasks with dependencies, a parent
  forest, revisions, leased attempts, cascading blocking, subtree cancellation, crash
  recovery and a completion outbox, used by any number of workers at once.
- **Durable approvals** (`src/chulk/approvals`): a ledger of requests, and the call that
  resumes a run on one of them across two stores.
- **Run delivery** (`src/chulk/_sdk/event_channel.py`): a ticket lock and a bounded
  channel with cancellation.

`dafny verify dfyconfig.toml` checks everything.

## How it is built

| files | what they hold |
|---|---|
| `Basics`, `Redaction`, `ChildModels`, `Transitions` | values, structural redaction, and the pure state machine of `transitions.py` |
| `Tables`, `Listing`, `Protocol` | the tables, listing order, and every transaction as a function on the tables |
| `Cascade` | the blocking traversal on a graph: closure, once each, and when it conflicts |
| `Invariants`, `Growth`, `Steps`, `Transactions` | the joint invariant, what is never lost, and that every transaction keeps both |
| `Runs`, `Footprints`, `Guarantees` | any interleaving of transactions, what one of them may move, and what callers can rely on |
| `Wakeup`, `Cancellation`, `Conflicts`, `Outbox`, `Creation`, `Counterexamples` | the remaining guarantees, and two short runs on which the store falls short |
| `Effects`, `Batches` | what each call answers and writes, field by field, and exactly when it succeeds |
| `Writes`, `Frames`, `ChildTaskStore` | the store as an object that changes its tables in place, proved against `Protocol`; its loops work on rows fetched beforehand |
| `Recovery` | when a recovery, which ends several attempts at once, is rejected |
| `LeaseText` | text order of stored times against time order |
| `Delegation`, `DepthAllowance`, `Supervisor` | what a parent may hand down along a chain, how far a depth allowance reaches, and the worker around one attempt |
| `ApprovalLedger`, `ApprovalStore`, `ApprovalSaga`, `ApprovalCounterexamples` | the ledger as functions, as an object, the crash-prone resume, and two histories on which it falls short |
| `RunGates`, `EventChannel` | the two concurrent objects as state machines |

A run is any sequence of transactions with any arguments and any clock values, so it
stands for any interleaving of any number of workers.  `claim` is two transactions, and
other calls may come between them.  A transaction that raises leaves the tables as they
were.  Times are whole microseconds; `LeaseText` shows that the text SQL compares agrees.

## Where the code falls short of what it is for

The code is modelled as it is.  Each finding has a concrete input and an exact condition.

- A failure cannot be recorded when a cascade reaches a task twice: `_block_dependents`
  updates from rows it read before it recursed.  Input:
  `Counterexamples.FailureCannotBeRecorded`.  Condition: `Conflicts.FinishRaisesExactly`,
  and `Recovery.RecoverRaisesExactly` for recoveries, which are rejected as a whole.
- `request_cancel` does not cascade to dependents outside the cancelled subtree, and
  nothing repairs a PENDING task left behind.  Input:
  `Counterexamples.CancellationStrands`.  Condition: `Wakeup.CancelStrandsExactly`.
- Resuming on one approval decides about a run that waits for another: it lets the run go,
  or ends it.  Inputs: `ApprovalCounterexamples.PendingApprovalBypassed` and
  `PendingApprovalOverruled`.  Conditions: `ApprovalSaga.WronglyReleasedExactly` and
  `WronglyStoppedExactly`.
- A depth allowance binds the immediate children only.  Input:
  `DepthAllowance.GrandparentDepthIgnored`.  Conditions: `DepthAllowance.ExceedsExactly`
  for one request, and `RunDepths` for whole runs.

## Assumptions

- Redacting redacted text changes nothing.  The text rules themselves are abstract.
- A raise inside a connection block takes back every write of the block.
- A uuid is new: the child store counts them, the approval ledger is given one not in use.
- Tasks enter `create` as `delegate` builds them: no attempts, no result, no cancellation.
- An outbox row is unique for its task and revision, an event for its task and revision,
  an attempt for its task and number, and a decision key for its tenant and workspace.

## Model

| member | source | states |
|---|---|---|
| `ChildTaskStores.ChildTaskStore.constructor` | src/chulk/children/store.py:58-72 | a new store has empty tables and keeps the invariants |
| `ChildTaskStores.ChildTaskStore.Create` | src/chulk/children/store.py:91-173 | answer and tables are those of the specified creation: replay under a key, conflict, lineage and dependency errors, or the inserted task with its key and event; nothing changes on an error |
| `ChildTaskStores.ChildTaskStore.ExpireDeadlineIfDue` | src/chulk/children/store.py:881-916 | a READY task at or past its deadline ends with its delivery, event and cascade; every other case leaves the tables alone; a failed cascade is rolled back |
| `ChildTaskStores.ChildTaskStore.StartNextAttempt` | src/chulk/children/store.py:288-373 | the second transaction of a claim: the specified start, or its error with the tables as they were |
| `ChildTaskStores.ChildTaskStore.WriteAttempt` | src/chulk/children/store.py:309-364 | the guarded update writes row, attempt and event together exactly when revision, status, flag and claim columns are as read, and otherwise nothing |
| `ChildTaskStores.ChildTaskStore.ClaimTask` | src/chulk/children/store.py:258-373 | a claim is the deadline transaction followed by the start transaction, with the errors of each |
| `ChildTaskStores.ChildTaskStore.Heartbeat` | src/chulk/children/store.py:401-456 | extends the lease of exactly the running, uncancelled, unexpired attempt the ticket names, in the task row and in its attempt row |
| `ChildTaskStores.ChildTaskStore.AssertAttemptBoundary` | src/chulk/children/store.py:458-466 | a worker may go on exactly while its ticket is on the row, the task runs uncancelled and the lease has not run out; otherwise which error it gets |
| `ChildTaskStores.ChildTaskStore.FinishAttempt` | src/chulk/children/store.py:813-879 | ends the held attempt as specified, a requested cancellation winning over the report, and rolls everything back when the cascade raises |
| `ChildTaskStores.ChildTaskStore.RequestCancel` | src/chulk/children/store.py:519-577 | walks the subtree deepest first and leaves exactly the specified rows flagged or cancelled, answering with the changed tasks in order |
| `ChildTaskStores.ChildTaskStore.Retry` | src/chulk/children/store.py:579-610 | returns a failed, blocked, exhausted or unknown task to the state its dependencies call for |
| `ChildTaskStores.ChildTaskStore.RecoverExpired` | src/chulk/children/store.py:612-663 | works through rows fetched beforehand, and yet ends as if each had been read afresh; one failing cascade rolls all of it back |
| `ChildTaskStores.ChildTaskStore.ClaimDelivery` | src/chulk/children/store.py:665-730 | lapses expired claims and hands out the oldest due row |
| `ChildTaskStores.ChildTaskStore.FinishDelivery` | src/chulk/children/store.py:732-781 | changes exactly the row whose live token is presented |
| `ChildTaskStores.ChildTaskStore.BlockDependents` | src/chulk/children/store.py:1085-1120 | the recursive loop over rows fetched before the recursion equals the traversal studied in `Cascade`, including which stale row makes it raise and with what error |
| `ChildTaskStores.ChildTaskStore.ReadyDependents` | src/chulk/children/store.py:1041-1082 | the loop over fetched rows never raises and readies exactly the freed dependents |
| `ChildTaskStores.ChildTaskStore.RecordEnd` | src/chulk/children/store.py:1205-1321 | row, attempt, delivery, event and cascade of an end add up to one specified row transition followed by the settling of the dependents |
| `ChildTaskStores.ChildTaskStore.UpdateSnapshot` | src/chulk/children/store.py:1205-1247 | writes exactly the row whose revision is the one read, keeps or clears the claim columns, and otherwise raises the revision conflict |
| `ChildTaskStores.ChildTaskStore.TerminalizeAttempt` | src/chulk/children/store.py:1250-1295 | closes the running attempt that was asked for, the newest one by default |
| `ChildTaskStores.ChildTaskStore.InsertDelivery` | src/chulk/children/store.py:1298-1321 | adds a delivery unless that task and revision already has one |
| `Cascade.WalkClosure` | src/chulk/children/store.py:1085-1120 | a cascade that meets no stale row leaves exactly the tasks that cannot be reached from the ended task through blockable dependents |
| `Cascade.WalkEdges` | src/chulk/children/store.py:1092-1120 | each of them is blocked once, for a task it depends on that ended or was blocked before |
| `Cascade.WalkConflict` | src/chulk/children/store.py:1092-1120 | the cascade meets a stale row if and only if some task is listed by a frame on its own first-listed route before the last one |
| `Cascade.OvertakenNeedsRedundantEdge` | src/chulk/children/store.py:1092-1120 | that needs two dependents of one task of which one leads to the other |
| `Cascade.TriangleConflicts` | src/chulk/children/store.py:1092-1120 | the three-task input on which it happens |
| `Cascade.MendedClosure` | src/chulk/children/store.py:1085-1120 | had the loop looked again and skipped changed rows, it would never raise and always block exactly what is reachable |
| `Cascade.WalkIsMended` | src/chulk/children/store.py:1085-1120 | where the loop as it is does not raise, it blocks the same tasks |
| `Steps.BlockDependentsSafe` | src/chulk/children/store.py:1085-1120 | on the tables: exactly the reached tasks become BLOCKED, one revision and one event each, no other row moves, and every invariant is kept |
| `Steps.BlockDependentsConflict` | src/chulk/children/store.py:1239-1247 | on the tables: the cascade raises exactly under the condition of `Cascade.WalkConflict` |
| `Steps.ReadyRowsSafe` | src/chulk/children/store.py:1041-1082 | waking dependents never raises and readies exactly those whose dependencies have all completed |
| `Conflicts.EndRaisesExactly` | src/chulk/children/store.py:1239-1247 | recording an end raises if and only if it is not a completion and the graph below the task is tangled, read off before the call |
| `Conflicts.FinishRaisesExactly` | src/chulk/children/store.py:813-879 | the complete list of reasons for which finishing an attempt raises, in both directions |
| `Cascade.WalksConflictExactly` | src/chulk/children/store.py:625-662 | cascades one after another: one meets a stale row if and only if some task is overtaken below the first start that leads to it |
| `Recovery.RecoverRaisesExactly` | src/chulk/children/store.py:612-663 | recovery raises if and only if some waiting task is overtaken below the first listed expired task that leads to it, read off before the call |
| `Recovery.UntangledRecovers` | src/chulk/children/store.py:612-663 | if no expired task is tangled, recovery succeeds, however the expired tasks share dependents |
| `Recovery.RecoveryStops` | src/chulk/children/store.py:625-662 | a tangle below the first expired task stops the whole recovery, whatever the time |
| `Conflicts.UntangledIsEnough` | src/chulk/children/store.py:1085-1120 | without redundant dependencies among waiting tasks nothing is tangled |
| `Conflicts.TriangleTangles` | src/chulk/children/store.py:1092-1120 | every stored triangle in listing order is tangled |
| `Counterexamples.FailureCannotBeRecorded` | src/chulk/children/store.py:813-879 | a four-call run after which a worker can report a failure at no time |
| `Invariants.AdvanceKeepsInv` | src/chulk/children/store.py:1205-1350 | every row transition of the protocol keeps all invariants: columns and snapshot, dependency order, attempts, dense history, outbox, parallelism |
| `Invariants.InsertKeepsInv` | src/chulk/children/store.py:128-172 | so does inserting a task |
| `Invariants.BeatKeepsInv` | src/chulk/children/store.py:417-455 | so does a heartbeat |
| `Invariants.DeliveryKeepsOutbox` | src/chulk/children/models.py:475-485 | claim fields of a delivery are present exactly when it is CLAIMED, and tokens in use are below the supply |
| `Growth.AdvanceGrows` | src/chulk/children/store.py:1205-1350 | and it loses nothing: rows, work, history, closed attempts, final statuses and delivered rows stay, new claims carry new tokens |
| `Transactions.CreateSafe` | src/chulk/children/store.py:91-173 | creation keeps the invariants, and the tables only grow |
| `Transactions.ExpireDeadlineSafe` | src/chulk/children/store.py:881-916 | so does an expired deadline |
| `Transactions.StartSafe` | src/chulk/children/store.py:285-364 | so does the start of an attempt |
| `Transactions.HeartbeatSafe` | src/chulk/children/store.py:401-456 | so does a heartbeat |
| `Transactions.FinishSafe` | src/chulk/children/store.py:813-879 | so does finishing an attempt |
| `Transactions.RequestCancelSafe` | src/chulk/children/store.py:519-577 | so does a cancellation, which flags or ends exactly the live tasks of the subtree |
| `Transactions.RetrySafe` | src/chulk/children/store.py:579-610 | so does a retry |
| `Transactions.RecoverExpiredSafe` | src/chulk/children/store.py:612-663 | so does a recovery |
| `Transactions.ClaimDeliverySafe` | src/chulk/children/store.py:665-730 | so does claiming a delivery |
| `Transactions.FinishDeliverySafe` | src/chulk/children/store.py:732-781 | so does finishing one |
| `Runs.StepSafe` | src/chulk/children/store.py:91-781 | any one transaction keeps every invariant, and the tables only grow |
| `Runs.RunSafe` | src/chulk/children/store.py:91-781 | so does any interleaving of any length, by any workers at any times |
| `Runs.ReachableGood` | src/chulk/children/store.py:91-781 | every invariant holds in every state reachable from the empty store |
| `Footprints.StepMoves` | src/chulk/children/transitions.py:15-174 | in one transaction each task moves at most once, along an edge of the state machine, and only a retried task goes back |
| `Footprints.EndHasShape` | src/chulk/children/store.py:847-878 | an end moves no task but the ended one and those it frees or blocks, and forgets none that waits for it |
| `Footprints.FinishShape` | src/chulk/children/store.py:813-879 | which row a finish ends and as what, with everything it does to other tasks |
| `Footprints.ExpireShape` | src/chulk/children/store.py:881-916 | the same for a deadline |
| `Footprints.StartShape` | src/chulk/children/store.py:304-331 | a start moves one READY task to RUNNING and nothing else |
| `Footprints.RetryShape` | src/chulk/children/store.py:579-610 | a retried task loses result, reason and completion, and is READY, PENDING or BLOCKED as its dependencies stand |
| `Footprints.RecoverShape` | src/chulk/children/store.py:625-662 | a recovery ends exactly the attempts whose lease has run out, as UNKNOWN |
| `Footprints.CreateShape` | src/chulk/children/store.py:128-172 | a creation adds one task, under a parent that can still take children, or changes nothing |
| `Guarantees.ReachableTask` | src/chulk/children/store.py:1205-1378 | in plain terms, for any task of any reachable state: columns, events 0 to revision, attempts 1 to count, RUNNING exactly while claimed by its one running attempt, never WAITING, parallelism bound, completed dependencies |
| `Guarantees.RevisionsRiseByOne` | src/chulk/children/store.py:1205-1247 | a transaction raises a revision by at most one, and every change of a task raises it |
| `Guarantees.AttemptsFollowDependencies` | src/chulk/children/store.py:288-299 | over every run, an attempt starts only after each dependency had an attempt and completed, for good |
| `Guarantees.StartExactly` | src/chulk/children/store.py:285-303 | an attempt starts if and only if the task is READY at the expected revision and its parent has room: the dependency check never decides |
| `Guarantees.StartIssues` | src/chulk/children/store.py:283-373 | the ticket handed out is new, names the attempt it opened, and is held |
| `Guarantees.LostStaysLost` | src/chulk/children/store.py:1146-1173 | a ticket not held is refused by heartbeat, boundary and finish in every later state, whatever times are passed |
| `Guarantees.OlderAttemptRefused` | src/chulk/children/store.py:1146-1173 | in particular the ticket of any attempt but the newest |
| `Guarantees.AttemptsEndOnce` | src/chulk/children/store.py:1277-1295 | an attempt that has ended keeps its outcome for good |
| `Guarantees.UsableOrRecoverable` | src/chulk/children/store.py:1164-1166 | at any instant a held attempt passes the claim test if and only if recovery would not take it |
| `Guarantees.SwapRaisesRevision` | src/chulk/children/store.py:1457-1463 | a call that succeeds at an expected revision leaves the task one revision on |
| `Guarantees.AtMostOneSwap` | src/chulk/children/store.py:1457-1463 | of all calls of a run that name one task at one revision, at most one succeeds |
| `Guarantees.NoSecretStored` | src/chulk/redaction.py:64-80 | in every reachable state nothing under a secret key, and no text that redaction would change, is stored in what a task was created with |
| `Effects.HeartbeatExtends` | src/chulk/children/store.py:401-456 | exactly when a heartbeat succeeds, and all it then writes: row, newest attempt and ticket carry a lease of the seconds asked from now, and nothing else changes |
| `Effects.HeartbeatHolds` | src/chulk/children/store.py:413-456 | up to that lease, and no longer, the ticket passes the boundary check and recovery leaves the attempt alone, at whatever time either is asked |
| `Effects.StartOpens` | src/chulk/children/store.py:304-373 | a start hands out fresh identifiers under a lease of the seconds asked, opens the next attempt, logs it, and changes nothing else |
| `Effects.StartHolds` | src/chulk/children/store.py:304-373 | the ticket of a start is good up to its lease and no longer |
| `Effects.FinishRecords` | src/chulk/children/store.py:813-879 | a finish ends the task by the report unless a cancellation was requested; the worker's result and text are kept, redacted, in row and attempt alike, and one unclaimed delivery is owed |
| `Effects.EndOnRecord` | src/chulk/children/store.py:1205-1321 | any end is on record at once in every column, in its event and in one new delivery, and the cascade below it owes none |
| `Effects.EndCloses` | src/chulk/children/store.py:1277-1295 | the attempt that ran closes with the status, the result and the reason of its task |
| `Effects.ExpireExactly` | src/chulk/children/store.py:881-905 | exactly when a claim ends its task instead, or leaves it alone |
| `Effects.ExpireRecords` | src/chulk/children/store.py:892-916 | a task whose deadline has come ends as BUDGET_EXHAUSTED, on record |
| `Effects.RetryExactly` | src/chulk/children/store.py:579-600 | exactly when a retry succeeds |
| `Effects.RetryRecords` | src/chulk/children/store.py:586-610 | a retried task is READY, BLOCKED or PENDING exactly as its dependencies stand, and keeps attempts and deliveries; nothing else changes |
| `Effects.CreateExactly` | src/chulk/children/store.py:105-148 | exactly when new work is taken in |
| `Effects.CreateRecords` | src/chulk/children/store.py:137-172 | the redacted work is stored once, under its key, READY, BLOCKED or PENDING exactly as its dependencies stand; nothing else changes |
| `Batches.CancelExactly` | src/chulk/children/store.py:529-534 | exactly when a cancellation succeeds |
| `Batches.CancelRecords` | src/chulk/children/store.py:535-577 | each live task of the subtree is flagged or ended with the operator's reason, the root it was cancelled under and a delivery if it ended; no attempt is touched; the answer lists these tasks as stored, deepest first |
| `Batches.RecoverRecords` | src/chulk/children/store.py:612-663 | each expired attempt, and its task, ends as UNKNOWN with the reason; the answer lists these tasks as stored, least recently updated first |
| `Batches.SettleWakes` | src/chulk/children/store.py:1041-1082 | a pending dependent left with no dependency becomes READY at once, with an event that names what it waited for |
| `Batches.DependentsListed` | src/chulk/children/store.py:1046-1052 | the rows a cascade works through: each dependent once, in the order of creation and then of ids |
| `Wakeup.StepWakes` | src/chulk/children/store.py:974-1120 | no transaction loses a wake-up, and a transaction strands a waiting task if and only if it is a cancellation that leaves a PENDING dependent outside its subtree |
| `Wakeup.RunWakes` | src/chulk/children/store.py:974-1120 | so over every run a PENDING task has a dependency that has not completed, and over every run of covering cancellations never one that ended badly |
| `Wakeup.CancelStrandsExactly` | src/chulk/children/store.py:535-576 | the exact condition under which a cancellation strands nothing |
| `Wakeup.PendingLeadsOn` | src/chulk/children/store.py:1041-1120 | where nothing is stranded every PENDING task leads through PENDING dependencies to a READY, RUNNING or BLOCKED one |
| `Wakeup.StrandedForGood` | src/chulk/children/transitions.py:159-174 | a task with a cancelled dependency never starts in any continuation |
| `Counterexamples.CancellationStrands` | src/chulk/children/store.py:535-576 | a three-call run that strands a task |
| `Cancellation.DescendantsExact` | src/chulk/children/store.py:1123-1143 | the recursive query finds exactly the root and the tasks that have it among their ancestors, each once |
| `Cancellation.DeepestFirst` | src/chulk/children/store.py:1141 | it lists every task before its parent |
| `Cancellation.CancelSeals` | src/chulk/children/store.py:519-577 | after a cancellation every task of the subtree has ended or runs with the flag set |
| `Cancellation.SealedForever` | src/chulk/children/store.py:834-844 | such a set stays so, gains no task, no attempt and no completion, while none of its tasks is retried |
| `Cancellation.CancellationIsFinal` | src/chulk/children/store.py:519-577 | the same from the cancellation on, in every continuation, with ever fewer tasks running |
| `Cancellation.SubtreeKept` | src/chulk/children/store.py:935-936 | and the subtree remains the same set of tasks |
| `Outbox.StepOwes` | src/chulk/children/store.py:1298-1321 | a transaction adds one outbox row for each task it ends and no other |
| `Outbox.OutboxConservation` | src/chulk/children/store.py:1298-1321 | over every run a task has as many outbox rows as it had terminal entries |
| `Outbox.TerminalOwesCurrent` | src/chulk/children/store.py:553-563 | a task has a row at its current revision exactly while it is terminal, and none beyond |
| `Outbox.DeliveredStays` | src/chulk/children/store.py:683-706 | DELIVERED is absorbing |
| `Outbox.StaleDelivery` | src/chulk/children/store.py:749-775 | a delivery token its row no longer carries changes nothing in any later state |
| `Outbox.FinishDeliveryExactly` | src/chulk/children/store.py:749-781 | exactly when a delivery is acknowledged, and every field it then writes: the consumer's error is kept, the ticket is used up |
| `Outbox.ClaimDeliveryMoves` | src/chulk/children/store.py:679-726 | a claim hands one due row to the worker under a new token, lapses expired claims, and keeps every other row |
| `Outbox.ClaimDeliveryFindsDue` | src/chulk/children/store.py:693-703 | a claim that finds nothing means that every row is delivered or held under a live lease |
| `Outbox.OldestDueIsOldest` | src/chulk/children/store.py:693-701 | the row chosen is the oldest of those that are due |
| `Outbox.ClaimDeliveryOldest` | src/chulk/children/store.py:679-703 | so the delivery handed out is as old as any that could have been |
| `Redaction.RedactDataIdempotent` | src/chulk/redaction.py:64-80 | redacting redacted data changes nothing, if redacting redacted text does not |
| `Redaction.RedactDataExactly` | src/chulk/redaction.py:64-80 | value by value: every value under a secret key is replaced by the mark, every other text is redacted, and lists, keys, their order, numbers and flags are kept |
| `Redaction.RedactedIsMasked` | src/chulk/redaction.py:64-80 | no secret survives, however deep it sits |
| `ChildModels.RedactPayloadIdempotent` | src/chulk/children/store.py:1428-1454 | nor does redacting a redacted creation payload |
| `Creation.CreationIsIdempotent` | src/chulk/children/store.py:107-127 | once a creation succeeded under a key, the same work answers with the current task in every later state and changes nothing, and other work always conflicts |
| `LeaseText.TextOrderIsTimeOrder` | src/chulk/children/store.py:918-922 | for all UTC times, with or without microseconds, ISO text sorts exactly as time does |
| `LeaseText.LeaseTestsAgree` | src/chulk/children/store.py:1164-1166 | so the text tests in SQL and the parsed test split leases the same way |
| `LeaseText.IsoReadsBack` | src/chulk/children/store.py:1489-1495 | a stored time reads back as itself, with or without microseconds |
| `Delegation.CapabilitiesOrder` | src/chulk/children/service.py:387-410 | the capability relation is a partial order, with everything off at the bottom and everything allowed at the top |
| `Delegation.CapabilitiesExactly` | src/chulk/children/service.py:387-410 | and holds exactly when no file access, no memory mode and no flag goes beyond the other's, spelled out level by level |
| `Delegation.AuthorityExactly` | src/chulk/children/service.py:342-364 | a request passes exactly when each field of it is among what the authority allows |
| `Delegation.PrepareExactly` | src/chulk/children/service.py:209-267 | exactly what `delegate` lets through, in both directions: well formed, within host and parent field by field, within depth and number of active tasks |
| `Delegation.PreparedFits` | src/chulk/children/service.py:209-267 | the task it passes on has the request's fields, the parent's depth plus one and its root, and stays within host and parent |
| `Delegation.DelegationService.Delegate` | src/chulk/children/service.py:209-267 | the checks in order, then exactly the creation of the task they describe |
| `Delegation.LineageExactly` | src/chulk/children/store.py:925-944 | the lineage check passes exactly when depth, root, role and allowances fit and the parent takes children |
| `Delegation.RunKeepsLineage` | src/chulk/children/store.py:925-944 | over every run, whoever creates the tasks, every stored lineage fits under its parent |
| `Delegation.ChainLineage` | src/chulk/children/service.py:306-315 | along a whole chain every ancestor is an orchestrator, depth counts the tasks from the top, and the root is the top |
| `Delegation.LineageOverRuns` | src/chulk/children/store.py:925-944 | the same for every task of every run |
| `Delegation.RunKeepsOrder` | src/chulk/children/service.py:317-340 | over every run of delegated creations, with anything between check and creation, every stored task stays within its parent |
| `Delegation.ChainContained` | src/chulk/children/service.py:342-364 | along a whole chain authority never widens |
| `Delegation.DelegationNeverWidens` | src/chulk/children/service.py:209-267 | for every task of every delegated run and each of its ancestors, field by field: no file access, memory mode, flag, tool, skill, label, profile, backend or workspace that the ancestor lacks |
| `DepthAllowance.ExceedsExactly` | src/chulk/children/store.py:937-942 | exactly when a request that passes `delegate` passes the lineage check although it is deeper than an ancestor allows |
| `DepthAllowance.StepDepths` | src/chulk/children/store.py:941-942 | a call keeps every task within the depth all its ancestors allow if and only if it creates none that the ancestors of its parent do not allow |
| `DepthAllowance.RunDepths` | src/chulk/children/store.py:941-942 | the same for whole runs, in both directions |
| `DepthAllowance.NarrowRunsRespect` | src/chulk/children/service.py:226-230 | in every run in which no task allows more depth than its parent, every task is within the depth of each ancestor |
| `DepthAllowance.GrandparentDepthIgnored` | src/chulk/children/store.py:941-942 | a run of three creations that pass `delegate`, the last deeper than the first allows |
| `Supervisor.CollectCriteria` | src/chulk/children/service.py:154-160 | the criteria collected are exactly those some evidence names, each once |
| `Supervisor.Validate` | src/chulk/children/service.py:139-178 | issues are found exactly when the result is not acceptable, and which |
| `Supervisor.CoverageSurvives` | src/chulk/children/store.py:1435-1439 | coverage of claims by evidence survives redaction |
| `Supervisor.FinishCloses` | src/chulk/children/store.py:862-865 | a finish closes exactly the attempt of its ticket, and a completed task holds the redacted report |
| `Supervisor.TaskSupervisor.RunClaim` | src/chulk/children/supervisor.py:182-239 | however runner, validator, heartbeat, callbacks and other users of the store behave: a completed answer is given exactly when the runner was made, returned in time an acceptable result for the task as read, and the completion went through; any other attempt ends for the obstacle met, as out of budget exactly when the runner said so, with its text; whatever is answered is true of the tables |
| `Supervisor.TaskSupervisor.TryToComplete` | src/chulk/children/supervisor.py:186-207 | completes exactly then, and otherwise says what stood in the way |
| `Supervisor.TaskSupervisor.Conclude` | src/chulk/children/supervisor.py:208-233 | ends the attempt for what was raised; with the lease lost, only to observe a cancellation |
| `Supervisor.RunKeepsFlag` | src/chulk/children/supervisor.py:221-229 | a cancellation request stays on the task as long as the claim it was made against is held, over every run |
| `Supervisor.TaskSupervisor.DeliverOnce` | src/chulk/children/supervisor.py:148-168 | the delivery claimed is marked delivered exactly when the consumer returned, and keeps its error otherwise |
| `Supervisor.ReportedStays` | src/chulk/children/supervisor.py:182-239 | and what was returned stays true in every later state |
| `ApprovalLedger.ApplySound` | src/chulk/approvals/store.py:57-490 | every operation keeps the ledger sound and moves each request along its state machine or not at all |
| `ApprovalLedger.AtMostOneOpen` | src/chulk/approvals/store.py:69-94 | in every reachable ledger there is at most one PENDING or APPROVED request for the same work |
| `ApprovalLedger.TerminalAbsorbs` | src/chulk/approvals/models.py:147-155 | a request that has left the open statuses never changes again |
| `ApprovalLedger.ConsumedOnce` | src/chulk/approvals/store.py:278-346 | CONSUMED is entered once and kept, by a consume of that request at its exact revision, from an approved request before its expiry |
| `ApprovalLedger.DecideExactly` | src/chulk/approvals/store.py:185-276 | exactly when a pending request is decided, including the uniqueness of decision keys, and all that is then written |
| `ApprovalLedger.DecideReplays` | src/chulk/approvals/store.py:209-219 | deciding again under the same key answers with the request and changes nothing, at any later point of any run; anything else conflicts |
| `ApprovalLedger.CreateExactly` | src/chulk/approvals/store.py:57-140 | exactly when a request is taken in, and every field of a new one |
| `ApprovalLedger.ConsumeExactly` | src/chulk/approvals/store.py:278-346 | exactly when an approval is consumed, and all that is then written |
| `ApprovalLedger.CloseExactly` | src/chulk/approvals/store.py:348-394 | exactly when a request is invalidated or cancelled, and that doing so again changes nothing |
| `ApprovalLedger.ExpireExactly` | src/chulk/approvals/store.py:396-446 | exactly which requests expire, and what is then written |
| `ApprovalLedger.DueRowsListed` | src/chulk/approvals/store.py:396-446 | the requests listed to expire: each that is due, once, in the order of expiry and then of ids |
| `ApprovalLedger.CreateReuses` | src/chulk/approvals/store.py:69-94 | asking for work that is open already answers with the open request |
| `ApprovalStores.ApprovalStore.Create` | src/chulk/approvals/store.py:57-140 | the object creates or reuses as specified and stays sound |
| `ApprovalStores.ApprovalStore.Decide` | src/chulk/approvals/store.py:185-276 | the object decides as specified; a raise leaves nothing behind, the expiry update included |
| `ApprovalStores.ApprovalStore.Consume` | src/chulk/approvals/store.py:278-346 | the object consumes as specified |
| `ApprovalStores.ApprovalStore.Close` | src/chulk/approvals/store.py:348-490 | the object invalidates or cancels as specified |
| `ApprovalStores.ApprovalStore.ExpireAll` | src/chulk/approvals/store.py:396-446 | the loop expires exactly the due requests and answers with them in order |
| `ApprovalSaga.ReleasedOnlyWhenConsumed` | src/chulk/approvals/service.py:141-265 | over all interleavings and crashes, a run waiting for an approval is let go only by a call whose approval, for that run, is consumed, was approved and unexpired, and matches |
| `ApprovalSaga.ResumeWrites` | src/chulk/approvals/service.py:141-288 | all an undisturbed call writes to ledger and run, field by field, read off the request, the facts and the run before the call |
| `ApprovalSaga.ResumeAnswers` | src/chulk/approvals/service.py:141-288 | which kind of outcome it answers with, for every status of request and run and every fact that may fail, and exactly when it raises instead |
| `ApprovalSaga.RepeatCompletes` | src/chulk/approvals/service.py:216-265 | a call that crashed between its two writes is completed by repeating it at any later time |
| `ApprovalSaga.RepeatIsNoOp` | src/chulk/approvals/service.py:207-265 | a call that finished changes nothing when repeated |
| `ApprovalSaga.RefusedRunStops` | src/chulk/approvals/service.py:267-288 | a denied, expired, invalidated or cancelled approval leaves the waiting run cancelled, or unknown where an effect is uncertain |
| `ApprovalSaga.WronglyReleasedExactly` | src/chulk/approvals/service.py:234-248 | exactly when a run is let go from a wait for another approval than the one named |
| `ApprovalSaga.ReleasesWhateverItWaitsFor` | src/chulk/approvals/service.py:242-248 | which approval the run waits for is not looked at |
| `ApprovalCounterexamples.PendingApprovalBypassed` | src/chulk/approvals/service.py:234-248 | a history of four ledger calls after which a pending approval is bypassed |
| `ApprovalSaga.StoppedOnlyWhenRefused` | src/chulk/approvals/service.py:267-288 | over all interleavings and crashes, a call ends a waiting run only if its own approval, for that run, was denied, expired, invalidated or cancelled |
| `ApprovalSaga.ConsumedOnlyWhenMatching` | src/chulk/approvals/service.py:164-220 | over all interleavings and crashes, a call consumes only the approval it names, and only if that matches its own validation |
| `ApprovalSaga.WronglyStoppedExactly` | src/chulk/approvals/service.py:267-288 | exactly when a call ends a run that waits for another approval than the one named |
| `ApprovalCounterexamples.PendingApprovalOverruled` | src/chulk/approvals/service.py:276-282 | a history of three ledger calls after which a run waiting for a pending approval is ended |
| `ApprovalSaga.AskForExactly` | src/chulk/approvals/service.py:55-119 | exactly when a request pauses its run, and that a request the run could not be paused on is invalidated with the run untouched |
| `ApprovalSaga.AskAgainCompletes` | src/chulk/approvals/service.py:55-106 | a request that crashed before pausing the run is completed by repeating it |
| `RunGates.RunSound` | src/chulk/_sdk/event_channel.py:24-36 | live tickets are the interval from the one served to the next one, each with the thread that drew it, in every reachable state |
| `RunGates.MutualExclusionInOrder` | src/chulk/_sdk/event_channel.py:24-36 | at most one thread is inside, and threads enter in ticket order with none skipped |
| `RunGates.WaitersMakeProgress` | src/chulk/_sdk/event_channel.py:29-36 | while a thread waits, one is inside or the next one can enter with its next step |
| `EventChannel.RefinesFifo` | src/chulk/_sdk/event_channel.py:39-95 | until it is cancelled nothing published is lost: the events consumed, then those queued, then the one in hand are exactly those published, within the size, and at the end they are followed by the terminal event and END; after a cancellation at most the last one published was not put |
| `EventChannel.ConsumedInOrder` | src/chulk/_sdk/event_channel.py:68-95 | in every state what was consumed is what was accepted, in order, with items left out only |
| `EventChannel.TerminalOnceBeforeEnd` | src/chulk/_sdk/event_channel.py:51-62 | the published events, then one terminal event, then one END; a cancellation can only leave some out |
| `EventChannel.PublishedExactly` | src/chulk/_sdk/event_channel.py:51-54 | published are the events of exactly those calls that found the channel neither cancelled nor finished |
| `EventChannel.FinishFinishes` | src/chulk/_sdk/event_channel.py:56-62 | a call of `finish` does not return before the channel is finished |
| `EventChannel.ConsumerNotStranded` | src/chulk/_sdk/event_channel.py:71-81 | a consumer facing an empty queue is never left without something still to come |
| `EventChannel.ProducerReturns` | src/chulk/_sdk/event_channel.py:83-95 | after a cancellation the producer takes at most five more steps within the call it is in, over every run |
| `EventChannel.InsertionsEnd` | src/chulk/_sdk/event_channel.py:83-95 | after a cancellation every run in which nobody cancels again holds a bounded number of forced-insertion steps, the bound being read off the channel, and an insertion not yet back can always take its next |

## Left out

- ChildTaskStores.ChildTaskStore.ClaimDelivery: rows created at the same moment are taken in the order they were inserted, because the source orders them by a random row id.
- ChildTaskStores.ChildTaskStore.Create: takes tasks only as `delegate` builds them; a caller that passes a task already flagged or counted is not covered. Foreign keys and goal ownership are not modelled.
- ChildTaskStores.ChildTaskStore.TerminalizeAttempt: the search for a running attempt is bounded by the task's attempt count, which the invariants show to be no restriction.
- Transactions.RequestCancelSafe: leaves dependents outside the subtree as they are, because the source does; see `Wakeup.CancelStrandsExactly`.
- ApprovalSaga.ReleasedOnlyWhenConsumed: does not say that the run waited for that approval, because the source does not look; see `ApprovalSaga.WronglyReleasedExactly`.
- ApprovalSaga.StoppedOnlyWhenRefused: likewise; see `ApprovalSaga.WronglyStoppedExactly`.
- EventChannel.InsertionsEnd: bounds the insertion steps but not the waiting for them, because scheduling is left open.
- ApprovalSaga.RefusedRunStops: does not cover runs that are configured parents, whose cancellation the run store refuses.
- Supervisor.TaskSupervisor.RunClaim: the registry of live runners and `cancel_active` are not modelled; heartbeats are among the transactions that may come between.
- One profile only; the dependency and parent columns are part of the stored snapshot.
- `claim_next`, `list`, `active_count` and other reads that make no promise across operations.
- The transitions into WAITING and out of it: the store has no call that makes them, so WAITING is never entered.
- `max_active_tasks` is checked outside the creating transaction, so it is no invariant; it is checked in `Delegation.Prepare` and not relied on.
- Goals, run budgets beyond a deadline, JSON-schema checking and tool policies are opaque values or yes-or-no facts.
- Blank text is ruled out by the type `Name` where the source strips and rejects it.
- Supervisor.Validate: the texts of the issues; what the schema check says is a yes-or-no fact.
- Audit rows and recorded run events of the approval ledger, and redaction of stored scopes and previews.
- The immediate approval adapter, the asynchronous services and the coordinators: same logic or forwarding.
- The run store, but for pausing, resuming and cancelling; parent and child runs.
- Asynchronous exceptions in threads, scheduling fairness and the passing of real time.
- SQLite itself, the schema and its migrations, and JSON encoding.
