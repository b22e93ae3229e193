# FCAPSule Lab: verified models of its stateful protocols

The Lab injects bounded faults into a small shop and must always be able to take them back. These Dafny
modules model the four stateful protocols it relies on and prove what they promise, for every input, every
interleaving and every lost reply. `dafny verify dfyconfig.toml` checks the whole project.

**Run ownership and the field journal** (`Json`, `VersionedStore`, `FieldJournal`, `RunClaim`, `LabProtocol`,
`LabInvariant`, `LabSteps`, `LabTheorems`, `LabRecovery`, `LabRetry`, `LabEdits`, `LabRunners`, `ControlRuns`,
`ControlStarts`, `Control`). Three Kubernetes objects are versioned documents with atomic compare-and-patch. One
controller (JSON Merge Patch, RFC 7396), any number of screenshot runners (JSON Patch, RFC 6902) and outside editors
interleave request by request. `Control` is the controller as a class with its dictionary loops; `ControlRuns` and
`ControlStarts` tie its operations to the step system and say what a recovery and a start come to.

**Exactly-once checkout over at-least-once calls** (`Reservations`, `Idempotency`, `Checkout`,
`CheckoutSafety`, `CheckoutReplay`, `ExactlyOnce`, `Sales`). Checkouts interleave at the critical sections of Orders;
reservation attempts interleave at the statements of one MySQL transaction; a timed-out attempt goes on and may still
commit.

**Sessions, admission and mode switching** (`Headroom`, `Sessions`, `SessionSafety`, `SessionRuns`). Clients, connection
storms and the mode switch interleave at three locks, an admission slot and stop events.

**Smaller loops and journals** (`LatencyWindow`, `Assessment`, `JobQueue`, `Scaling`, `WorkerModes`).

Each stateful part has two layers. A class holds the fields the program updates, and its methods are proved
equal to functions on values; a step system runs those functions in every order. What the functions mean is said
apart from them, in the contracts of the larger methods and in lemmas over the state before and after. A step that is
not enabled does nothing, so a theorem about `Exec(s, steps)` is about every schedule. Methods that are a single
critical section are proved against their function too, and are called by methods for a whole operation with nobody
else at the locks; the table below lists those with loops or branching, and the results. Fields called history (for example
`sold`, `place`, `stamps`, `claim`, `snap`) record what happened and are never read by a step's decision.

Assumptions: a PATCH takes effect at once or never and only its reply may be lost; MySQL row locks and rollback
on close; outside editors of the three objects leave the Lab's own annotations alone; the server stores no empty
annotations object; the monotone clock does not run backwards and `sleep` lasts as long as asked; `_safe_ref` is an
arbitrary function; the order fingerprint is collision-free; times and ratios are exact.

## Where the code falls short of a promise

- An object-valued field update is merged, so a restore can leave members behind, and a null inside one makes the
  restore refuse: `RoundTripExactly` gives the exact condition, `AddedMemberIsNotUndone` and
  `NullMemberIsNotUndone` the inputs. No update the controller makes today has such a shape.
- A restore of the traffic generator can take back other people's changes: `JournaledRestoreCanUndoOthers` and
  `UnjournaledRestoreCanUndoOthers` give runs, and `SafeExactlyWhenTrusted` says from the journal file and the
  scale-up call exactly when it cannot.
- A mode change that is refused because the thread did not stop in time leaves the old mode reported with no
  thread working for it: `RefusalStalls` gives a run, `WorkEndsExactlyWhen` says exactly when work ends.
- If the reply to the final clear is lost, retries in the same process fail for ever: `LostFinalReplySticks` gives
  the runs, `StuckForever` shows that only a restart helps, and `RetrySucceedsIffClaimed` says exactly when a
  retry succeeds.
- An import job whose body is nested too deeply raises an error that the delivery loop does not catch
  (app/worker.py:284 names ValueError, KeyError and TypeError): the worker process ends at each delivery, and neither
  the rejection nor the attempt is counted. `AttemptsCountDeliveries` says that this is exactly when redeliveries are
  not counted.
- The docstring of `_kubernetes_patch` (app/control.py:91) speaks of two resources; the code patches three, and
  the model follows the code.

## Model

| member | source | states |
|---|---|---|
| `Json.MergeInstallsExactly` | app/control.py:131-163 | Merging a patch value (section 2 of RFC 7396) into what the server stores leaves exactly that value behind if and only if the patch has no null member and names, level by level, every member it meets |
| `VersionedStore.ApplyIsMergePatch` | app/control.py:153-163 | Merging annotations and the controlled section separately is RFC 7396 on the whole object, for `data`, `labels` and `spec` alike |
| `FieldJournal.ExtendJournal` | app/control.py:144-149 | The dictionary loop of a claim: a key journaled before keeps its first-seen baseline, a new key records the present value (null when absent), `applied` is overlaid |
| `FieldJournal.CollectRestore` | app/control.py:183-186 | The dictionary loop of a restore reports an edit exactly when some journaled field no longer has the applied value, and otherwise collects every baseline value |
| `FieldJournal.FieldGuards` | app/control.py:131-196 | A claim is refused exactly over another run's journal, on a ConfigMap that is not the run's, or over an unreadable journal of its own; a restore writes exactly when owner and journal are its own and every journaled field still has its applied value, and leaves alone exactly what has no journal |
| `FieldJournal.ClaimKeepsWayBack` | app/control.py:131-163 | A claim by the owning run is written and keeps the way back to the first-seen values, whatever it had claimed before; foreign annotations stay |
| `FieldJournal.RestoreTakesWayBack` | app/control.py:165-196 | A restore by the owner is not refused, gives back every first-seen field and leaves no journal |
| `FieldJournal.RoundTrip` | app/control.py:131-196 | Any number of claims of string or list values by one run followed by its restore gives back every field, absent ones included, and every annotation |
| `FieldJournal.RestoreWritesIffUntouched` | app/control.py:183-196 | A restore writes exactly when no journaled field was changed by others; fields outside the update set are untouched, fields absent before are absent again, and a refused restore writes nothing |
| `FieldJournal.RoundTripExactly` | app/control.py:131-196 | For updates of any shape the round trip succeeds if and only if no update has a null member and each has, level by level, the member names of the value it meets |
| `FieldJournal.AddedMemberIsNotUndone` | app/control.py:131-196 | A concrete object-valued update whose added member survives the restore |
| `FieldJournal.NullMemberIsNotUndone` | app/control.py:131-196 | A concrete update with a null member, after which the restore is refused |
| `RunClaim.RunIds` | app/control.py:285-287 | A run id is 32 lower-case hexadecimal digits |
| `RunClaim.OwnerGuards` | app/control.py:95-119 | The claim is taken exactly when the ConfigMap shows no run and no screenshot owner, and a job is recorded and the claim cleared exactly while it is the run's own |
| `RunClaim.PersistedMeans` | app/control.py:212-236 | Reading the claim back finds no run exactly when there is neither an owner nor a journal, and a run exactly when its id, targets, baseline, expiry and job all read |
| `RunClaim.RunnerGuards` | tools/evaluate_external_screenshot.py:50-83 | The screenshot runner locks exactly a Lab without run, journal and lock, releases exactly its own lock, and takes back exactly its own mark at the fault path; with nothing to give up it does nothing, and it stops at anything else |
| `RunClaim.MarkThenRestore` | tools/evaluate_external_screenshot.py:86-94 | The runner's restore undoes its own mark and path exactly, and has nothing to undo when the mark could not land |
| `RunClaim.MarkMonitorEffect` | tools/evaluate_external_screenshot.py:86-94 | The fault path and the owner mark land together, or nothing does; a monitor without annotations or without an endpoint path cannot be marked |
| `Control.ControlState.ClaimFields` | app/control.py:131-163 | The journaled field write, loop included, as the journal specification |
| `Control.ControlState.RestoreOwnedFields` | app/control.py:165-196 | The restore of one resource, loop included, as the journal specification |
| `Control.ControlState.RecoverOwned` | app/control.py:440-505 | Each restore is attempted even when an earlier one failed; the targeted ones of Inventory, database, worker, Orders, cnfc-edge and library are called in this order, Inventory and Orders only once the ConfigMap is restored; the claim is cleared last and only without errors |
| `Control.ControlState.ContactServices` | app/control.py:460-500 | The calls of a recovery to the application services: exactly the targeted ones, in order, and whether all acknowledge |
| `ControlRuns.ContactsMean` | app/control.py:460-500 | A service is contacted exactly when it is a target and, for Inventory and Orders, the ConfigMap was restored |
| `ControlRuns.ContactsAreCalled` | app/control.py:460-500 | The calls of a recovery, service by service and in order, for any targets |
| `ControlRuns.SuccessIsHeard` | app/control.py:440-505 | No recovery of a run succeeds unless every look at the cluster was answered and every targeted service acknowledged |
| `Control.ControlState.Start` | app/control.py:274-401 | A start is refused over a run in memory, a failed health check or a claim on the ConfigMap, and then changes nothing. If all its requests are delivered it succeeds if and only if no screenshot runner holds the lock; success puts the run in memory, claim and job on the ConfigMap and every field where the plan wants it; and a failed start that can read its claim back and whose recovery is answered leaves memory empty and everything as it was |
| `ControlStarts.StartMeans` | app/control.py:311-336 | From any reachable state of an unclaimed Lab: when a start succeeds, and which run, job and fields stand then |
| `ControlStarts.FailedStartIsUndone` | app/control.py:317-333 | Whatever happened to the claim, its reply and the writes: a failed start leaves no claim, no journal and every field and foreign annotation as before |
| `Control.ControlState.Recover` | app/control.py:425-518 | From memory or, after a restart, from the ConfigMap: the recovery is a run of the step system; success empties memory, leaves no claim and no journal, needs every look answered and every targeted service acknowledged, and adds the run to the last twenty of the history; on an unedited claimed Lab whose requests all succeed it succeeds and everything is back as at claim time; without an answer to the reload it fails |
| `Control.ControlState.RecoverExpected` | app/control.py:412-423 | A caller that expects a certain run recovers that run or touches nothing |
| `ControlRuns.RecoveryIsARun` | app/control.py:425-518 | Whatever the network does, the sequential recovery is a run of the step system, so the theorems about interleavings cover it |
| `ControlRuns.RecoverIsARun` | app/control.py:425-518 | Recovery as a whole, with the reload after a restart, ends in the documents and the memory of the corresponding steps |
| `ControlRuns.RecoveryRestores` | app/control.py:425-518 | From any reachable state of a claimed, unedited Lab, with the run in memory or after a restart, one recovery whose requests all succeed empties memory and puts every document back as at claim time |
| `ControlRuns.SuccessMeansClean` | app/control.py:501-517 | Over any edits and any network, a recovery that reports success leaves no claim and no journal |
| `ControlRuns.StartIsARun` | app/control.py:311-336 | A start as a whole, with its claim, the read-back after a lost reply and the recovery after a failure, is a run of the step system that ends at rest |
| `LabSteps.NextInv` | app/control.py:95-249 | Every step of the controller, of any screenshot runner and of an outside editor keeps the protocol invariant |
| `LabTheorems.MutualExclusion` | tools/evaluate_external_screenshot.py:50-83 | In every interleaving the ConfigMap never carries both a controller run and a screenshot owner |
| `LabTheorems.OwnersAreNotReplaced` | app/control.py:95-119 | No step replaces an owner by a different one, and a claim or lock is taken only when the ConfigMap shows neither |
| `LabTheorems.JournalsNameTheClaim` | app/control.py:212-236 | A field journal on any resource names the run that holds the ConfigMap, so the orphaned-journal branch is never taken and the claim always reads back |
| `LabTheorems.FieldWritesAreOwned` | app/control.py:315-333 | Every field the controller changes, it changes under its own claim and with no screenshot owner present |
| `LabTheorems.OnlyTheControllerWritesRunNames` | app/control.py:212-221 | Nobody but the controller changes a claim or journal annotation, so reading the three resources at different moments is reading them at once |
| `LabTheorems.ClaimedLabIsQuiet` | tools/evaluate_external_screenshot.py:50-65 | While a run claims the Lab no screenshot runner changes any of its documents |
| `LabTheorems.ClaimIsClearedLast` | app/control.py:501-505 | When the claim goes away no journal is left and every document that no outsider edited is back as it was at claim time |
| `LabRecovery.RecoveryIsNeverRefused` | app/control.py:425-518 | In any interleaving, a recovery request on an unedited Lab that the network delivers succeeds |
| `LabRecovery.CrashSafeRecovery` | app/control.py:520-552 | From a restart at any point of any run, replies lost or not, with no outside edits: one recovery whose requests all succeed restores every field from claim time and leaves no claim and no journal |
| `LabRecovery.RecoveryWithoutClaim` | app/control.py:435-437 | Without a claim a restarted controller finds nothing to recover and writes nothing |
| `LabRetry.LostFinalReplySticks` | app/control.py:501-505 | From any reachable state of a claimed, unedited Lab there is a run whose last reply, to the clear, is lost: the Lab is restored and the process is stuck with its run |
| `LabRetry.StuckForever` | app/control.py:173-174 | From then on, in every run without a restart, the run stays in memory and no request of the controller writes anything |
| `LabRetry.RetrySucceedsIffClaimed` | app/control.py:425-518 | A retry in the same process of an unedited Lab, with requests that all succeed, ends the run if and only if the claim is still on the ConfigMap |
| `LabEdits.EditedRestore` | app/control.py:183-196 | Whatever was edited since the claim, a delivered restore is refused exactly when a journaled field lost its applied value, and then writes nothing; otherwise the first-seen values are back, everything else stays as others left it, and no other resource changes |
| `LabEdits.RecoveryOverEdits` | app/control.py:425-518 | From a restart at any point of any run and over any edits by others, one recovery whose requests all succeed clears the claim if and only if every journaled field still has its applied value; each resource of which that is true is put back, each other one stays exactly as it is, journal included, and then claim and run stay too; what nobody edited is back as at claim time |
| `LabRunners.MarkNamesTheHolder` | tools/evaluate_external_screenshot.py:50-94 | In every run a marked monitor names the holder of the lock, and no controller run claims the Lab |
| `LabRunners.LockGoesLast` | tools/evaluate_external_screenshot.py:68-83 | In every run a screenshot lock goes away only by its holder's own release, and then no mark is left on the monitor |
| `LabRunners.LockSucceedsExactlyWhen` | tools/evaluate_external_screenshot.py:50-65 | In every run a delivered lock is taken if and only if neither a controller run nor a screenshot runner owns the Lab, and adds the owner and nothing else |
| `LabRunners.PreflightPassesExactlyWhen` | tools/evaluate_external_screenshot.py:302-310 | In every run and as far as the monitor goes, a new screenshot runner gets past its preflight exactly when the monitor is unmarked and at `/metrics`, and then it records the monitor and writes nothing |
| `LabRunners.MarkSucceedsExactlyWhen` | tools/evaluate_external_screenshot.py:86-94 | In every run a delivered mark lands if and only if the monitor is still the recorded one and can carry it; then it names the runner at `/metrics-v2`, and otherwise nothing is written |
| `LabRunners.RestoreWorksExactlyWhen` | tools/evaluate_external_screenshot.py:259-280 | From any state of any run, a restore by hand or by the program takes mark, path and lock back if and only if it finds its own mark at the fault path, or no mark and the recorded path; otherwise it writes nothing |
| `LabRunners.LockIsRecoverable` | tools/evaluate_external_screenshot.py:259-280 | In every run in which no outsider edits the monitor, and from every point at which a runner that is over holds the lock, its restore gives the monitor back as the run found it and drops the lock, if and only if the run found the monitor at `/metrics` |
| `Reservations.InventoryDatabase.Reserve` | app/mysql_inventory.py:503-650 | One reservation with each fault, said of stock and rows: exactly when it is `reserved`, `out_of_stock` or a conflict, exactly when a widget and a new row change places, and that stock plus rows stay |
| `Reservations.ReserveIsARun` | app/mysql_inventory.py:503-650 | With no other transaction open, `reserve` and the steps of one attempt end in the same database and the same answer, for every fault |
| `Reservations.AnswersMean` | app/mysql_inventory.py:548-650 | In any schedule: exactly which step answers an attempt `reserved`, `out_of_stock` or conflict, and that the database changes by its own applied commit, one widget for one row |
| `Reservations.TurnedAway` | app/mysql_inventory.py:516-535 | An attempt with a wrong key or without a slot is answered and touches nothing |
| `Reservations.NextInv` | app/mysql_inventory.py:503-664 | Every step of every attempt, with row locks, rollbacks and lost acknowledgements, keeps the stock invariant |
| `Reservations.ExactlyOneDecrement` | app/mysql_inventory.py:503-664 | In every schedule stock plus rows is the initial stock, stock is never negative, no order is sold twice and every `reserved` answer has its row |
| `Reservations.RetryAfterLostCommit` | app/mysql_inventory.py:590-606 | Any retry after a commit whose reply was lost takes nothing more, and it is answered as a replay unless its own insert or lookup fails |
| `Idempotency.IdempotencyTable.Prune` | app/orders.py:337-341 | The pruning loop removes exactly the completed entries older than the lifetime, order kept |
| `Idempotency.IdempotencyTable.MakeRoom` | app/orders.py:343-350 | The eviction loop removes completed entries, oldest first, until there is room, and fails only when none is left |
| `Idempotency.PrunedMembers` | app/orders.py:337-341 | Pruning keeps exactly the entries that are in progress or young enough |
| `Checkout.OrdersState.LookUp` | app/orders.py:405-459 | The locked block as a whole, from the table and the clock: a key that is there is answered from its entry (conflict, replay, wait, or conflict after the deadline), and an absent one is admitted, its entry last in the table, if and only if a slot is free or some entry is completed, and answered 503 otherwise |
| `Checkout.OrdersState.Conclude` | app/orders.py:499-514 | The `finally` block: a failed owner's entry is dropped and the counters move |
| `Checkout.OrdersState.CheckoutAlone` | app/orders.py:352-514 | A whole checkout, from acceptance over the wait and the attempt loop to the `finally` block, ends with the status and the number of attempts that its request, the table and the outcomes of the attempts call for; a success of its own stands completed in the table; and it is a run of the step system from any state it begins in |
| `CheckoutSafety.NextInv` | app/orders.py:352-514 | Every critical section of every checkout keeps the table invariant |
| `CheckoutSafety.LookAnswersExactly` | app/orders.py:405-459 | In every run: exactly when a look admits a checkout, makes it wait, replays a result, refuses the key and rejects for capacity |
| `CheckoutSafety.SingleFlight` | app/orders.py:405-459 | In every run each entry in progress belongs to one running checkout of its key and order, and at most one checkout per key is calling the dependency |
| `CheckoutSafety.RetriesAreJustified` | app/orders.py:461-478 | A checkout makes at most its snapshotted number of attempts and goes on only after a retryable failure |
| `CheckoutSafety.InProgressIsKept` | app/orders.py:337-350 | An entry in progress is neither pruned nor evicted |
| `CheckoutSafety.FailedOwnerRemovesItsOwn` | app/orders.py:499-504 | A failed owner removes its own entry and no other |
| `CheckoutSafety.StoredResultAnswers` | app/orders.py:423-449 | While a stored success is there, the same order gets the stored status and another order is refused, without a dependency call |
| `CheckoutSafety.StoredResultStays` | app/orders.py:337-350 | A stored success leaves only by expiry or by eviction from a full table, and then nothing completed was created or replayed less recently |
| `CheckoutReplay.StoredResultServesAll` | app/orders.py:423-449 | While a stored success stays in the table, every checkout of its key that arrives or was waiting ends with the stored status for the same order and 409 for another, or 400 for an invalid request, and never calls the dependency |
| `CheckoutReplay.StoredResultLasts` | app/orders.py:337-350 | In a table that does not fill up a stored success stays for its whole lifetime |
| `CheckoutSafety.CapacityRejectsOnlyWhenBusy` | app/orders.py:408-417 | A checkout is rejected for capacity exactly when its key is absent and the full table has only entries in progress |
| `CheckoutSafety.AccountsBalance` | app/orders.py:499-509 | In every run inflight is started minus finished, the status counts sum to the finished checkouts, failures are the 502s and 503s, and attempts minus retries are the checkouts that reached the dependency |
| `ExactlyOnce.ClassifyMeans` | app/orders.py:228-332 | For every response: which one is a success, which are tried again, and which count as 502 and which as 503 |
| `ExactlyOnce.SuccessIffReserved` | app/mysql_inventory.py:496-501 | Orders takes an Inventory reply for a success exactly when the reservation was made, under the expected schema and without the contract fault, and tries again exactly after an unavailable or busy Inventory |
| `ExactlyOnce.LastVerdictDecides` | app/orders.py:461-497 | The status of the last attempt is the status of the checkout, 502 and 503 kept apart, and a retryable failure below the limit is never the last |
| `ExactlyOnce.NextInv` | app/orders.py:461-491 | Every step of Orders and Inventory together keeps every known success backed by a committed row |
| `ExactlyOnce.PaidOnce` | app/orders.py:461-491 | In every schedule of both services a checkout answered 200 has its row and cost one widget, no order costs two, and stock and rows conserve the initial stock |
| `Sales.SaleGoesThrough` | app/orders.py:461-491 | From any reachable state with no transaction open: a checkout that may enter, of an order not yet sold and with stock left, ends 200 when its messages are delivered, and Inventory is one widget and one row on |
| `Sales.LostReplyIsMadeUp` | app/orders.py:461-491 | When the reply to that sale is lost and the limit allows another attempt, the second attempt finds the row: the customer gets 200 for one widget |
| `Headroom.AcceptedFromSixteen` | app/mysql_inventory.py:393-401 | A capacity is accepted exactly from 16 up, and then the target is over 80% and what it leaves is the least number of sessions that is at least three and at least fifteen percent |
| `Sessions.SessionLocks.UseSession` | app/mysql_inventory.py:112-148 | One reservation's session, with each way the check, the connection, the pool and the transaction can end: which session is used, what the pool holds afterwards and what is closed; the counter follows every session |
| `Sessions.SessionLocks.ConnectionStorm` | app/mysql_inventory.py:348-392 | The storm's loop: which sessions it holds and which it closes, with the counter following every one |
| `Sessions.StormStopsAtTarget` | app/mysql_inventory.py:348-392 | A storm only adds sessions of its own to the held list and never past its target |
| `Sessions.StormMeans` | app/mysql_inventory.py:348-392 | The storm takes its turns in order as long as it is below its target and not cancelled; it holds every session that connects and closes every other one that it opened |
| `Sessions.SessionLocks.ReleaseConnections` | app/mysql_inventory.py:403-418 | The release loop closes the pooled session and then every held one, each once, disables the pool and counts each close |
| `SessionSafety.NextInv` | app/mysql_inventory.py:89-176 | Every step of every client, storm and mode switch keeps places, admission, storms and the counter consistent |
| `SessionSafety.SessionsAreAccountedFor` | app/mysql_inventory.py:89-161 | In every run the counter is the held, pooled, borrowed and draining sessions; none is closed twice, shared or lost |
| `SessionSafety.ClampNeverBites` | app/mysql_inventory.py:156-161 | Every count-down finds a counted session, so the clamp at zero has no effect |
| `SessionSafety.ReturnsAreClean` | app/mysql_inventory.py:548-580 | A session goes back only into an empty pool, still open and without uncommitted work, after the commit or after the rollback of an update without rows |
| `SessionSafety.SwitchIsFinal` | app/mysql_inventory.py:229-259 | After a mode change has released the sessions of a storm, none of that storm is held, then or after any later steps |
| `SessionSafety.HeadroomThroughTheStorm` | app/mysql_inventory.py:348-391 | In every run the held sessions belong to the current storm, stay within its target and leave the promised headroom |
| `SessionRuns.PooledSessionIsReused` | app/mysql_inventory.py:112-148 | A request that finds the slot free and a session in the pool uses that session and puts it back; none is opened or closed |
| `SessionRuns.NewSessionIsPooled` | app/mysql_inventory.py:112-148 | With the pool empty such a request opens a session, counts it once and leaves it in the pool |
| `SessionRuns.TurnAddsOne` | app/mysql_inventory.py:348-392 | A storm below its target and not told to stop adds and counts one session of its own with every turn |
| `SessionRuns.SwitchReleasesAll` | app/mysql_inventory.py:403-418 | A mode switch on its own closes the pooled session and every held one, in that order and each once, counts them all down and starts a new stop event |
| `LatencyWindow.LatencyLog.Prune` | app/orders.py:512-514 | The list comprehension and its slice: the newest 5000 of the samples within the window |
| `LatencyWindow.LatencyLog.Record` | app/orders.py:510-514 | After recording, the list is the end of everything ever recorded that lies within the last 300 seconds, or the newest 5000 samples if there are more |
| `LatencyWindow.LatencyLog.Publish` | app/orders.py:535-540 | The published percentile and count are those of that window of everything ever recorded |
| `LatencyWindow.PruneTwice` | app/orders.py:534-535 | Pruning a pruned list later is pruning the whole history later, under a monotone clock |
| `LatencyWindow.RollingWindow` | app/orders.py:510-514 | For every run of recordings and scrapes under a monotone clock, the list pruned again and again is the newest 5000 samples of the last 300 seconds of everything recorded |
| `LatencyWindow.NearestRank` | app/common.py:18-23 | The published percentile is the nearest-rank one: in the list, not exceeded by the fraction, and the least such value |
| `Assessment.AwaitAssessment` | tools/run_operator_demos.py:627-684 | The waiting loop makes every read in time and none before the last ends the wait; it accepts exactly at a read that does, and times out exactly when the next read would be neither before its time nor within a minute of some progress |
| `Assessment.OutcomeMeans` | tools/run_operator_demos.py:648-684 | Waiting by a moving deadline is the same as allowing every read that is before the first deadline or within a minute of a new revision or a run that started, within the 300 seconds of grace |
| `Assessment.DeadlineMoves` | tools/run_operator_demos.py:676-680 | In each iteration progress gives at least another minute, anything else leaves the deadline, and a later deadline is exactly such a minute |
| `Assessment.AcceptanceIsStable` | tools/run_operator_demos.py:648-675 | Acceptance means two successive exact terminal reads of one revision and no earlier pair; the number of reads is bounded |
| `Assessment.DeadlineBound` | tools/run_operator_demos.py:676-680 | The deadline only moves later and never past start + seconds + 300 |
| `JobQueue.ValidatedImportRecords` | app/worker.py:396-414 | The validation loop accepts exactly the documents with 1 to 5000 good rows, and each record has its row's sku and quantity and the first 256 characters of its description |
| `JobQueue.ImportWorker.Poll` | app/worker.py:253-304 | One delivery: the batch and the deletion together, or nothing; rejections and redeliveries counted |
| `JobQueue.PollMeans` | app/worker.py:253-304 | An importable job leaves the queue exactly when its commit takes effect, and its batch, row by row, comes with it; otherwise both tables stay |
| `JobQueue.PollCounts` | app/worker.py:238-304 | Exactly when a poll counts a completion, a rejection or one more delivery of the same job, and when it ends the process |
| `JobQueue.PollIsARun` | app/worker.py:253-304 | One poll of the worker is a run of the queue, so the results about every run cover it |
| `JobQueue.NextInv` | app/worker.py:253-304 | Submissions, cancellations, deliveries, rejections, commits and rollbacks keep the queue invariant |
| `JobQueue.GoneIffCommitted` | app/worker.py:253-304 | Apart from cancelled jobs, a job row is gone exactly when its complete batch, each record as its row says, is committed; any other job has no records |
| `JobQueue.JobsComeIn` | app/control.py:378-388 | A job is queued under an id above every earlier one |
| `JobQueue.JobsGo` | app/control.py:468-475 | A job leaves only by the commit of its delivery or by its owner's cancellation, which gets rid of any job that no delivery holds |
| `JobQueue.UndecodableHeadBlocks` | app/worker.py:284-294 | A job that does not decode stays at the head without records, and nothing is completed until it is cancelled |
| `JobQueue.OldestFirst` | app/worker.py:259-262 | Import jobs are completed in the order of their ids |
| `JobQueue.AttemptsCountDeliveries` | app/worker.py:238-304 | Over successive polls a job that does not decode is selected every time and the tables stay as they are; its deliveries are counted, up to the cap, and logged as redeliveries if and only if the loop catches the decoding error, and otherwise each ends the process and is logged as the first |
| `Scaling.AwaitScaleUp` | tools/run_operator_demos.py:336-352 | The wait after scaling up takes the generation of the first read at the desired count, unless identity changed or the generation stood still |
| `Scaling.AwaitStopped` | tools/run_operator_demos.py:388-408 | The wait after scaling down succeeds exactly at the first empty read that only own changes precede |
| `Scaling.NextInv` | tools/run_operator_demos.py:298-408 | Every step of the runner and of other clients keeps the journal invariant, crashes and lost replies included |
| `Scaling.RestoreSparesLaterChanges` | tools/run_operator_demos.py:370-385 | Once the generation is journaled, any later change by others makes restore write nothing |
| `Scaling.RestoreReturnsTheCount` | tools/run_operator_demos.py:355-385 | Otherwise restore puts the recorded replica count back in one new generation and leaves the rest of the spec |
| `Scaling.RestoreUndoesItsOwn` | tools/run_operator_demos.py:380-385 | A scale-down that takes effect under a journaled generation follows a scale-up of the runner and no later change; it undoes nobody else's work if and only if the journaled generation is the one right after preparation |
| `Scaling.JournaledRestoreCanUndoOthers` | tools/run_operator_demos.py:338-350 | A concrete run: others scale down and up again before the runner first looks, the journal takes their generation for its own, and restore takes their scaling back |
| `Scaling.UnjournaledRestore` | tools/run_operator_demos.py:380-385 | Without a journaled generation a restore writes if and only if exactly one change was made since preparation and it left the desired count, and that change was somebody else's exactly when the scale-up had not taken effect |
| `Scaling.JournaledRestore` | tools/run_operator_demos.py:355-385 | With a journaled generation a restore writes if and only if nobody changed the deployment since the journaled read |
| `Scaling.UnjournaledRestoreCanUndoOthers` | tools/run_operator_demos.py:380-385 | A concrete run in which restore takes back another operator's scaling |
| `Scaling.SafeExactlyWhenTrusted` | tools/run_operator_demos.py:355-385 | For everything a runner can see (its journal file and whether its scale-up call returned): restoring disregards nobody's change in all runs that look like this if and only if the journaled generation is the one right after preparation, or the restore is already recorded, or none is journaled and the call returned or was never confirmed |
| `WorkerModes.WorkerState.LeakMemory` | app/worker.py:186-206 | The buffer loop keeps a prefix of the pages, counts their bytes and ends only when stopped, full or out of pages |
| `WorkerModes.WorkerState.MigrateBatch` | app/worker.py:140-178 | The migration loop passes the remaining records in order, each once, until it is told to stop, and puts the mode back to normal only in a turn after the last |
| `WorkerModes.BufferIsBounded` | app/worker.py:186-206 | In every run the counted bytes are the sizes of the retained pages, at most 160 of them and at most 96 MiB |
| `WorkerModes.OnlyTheCurrentThreadBuffers` | app/worker.py:186-206 | Retained pages change only by a page of the current, unstopped thread or by the reset of a mode change |
| `WorkerModes.ModeChangeSucceeds` | app/worker.py:95-125 | In every run and with no change under way, a change asked for goes through once the current thread has had three turns, and starts the thread of the new mode on an empty buffer and a whole batch of 160 |
| `WorkerModes.EarlierThreadsAreOver` | app/worker.py:95-125 | After a mode change no step of an earlier thread changes anything, ever |
| `WorkerModes.BatchInOrder` | app/worker.py:140-178 | A migration batch passes records 1, 2, 3, ... in order, each once; backlog plus done is 160; the mode ends by itself only after all 160 |
| `WorkerModes.RefusalStalls` | app/worker.py:95-109 | A concrete run: a refused change leaves the old mode reported with its thread ended |
| `WorkerModes.RefusedThreadEnds` | app/worker.py:95-109 | After a refused change, whatever happens until the next one is asked for: no page is retained, at most one more record is migrated, at most three steps change anything, and the thread can always go on to its end |
| `WorkerModes.WorkEndsExactlyWhen` | app/worker.py:95-206 | In every run and with no change under way: three turns on, the current thread has ended if and only if, before them, a change was refused since the last one that succeeded, or a page was too much for the export buffer, or the buffer mode is on and the page in hand, or else the next one, has no room |

## Left out

- Token-collision mode: its cleanup (app/mysql_inventory.py:269-277) deletes a row without giving the stock back, so conservation does not hold there; deadlock mode writes no reservation.
- The second query revision (app/mysql_inventory.py:561-567): the code demands that its column be absent (app/mysql_inventory.py:279-285), so its update only fails, which is one of the modelled faults.
- The admission slot in the reservation model: row locks alone already give the results, so attempts may overlap there; the slot is modelled with the sessions.
- The service calls in the step system and in a start: they write nothing to the three documents and are one step, `Notify`, that succeeds or fails; so is a monitor that fails the endpoint check before its write. `RecoverOwned` has the calls of a recovery one by one.
- Running outside a cluster, where every Kubernetes call returns None and the controller's writes do nothing.
- What the checks of memory and health measure (a start only learns whether they pass), the watchdog's timing, leases and heartbeats: recovery may begin at any moment instead. The branch for `claim_acquired` being False is left out, because nothing sets it so.
- A second controller process: the results are for one controller and any number of screenshot runners.
- The screenshot runner's watchdog process, PrometheusRule and captures; a monitor that was replaced under another uid.
- JSON encoding of journals: annotations hold typed values, decodable or not; the conversion of data and label values to strings happens before the model.
- `idempotency-conflict` mode as such: a checkout's key is an arbitrary string, which covers keys shared between orders.
- The bounds that are arbitrary in the model: the capacity of the idempotency table, a waiter's deadline, the attempt limit; and the baseline settings that a claim records, which are any value.
- The HTTP layer, body parsing, logging, hashes and metric text; `inventory_latencies`, whose timestamps are taken before the lock; wall-clock stamps of the latency window.
- Responses to Orders that do not come from Inventory and still look like a reservation.
- Exceptions out of a request in the assessment loop, which end it; the observation file it writes.
- Decoding of a job's envelope: a payload comes to a document, to an error that the loop catches, or to one that it does not; locks that other queue clients wait for are steps that are not enabled.
- The journal's owner check and its result file in `restore_owned_traffic`, and the readiness wait after scaling up: they write nothing to the deployment.
- CPU work, page contents and the export counters of the worker.
- Control.ControlState.Start: service calls, and a monitor that fails the endpoint check, are operations that succeed or fail; the reads of its start-up check are taken at one moment; `OnlyTheControllerWritesRunNames` is why that loses nothing.
- Sessions.SessionLocks.ReleaseConnections: proved with nobody else at the locks; the interleaved release is the step system's.
- Checkout.OrdersState.CheckoutAlone: proved with nobody else at the lock; interleaved checkouts are the step system's.
- Sessions.SessionLocks.UseSession: proved with nobody else at the locks but a mode switch that disables the pool; the interleaved use is the step system's.
- Sessions.SessionLocks.ConnectionStorm: proved with nobody else at the lock; the stop event is the end of the given turns or a cancelled one.
- WorkerModes.WorkerState.MigrateBatch: proved with nobody else at the lock and a stop at a given turn; the interleaved loop is the step system's.
- WorkerModes.WorkerState.LeakMemory: proved with nobody else at the lock and a stop at a given page; the interleaved loop is the step system's.
