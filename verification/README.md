# Verified model of mognet

mognet is a distributed task queue: an application submits requests through a message broker, workers
start their handlers, and a result backend records what became of each request. Handlers may submit
further requests and wait for them. This project models its core in Dafny and proves what the design
relies on: recursive requests do not deadlock, no request is lost or doubled by pauses and crashes, the
counters of a result count crashes exactly, and a request becomes ready once. Where the steps of a graceful
cancellation, or errors at the end of a handler, break such a claim, it says exactly when.

## Layout

| files | content |
|---|---|
| `Types.dfy`, `Result.dfy`, `Settlement.dfy`, `Worker.dfy`, `Context.dfy`, `App.dfy` | the classes of the program with their methods, each proved against functions on plain values |
| `Lifecycle.dfy` | a transition system over many processes, built from the same functions |
| `LifecycleInvariants.dfy` | what each action keeps, for all messages, processes, requests and cancellations |
| `LifecycleSafety.dfy` | what each action keeps of one request that was never revoked itself |
| `LifecycleWaiting.dfy` | the waiting set of each process |
| `LifecycleIndex.dfy` | the children index: a forest that agrees with the stacks of the requests sent |
| `LifecycleTheorems.dfy`, `Progress.dfy`, `Saturation.dfy`, `RevokedResults.dfy`, `Races.dfy` | what holds of all runs: conservation, accounting, single outcome, ancestry, deadlock, completion, revocation; and a run for each exception |
| `Graph.dfy`, `Deletion.dfy`, `Tree.dfy` (and `App.dfy`) | recursion over the children index: revoke, delete, tree |
| `Merge.dfy`, `MemoryBroker.dfy`, `QueueDeclaration.dfy` | concurrent parts, over every interleaving |
| `Backoff.dfy` | the two retry loops |

## How the life cycle is modelled

A state holds the broker's messages (queued, or held unacknowledged by one process with the stage of its
handler), the stored results, the children index, the workers, the cancellations under way and some history.
Actions: processes join, stop consuming and crash; requests are submitted in separate steps (pick an id, index
it, store the result, send the message), each of which may fail; deliveries, the gate, suspends and
resumes, the steps at the end of a handler, pauses, fatal errors, acknowledgements, revocations, and the steps
of a cancellation. A run is any sequence of enabled actions from the empty system. The choices of handlers,
the clock, the task registry and the validation of arguments are nondeterministic.

The end of a handler takes three steps, and anything may happen in between: the test for its holder in
`running_tasks`, the write of the outcome, and `_on_complete`. The write or `_on_complete` may fail. If the
handler returned, that counts as an error of the handler: with the holder still there, FAILURE is stored from
the same object. Otherwise it is fatal, and the message goes back.

`Worker.cancel` awaits between its steps, and the handler goes on meanwhile. So it is four actions: drop the
holder, read the result, write SUSPENDED from that copy if it says RUNNING on this node, and settle the
message together with the end of the handler. Anything may happen in between. A write of the handler that is
under way at the settlement is shielded: it may land at any time afterwards, in a fifth action.

Claims about one request are for those that were never revoked themselves, and whose result was never written
for a delivery that was over or had not begun ("orderly"): by such a late write, by a cancellation whose
delivery failed fatally after its read, or by one that read the result before the gate of its delivery and
writes after it. `Races.LandedLate` and `Races.SuspendedActive` show what comes of those writes. The claims
hold up to the first of them.

These points are assumed of each step:

- The gate, from reading the result to `start()` or to the write of a discard, is one step. A revocation in
  between would be overwritten by RUNNING.
- `_suspend` and `_resume` are each one step together with the change of the dependencies.
- A pause takes two steps: the write, which also drops the holder; and the rejection of the message, the
  swallowed acknowledgement and the done callback. A pause comes while the handler waits for nothing: the
  code would leave it in the waiting set otherwise.
- In `_on_complete` only the clearing of the state, which comes first, fails; setting the prefetch does not.
  What fails at the end of a handler does so with an error other than Pause, a validation error or a timeout.
- The acknowledgement and the done callback are one step, so are the rejection after a fatal error and the
  done callback. A crash may fall between any two steps.
- A fatal error comes before the gate, while a handler is active (`validate_call` may raise anything), or where
  the end of a handler that did not return, or of a discard, can not be written or completed.
- A cancellation's settlement and the cancelling of the handler's asyncio task are one step. A handler that
  was cancelled takes no further steps but for a write under way, although `Context.run` swallows the
  cancellation. A completion under way is done with the settlement.
- A visit of the revoke walk, from reading the result to storing REVOKED, is one step. In the code an outcome
  stored in between would be overwritten.
- A crash returns all unacknowledged messages of the process to the queue. Process ids are not used again;
  the default node id, `pid@host`, can recur.
- The backend is read as Redis: a read gives a copy. The handler's own `Result` is stale after suspends
  and resumes, and the final write and the write of a pause come from it.
- A worker cancels with rejection only once it stopped consuming, and while its broker connection is open, as
  when `Worker.close` is called by itself. `App._stop` closes the broker first (mognet/app/app.py:498-506):
  there the messages go back while the old handlers still run and write, which is not part of this model.
- Ids of requests are fresh. Results are not evicted.
- A broker prefetch of 0 means no limit, as AMQP has it.
- A handler that waits for nothing may return at any time; this counts as a possible step when the
  absence of deadlock is claimed.

## Where the code does less than it says

- `maximum_concurrency`: with any maximum, however deep recursion may go, a run without any fault reaches a
  deadlock (`Saturation.StuckRoots`), and without one none is reachable (`Saturation.DeadlockIff`). The system
  is stuck exactly when no cancellation is under way, every handler waits for unready children, and nothing is
  queued or every consuming process is full of waiting handlers (`Progress.StuckIff`).
- Closing a worker on an open connection can lose a request: if a cancellation drops the holder before the end
  of its handler is written, and the message is acknowledged before the cancellation rejects it, it is gone.
  The result is then SUSPENDED if the handler ended after the drop and wrote nothing (`Races.LostRequest`), or
  if it had passed its test before and its outcome is overturned (`Races.LostOutcome`). On an open connection
  that is the only way for an orderly request (`LifecycleTheorems.MessageConservation`), and without a
  cancellation none is lost (`Progress.NothingLost`).
- It can leave a start that no stop answers, which counts as a crash later: exactly if the result says RUNNING
  when the cancellation rejects the message (`Races.UnansweredStart`). A fatal error leaves one too
  (`Races.UnansweredError`), and a cancellation before the next gate may answer it again (`Races.Pardoned`).
  `LifecycleTheorems.CrashAccounting` counts all of these.
- A ready result, SUCCESS included, is overturned by a cancellation that dropped the holder before the end was
  written and read RUNNING (`Races.OverturnedEnd`); if its message goes back, the handler is called again
  (`Races.CalledAgain`).
- SUCCESS becomes FAILURE, with a second stop, when `_on_complete` fails after the write
  (`Races.FailedCompletion`). These two, and late writes, are the only changes of a ready result
  (`LifecycleTheorems.ReadyChanges`).
- REVOKED is not final. A handler that passed its test, or pauses, before the cancellation arrives overwrites
  it, so does a cancellation that read it RUNNING before, a late write, and a late submission; nothing else
  does while connections are open (`RevokedResults.RevokedUntilOverwritten`, `Races.RevokedThenSuccessful`,
  `Races.RevokedThenSuspended`).
- A waiting handler that is revoked and cancelled never leaves the waiting set (`Races.LeftWaiting`); nor does
  one that ended while waiting, if its end can not be written or completed. For each such id its process
  admits one delivery too many (`LifecycleWaiting.RunWaits`, `Progress.Admission`).
- `Result.tree` warns that more than `max_width` children are truncated. With Redis the count is only a
  hint to the scan, so they are not; the model follows the code. An unknown parent has no children, as the
  base class documents (the in-memory backend raises `KeyError` instead).
- The in-memory broker starts with its gate closed, and a worker whose first prefetch target is 1 never
  tells it anything: until the prefetch changes, it can deliver something exactly when the target is above 1
  (`MemoryBroker.ServesIff`). A rejected message goes to the end of its queue; it stays counted there as unacknowledged, unless it is
  acknowledged as well, as after a pause: its acknowledgement is not guarded.
- `_get_or_create_task_queue` declares a queue once, but a second caller can return it before it is bound
  (`QueueDeclaration.UnboundReturn`); it is bound unless its declarer is still waiting, or failed
  (`QueueDeclaration.SameQueue`). An error ends a call, and `_retry` makes one more: so a declarer whose binding
  failed returns its own unbound queue when it is called again.
- The waits of the retry loop are min(2^i, timeout) unless the timeout is negative, and the Redis loop
  follows the same schedule exactly when the timeout is at least 1.

## Model

| member | source | states |
|---|---|---|
| LifecycleInvariants.RunInv | mognet/worker/worker.py:483-528 | in every run, revocations and cancellations included: results are stored before messages are sent; each message is the one sent for its request; a process's `running_tasks` names, under their ids, exactly the messages it holds whose holder neither a pause nor a cancellation dropped; a cancellation with rejection is of a process that stopped consuming; dependencies are submissions or sent children; stacks extend their parent's |
| LifecycleSafety.RunCalm | mognet/context/context.py:236-244 | in every run, for an orderly request: its stored result fits the phase of its message (on this node, SUSPENDED while waiting and, unless a cancellation dropped the holder, RUNNING while not; not ready again once its end is to be written, but for a failure after a success; ready once written or finished, unless its handler lost its holder before), the copies that its cancellations will write in time add up, and so do its counters |
| LifecycleWaiting.RunWaits | mognet/worker/worker.py:571-580 | in every run, an id is in a process's waiting set while its handler waits there, or ended waiting and is not complete, and otherwise only if a fatal error or a cancellation left it there |
| LifecycleTheorems.NeverTwoMessages | mognet/broker/amqp_broker.py:61-95 | in every run no request ever has two messages, queued or held |
| LifecycleTheorems.MessageConservation | mognet/worker/worker.py:382-405 | in every run, with any pauses, crashes, errors and cancellations, an accepted orderly request that is not ready has exactly one message, queued or held by one live process; it has none if and only if its message was acknowledged after a handler whose end was written, or not written at all, when a cancellation had dropped its holder |
| LifecycleTheorems.CrashAccounting | mognet/model/result.py:266-272 | in every run, for an orderly result that is not ready, starts minus stops is the number of crashes, cancellations and fatal errors that took its message from a process on which it said RUNNING, less the cancellations before a gate that suspended it for such a start, plus one while it says RUNNING past its gate; the difference is at most max_retries + 1 |
| LifecycleTheorems.RunningIsActive | mognet/context/context.py:138-160 | while no cancellation of it is under way, a result with a handler says RUNNING exactly while the handler is active, and SUSPENDED otherwise: so the crashes counted are those that hit an active handler |
| LifecycleTheorems.UntouchedUntilSent | mognet/app/app.py:242-262 | in every run, the stored result of an orderly request that was not sent is PENDING on no node, with no start and no stop |
| LifecycleTheorems.GivenUpForRetries | mognet/worker/worker.py:242-263 | an orderly request is failed for its retries exactly when that difference is max_retries + 1 |
| LifecycleTheorems.ReadyChanges | mognet/worker/worker.py:382-438 | a ready result of an orderly request changes in a step if and only if a cancellation that read it RUNNING on its node writes now, its handler's end is stored once more, or a write that outlived its delivery lands; in time, the first only follows an end stored without the holder; the second makes FAILURE of SUCCESS; after the third the request is not orderly |
| LifecycleTheorems.SingleOutcome | mognet/worker/worker.py:215-233 | a ready result of an orderly request, with no other end about to be stored, never changes again and its handler is not called again, whatever crashes, as long as its completion does not fail and, if its handler had lost its holder before, no cancellation overturns it |
| LifecycleTheorems.ClosedForGood | mognet/worker/worker.py:382-395 | a request whose message is acknowledged and whose result is ready from a handler that kept its holder stays so, as long as it is orderly |
| LifecycleTheorems.StackIsAncestry | mognet/app/app.py:242-250 | in every run a message's stack is its request's ancestry by the stored parent ids, root first, and nothing else |
| LifecycleTheorems.AncestorGate | mognet/worker/worker.py:265-288 | in every run, revocations included, a handler that starts has at most max_recursion ancestors, and each of them has a result that is not REVOKED at that moment |
| LifecycleIndex.IndexIsAcyclic | mognet/app/app.py:248-252 | in every run the children index has no cycle, which is what a forced revoke and a deletion with children need to end |
| LifecycleIndex.IndexIsForest | mognet/app/app.py:248-252 | in every run, no id is in the index under two parents, and every stored result is there under the parent it names |
| LifecycleIndex.BelowIffStack | mognet/app/app.py:242-250 | in every run, a sent request is below an id in the children index if and only if that id is in its stack: the two records of ancestry agree, whatever submission failed on the way |
| LifecycleIndex.RevokeFindsStack | mognet/app/app.py:381-423 | in every run, a forced revoke that nothing interrupts reaches, of the requests sent, exactly its root and those with the root in their stack, and leaves them all REVOKED |
| RevokedResults.RevokedUntilOverwritten | mognet/worker/worker.py:382-438 | a REVOKED result stops being REVOKED exactly when the end of a handler is stored with another outcome, a handler still held pauses, a cancellation that read it RUNNING before writes, a write that outlived its delivery lands with another outcome, or the submission stores it |
| Races.LostRequest | mognet/worker/worker.py:153-189 | a run without crash, error, pause or revocation after which an accepted request is SUSPENDED and has no message |
| Races.UnansweredStart | mognet/worker/worker.py:167-181 | a run without crash or error after which a message is queued whose result has one start too many |
| Races.UnansweredError | mognet/worker/worker.py:497-509 | a run without crash or cancellation after which a message is queued whose result has one start too many |
| Races.Pardoned | mognet/worker/worker.py:167-175 | a run in which a cancellation before the gate answers the start that a fatal error left |
| Races.SuspendedActive | mognet/worker/worker.py:167-175 | a run in which a cancellation suspends the result of an active handler from a copy read before its gate, and takes its start back |
| Races.OverturnedEnd | mognet/worker/worker.py:385-386 | for every outcome, a run without crash, error, pause or revocation in which a cancellation writes SUSPENDED over it |
| Races.CalledAgain | mognet/worker/worker.py:167-181 | for every outcome, such a run after which the next gate calls the handler of a request that had it |
| Races.LostOutcome | mognet/worker/worker.py:385-395 | for every outcome, such a run after which a request that had it is SUSPENDED and has no message |
| Races.FailedCompletion | mognet/worker/worker.py:382-438 | a run without cancellation, crash or revocation in which SUCCESS becomes FAILURE with a second stop |
| Races.LandedLate | mognet/worker/worker.py:662-689 | a run in which SUCCESS lands after the message went back |
| Races.RevokedThenSuccessful | mognet/worker/worker.py:385-386 | a run in which a handler that is not held any more stores SUCCESS over REVOKED |
| Races.RevokedThenSuspended | mognet/worker/worker.py:167-175 | a run in which a cancellation writes SUSPENDED over REVOKED |
| Races.LeftWaiting | mognet/context/context.py:138-160 | a run in which a waiting handler is revoked and cancelled, and its id stays in the waiting set of a process that consumes |
| Progress.PrefetchMirror | mognet/worker/worker.py:598-631 | in every run, a consuming worker's prefetch is its waiting count plus minimum_concurrency if there is no maximum or that sum is at most the maximum, and the maximum otherwise; and the broker was last told that value though equal updates are dropped |
| Progress.Admission | mognet/app/app_config.py:72-76 | in every run, a delivery is admitted only while fewer than minimum_concurrency of the deliveries on that process are not waiting, or one more for each id that a fatal error or a cancellation left in the waiting set |
| Progress.AdmissionIff | mognet/app/app_config.py:72-76 | in every run, on a consuming process with nothing left behind in its waiting set and below the maximum, a queued message can be delivered if and only if fewer than minimum_concurrency of its deliveries are not waiting |
| Progress.AdmissionAtMaximum | mognet/worker/worker.py:609-614 | in every run, with so many tasks waiting that the maximum caps the prefetch, a queued message can be delivered if and only if the process has fewer deliveries than the maximum |
| Progress.StuckIff | mognet/worker/worker.py:571-631 | in every run, nothing can move if and only if no cancellation is under way, all handlers wait for unready children, and nothing is queued or every consuming process has reached its maximum with waiting ones |
| Progress.StuckIsFull | mognet/worker/worker.py:609-614 | in every run, if some accepted request is not ready and none was lost, it takes full processes to be stuck |
| Progress.StuckIsLost | mognet/worker/worker.py:571-631 | in every run, without a maximum and with one process consuming, being stuck with a request that is not ready takes one that was lost, or is not orderly |
| Progress.NothingLost | mognet/worker/worker.py:382-405 | without a cancellation, whatever is revoked, every accepted request that is not ready has its message |
| Progress.NeverStuck | mognet/context/context.py:127-160 | without a maximum, with one process consuming and no cancellation, recursive requests never deadlock, for any shape of the recursion and whatever is revoked, crashes, pauses or fails |
| Progress.WorkDecreases | mognet/context/context.py:154-160 | a measure of the work left decreases at each step that is not a fault or part of a cancellation |
| Progress.Bounded | mognet/worker/worker.py:382-395 | from any state, a stretch of such steps over finitely many ids has no more steps than the work left |
| Progress.Completion | mognet/worker/worker.py:458-462 | in every run, when nothing can move, with no maximum, one process consuming, and no cancellation or no request lost, all accepted requests are ready, all messages acknowledged, and each consuming process's prefetch is back at the minimum, plus one for each id that a fatal error or a cancellation left in the waiting set |
| Saturation.StuckRoots | mognet/app/app_config.py:78-82 | for every maximum and every recursion limit there is a run without faults to a deadlock: nothing moves, a process consumes, a request is not ready, none was lost |
| Saturation.DeadlockIff | mognet/app/app_config.py:78-82 | a run to a deadlock exists if and only if a maximum is set |
| Settlement.FirstSettlementWins | mognet/broker/amqp_broker.py:61-95 | of all acknowledgements and rejections asked for on a delivery, the broker is sent the first and no other |
| Settlement.Payload.Settle | mognet/broker/amqp_broker.py:61-95 | the first call reaches the broker, later ones change nothing |
| Settlement.Holder.SettleMessage | mognet/worker/worker.py:662-674 | on a delivery not settled before, the broker is sent an acknowledgement, a rejection or nothing as the caller chose; on a settled one nothing more |
| Settlement.Holder.CancelTask | mognet/worker/worker.py:676-689 | any number of calls cancel the handler once |
| Settlement.HandleEvents | mognet/worker/worker.py:493-509 | over every interleaving of processor and cancels: the broker is sent one acknowledgement or one rejection, as the first event that asks for a settlement says, and nothing if none asks; and the handler is cancelled once if some cancel reaches it |
| WorkerModel.StartIff | mognet/worker/worker.py:215-324 | a handler is started exactly if its result exists and is not done, its unanswered starts and its depth are within the limits, it is neither late nor unknown, and all ancestors are known and not REVOKED |
| WorkerModel.AncestorsIff | mognet/worker/worker.py:272-288 | the walk over the stack lets a request pass exactly if every ancestor is known and not REVOKED |
| WorkerModel.NearestAncestor | mognet/worker/worker.py:272-288 | the reason given is that of the nearest bad ancestor |
| WorkerModel.GateMeans | mognet/worker/worker.py:204-324 | by conditions: a done or missing result is left alone; else FAILURE beyond max_retries or max_recursion, then REVOKED with a missing or REVOKED ancestor or when late, then INVALID for an unknown task, each with one more stop; else RUNNING on this node with one more start |
| WorkerModel.EndedIff | mognet/worker/worker.py:382-438 | without a fault, a value stores SUCCESS, a timeout REVOKED, another error FAILURE and invalid arguments INVALID, each with one more stop; with one, nothing is stored exactly if no try got so far, an error is fatal exactly if the last try failed, and FAILURE is stored for a handler that returned, with a second stop exactly if the object had changed before |
| WorkerModel.FaultyEnd | mognet/worker/worker.py:382-438 | for each ending and each pair of faults: the stored result, the stored value (that of the ending, the error of the failed store, or none) and whether the failure is fatal |
| WorkerModel.Worker.CheckAncestors | mognet/worker/worker.py:272-288 | the loop over the reversed stack finds what BadAncestor says |
| WorkerModel.Worker.CheckRequest | mognet/worker/worker.py:241-321 | the checks in the order of the code give the verdict of Judge |
| WorkerModel.Worker.Gate | mognet/worker/worker.py:204-324 | the verdict is Judge's; by conditions and in this order, a result that exists and is not done becomes FAILURE (more unanswered starts than max_retries, or too deep), REVOKED (an ancestor is missing or REVOKED, or it is late), INVALID (unknown task), each with one more stop, or RUNNING on this node with one more start; no other result changes, a discard stores its reason, and a discarded request leaves the waiting set |
| WorkerModel.Worker.CarryOut | mognet/worker/worker.py:259-324 | a start is RUNNING on this node with one more start; a discard has one more stop and is FAILURE for retries and depth, INVALID for an unknown task and REVOKED for ancestors and deadline, with its reason stored |
| WorkerModel.Worker.Complete | mognet/worker/worker.py:458-462 | value and outcome stored, one stop counted, the request out of the waiting set and the prefetch adjusted; a failing store leaves the result, a failing clean-up the waiting set as it was |
| WorkerModel.Worker.EndTask | mognet/worker/worker.py:382-438 | if the request still runs here or its arguments were invalid, and nothing fails: what was returned is stored with SUCCESS, the error with REVOKED (timeout), FAILURE or INVALID (arguments), from the handler's own copy with one more stop; with faults, what FaultyEnd says; nothing happens otherwise, no other id's result or value changes, and a failure is fatal unless it is stored as an error of a handler that returned |
| WorkerModel.Worker.PauseTask | mognet/worker/worker.py:396-405 | the holder is dropped, the result suspended from the handler's own copy and the message rejected, if the request still runs here |
| WorkerModel.Worker.RunRequest | mognet/worker/worker.py:204-438 | gate and ending together: a request that starts and meets no fault has one more start and one more stop on this node, the state and the value of its ending, or SUSPENDED for a pause; with faults, what ProcessedFaulty and FaultyEnd say; only a pause settles the message, and it says whether an error leaves it |
| WorkerModel.ProcessedMeans | mognet/worker/worker.py:327-438 | a request that starts and meets no fault ends with one more start and stop, SUCCESS and the returned value, REVOKED, FAILURE or INVALID and the error, or SUSPENDED and the value it had; nothing else changes |
| WorkerModel.ProcessedFaulty | mognet/worker/worker.py:327-438 | a request that starts ends, with any faults, from the row that the gate stored: RUNNING on this node with one more start |
| WorkerModel.Worker.ProcessRequestMessage | mognet/worker/worker.py:483-528 | an uninterrupted delivery sends the broker one settlement: a rejection after a pause or a failure that is not stored as an error of a handler that returned, an acknowledgement otherwise; it ends with no holder, with the result and the value that RunRequest leaves |
| WorkerModel.Worker.Cancel | mognet/worker/worker.py:153-189 | the result becomes SUSPENDED with one more stop only if it is RUNNING on this node, the broker is sent an acknowledgement, a rejection or nothing as asked, the handler is cancelled once, the holder forgotten |
| WorkerModel.Worker.StartConsuming | mognet/worker/worker.py:530-545 | the first call sets the prefetch to waiting plus minimum, or to the maximum below that; a second call changes nothing |
| WorkerModel.Worker.AdjustPrefetch | mognet/worker/worker.py:598-631 | while consuming, the prefetch is waiting plus minimum if there is no maximum or that sum is at most the maximum, else the maximum; nothing while not consuming, and the broker is told only a changed value |
| WorkerModel.Worker.AddWaitingTask | mognet/worker/worker.py:571-573 | the id waits and the prefetch follows |
| WorkerModel.Worker.RemoveSuspendedTask | mognet/worker/worker.py:575-580 | the id waits no longer, if it did, and the prefetch follows |
| WorkerModel.Adjust | mognet/worker/worker.py:598-631 | adjusting keeps the broker's limit equal to the prefetch; while consuming it reaches waiting plus minimum if there is no maximum or that sum is at most the maximum, else the maximum |
| ContextModel.CallsAlternate | mognet/context/context.py:138-160 | for overlapping subtasks, suspends and resumes strictly alternate, and the last was a suspend exactly while a dependency is open |
| ContextModel.Overlap | mognet/context/context.py:127-160 | for every interleaving of calls on distinct requests in one handler, its id is in the worker's waiting set exactly while dependencies are open, and the result's counters and state are those of the alternating calls |
| ContextModel.Context.Suspend | mognet/context/context.py:236-244 | only a RUNNING result is suspended, the handler waits afterwards, and a lost result changes nothing |
| ContextModel.Context.Resume | mognet/context/context.py:285-293 | only a SUSPENDED result is resumed, the handler waits no longer, and a lost result changes nothing |
| ContextModel.Context.BeginRun | mognet/context/context.py:138-149 | the dependency is added, and the first one suspends |
| ContextModel.Context.EndRun | mognet/context/context.py:152-160 | the dependency is removed, and the last one resumes unless cancelled |
| ResultModel.ResultBackend.Get | mognet/backend/redis_result_backend.py:93-108 | a copy of the stored result, or nothing if there is none |
| ResultModel.ResultBackend.GetOrCreate | mognet/backend/base_result_backend.py:54-68 | the stored result, or a new PENDING one that is stored |
| ResultModel.ResultBackend.AddChild | mognet/backend/memory_result_backend.py:53-54 | the child joins its parent's children, the other sets stay |
| ResultModel.Result.Start | mognet/model/result.py:375-387 | RUNNING on the node, one more start, stored |
| ResultModel.Result.Resume | mognet/model/result.py:389-398 | RUNNING, one more start, the node kept, stored |
| ResultModel.Result.Suspend | mognet/model/result.py:400-410 | SUSPENDED, one more stop, stored |
| ResultModel.Result.SetOutcome | mognet/model/result.py:331-373 | value stored, ready state, one more stop, stored; a fault in between leaves the steps before it |
| ResultModel.Result.Revoke | mognet/model/result.py:280-291 | REVOKED, one more stop, stored |
| AppModel.App.Submit | mognet/app/app.py:214-273 | index, result and message in this order: wherever it fails, a sent message has its PENDING result, with the parent's stack and the parent as its stack |
| AppModel.App.Revoke | mognet/app/app.py:381-423 | the control messages are exactly the ids reached through ids that are not done (all ids if forced), each once unless forced, and the results change just as the messages say; it ends on any index unforced, on any acyclic one forced |
| AppModel.RevokeMeans | mognet/app/app.py:381-423 | id by id: reached ones are REVOKED with one more stop for each message (one if unforced), others unchanged; the root comes first unless it is done and the revoke unforced, which then does nothing; forced, the root and all descendants are reached |
| AppModel.RevokeAgain | mognet/app/app.py:396-401 | revoking again, unforced, sends and changes nothing |
| Deletion.DeleteInMemory | mognet/backend/memory_result_backend.py:74-81 | on an acyclic index, result, value and metadata of exactly the id and its descendants go, shared ones included; the index stays; without children, just the id |
| Deletion.DeleteInRedis | mognet/backend/redis_result_backend.py:243-253 | the same three tables lose the same ids although the index shrinks during the walk, and the index loses them too |
| Deletion.DoomedIsDescendants | mognet/backend/memory_result_backend.py:74-77 | what both remove is the id and, with children, its descendants |
| ResultTrees.GetTree | mognet/model/result.py:421-454 | terminates on any index, cycles included, with each node's children a permutation of its existing children, cut at the depth; of two siblings the one created earlier comes first, and one without a creation time counts as created now |
| ResultTrees.GetResultTree | mognet/model/result.py:412-456 | the same from depth 1 |
| ResultTrees.Branches | mognet/model/result.py:429-450 | the branches of the tree are exactly the paths over existing children with at most max_depth levels (one level if max_depth is below 1) |
| ResultTrees.OneTree | mognet/model/result.py:452 | with distinct creation times among siblings, the tree is determined |
| Merge.TailerStep | mognet/tools/backports/aioitertools.py:41-58 | each step of a draining task keeps: per source, the queue has a prefix of its script; the end marker is there exactly when all tasks left, once and last; one step less is left |
| Merge.AsGenerated | mognet/tools/backports/aioitertools.py:14-90 | for every interleaving: it ends; without a raise it yields each source's items in order and then its exception, entry by entry, and the end marker was put once and last; otherwise it raises the first exception put, after exactly the values put before it: prefixes of all sources, all items of the failing one; it raises exactly if exceptions are not returned and some source fails |
| Merge.SomeoneMoves | mognet/tools/backports/aioitertools.py:68-80 | the consumer never waits on an empty queue with all tasks gone |
| Merge.FailFast | mognet/tools/backports/aioitertools.py:74-78 | before the first exception put lie a prefix of each source's items, and all items of the source that failed |
| MemoryBroker.InMemoryBroker.TakeMessage | mognet/broker/memory_broker.py:63-78 | the head of the queue goes out and its rest stays, one delivery is counted, the gate is open exactly while the count is below the prefetch |
| MemoryBroker.InMemoryBroker.AckTask | mognet/broker/memory_broker.py:106-108 | the counter goes down, never below zero, and the gate is open exactly while it is below the prefetch |
| MemoryBroker.InMemoryBroker.PutMessage | mognet/broker/memory_broker.py:32-34 | the message is at the end of its queue, the counter unchanged |
| MemoryBroker.InMemoryBroker.SetTaskPrefetch | mognet/broker/memory_broker.py:110-112 | the prefetch changes and the gate is open exactly while the counter is below it |
| MemoryBroker.Serve | mognet/broker/memory_broker.py:58-112 | the methods, called in any interleaving of publishers, consumers, processors and the worker, leave the state and the deliveries that Run says |
| MemoryBroker.FirstInFirstOut | mognet/broker/memory_broker.py:63-78 | for every interleaving: the messages sent to a queue or rejected from it are, in this order, those delivered from it and then those in it |
| MemoryBroker.DeliveredAgain | mognet/broker/memory_broker.py:28-30 | whatever happened before, a message that is rejected can be delivered again, from its own queue and right after those queued before it |
| MemoryBroker.CounterBound | mognet/broker/memory_broker.py:63-69 | for every interleaving with k consumers, whatever is acknowledged, the counter is at most the highest prefetch ever set + k - 1; with one consumer at most that prefetch |
| MemoryBroker.CounterExact | mognet/broker/memory_broker.py:106-108 | as long as no delivery is acknowledged twice, the counter is the deliveries minus the acknowledgements |
| MemoryBroker.Overshoot | mognet/broker/memory_broker.py:63-69 | the bound is reached for every prefetch and every number of consumers, with nothing acknowledged |
| MemoryBroker.ServesIff | mognet/broker/memory_broker.py:43-45 | until the worker changes its prefetch again, a new broker can deliver something if and only if minimum_concurrency, and the maximum if there is one, are above 1 |
| MemoryBroker.StartWorker | mognet/broker/memory_broker.py:110-112 | after the worker's first call, if it makes one, the broker is in the state that Run says and its event is set exactly when the minimum, and the maximum if there is one, are above 1 |
| Backoff.Retry | mognet/tools/retries.py:73-103 | all calls but the last fail, and it stops only at `attempts` calls or a call that does not fail; it ends as the last call did, with a made-up error exactly if nothing was tried; one wait follows each failure, the first is min(1, timeout), the next is twice the one before or the timeout if that is less; the same in closed form |
| Backoff.RetryRedis | mognet/backend/redis_result_backend.py:28-63 | the same with a first wait of 1, and no error if nothing was tried |
| Backoff.CappedIff | mognet/tools/retries.py:73-88 | the i-th wait is min(2^i, timeout) exactly unless the timeout is negative and i is above 0 |
| Backoff.TotalWait | mognet/tools/retries.py:73-88 | n waits, c of them not capped, take (2^c - 1) + (n - c) * timeout in all |
| Backoff.SchedulesAgree | mognet/backend/redis_result_backend.py:33-51 | the two loops wait alike exactly when the timeout is at least 1 or nothing fails |
| QueueDeclaration.DeclaredOnce | mognet/broker/amqp_broker.py:500-521 | for every interleaving of callers and refusals of the broker, no name is declared twice |
| QueueDeclaration.SameQueue | mognet/broker/amqp_broker.py:500-521 | callers get the same queue exactly if they asked for the same name, and it is bound exactly unless its declarer is still binding or failed to |
| QueueDeclaration.LockIff | mognet/broker/amqp_broker.py:505-521 | in every reachable state a caller has the lock exactly between its acquisition and its return or failure |
| QueueDeclaration.Released | mognet/broker/amqp_broker.py:505-521 | whatever the others do and the broker refuses, whoever has the lock gives it up within three of its turns |
| QueueDeclaration.CanReturn | mognet/broker/amqp_broker.py:500-521 | from every reachable state a caller that has not failed can return its queue |
| QueueDeclaration.UnboundReturn | mognet/broker/amqp_broker.py:503-515 | an interleaving in which a caller returns a queue that is never bound |

## Left out

- Redis, AMQP and aio_pika calls, connections, reconnection, time to live and eviction: replaced by maps, sets and queues.
- JSON, gzip, pickle and pydantic encoding: library behaviour; a validation failure is one possible ending of a handler.
- Clocks: deadlines and timeouts are nondeterministic outcomes.
- `Context.gather`: it waits on arbitrary ids, cyclic ones included, so it has no deadlock property to state.
- Handlers that go on after a swallowed cancellation, or between the rejection of their message and their cancellation, but for the write under way; pauses of a handler that waits.
- Shutdown by `App._stop`, which closes the broker connection before it cancels: the claims about lost, overturned and overwritten results are for open connections.
- Cancellations without a settlement, after the broker connection was lost or closed: the broker gives the messages back while the handlers still run.
- `_cancel_all_tasks`: it clears the waiting set after adjusting the prefetch, and nothing is said of a waiting set after that.
- Priorities, routing to several queues, requests under an unknown message kind.
- Fairness between the consumers of the in-memory broker, and its control queue, whose acknowledgements also lower the counter.
- The in-memory backend's sharing of one `Result` object between readers, and the count limit of its `iterate_children_ids`, which lets through two children more than it is given.
- Control messages lost or late: a cancellation after a revocation may come at any time or never.
- Middleware, services, state backend, heartbeat, logging, command line: plumbing.
- Settlement.Payload.Settle: a broker that refuses a settlement on a lost connection is not modelled; the broker then delivers the message again, as after a crash.
- AppModel.App.Submit: metadata and the middleware called before sending are not modelled.
- Backoff.Retry: the callback between attempts and its lock are not modelled.
- MemoryBroker.ServesIff: control messages, whose acknowledgements would open the gate, are not modelled.
- WorkerModel.Worker.Gate: the stored value of a discarded request is a fixed text for each reason, not the pickled exception.
- WorkerModel.Worker.EndTask: what is stored as the error of a failed store is a fixed text.
- ResultTrees.GetTree: `now_utc()` is one value for all results without a creation time.
