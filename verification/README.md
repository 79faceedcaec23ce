# Deadpool, verified

Deadpool runs Python functions in worker processes, and its remote part shares one such pool between clients over
sockets. This project models the parts of it that are hard to get right: the broker in `deadpool/remote/server.py`, its
fair scheduler, the chunked wire protocol, the worker accounting of the local pool, and the client's future and sender.
`dafny verify dfyconfig.toml` checks everything.

## How it is built

Each part has a *value* (a datatype), functions on that value, and theorems about all runs of those functions. Where the
source is an object that methods update in place, a class with the same fields is proved to compute exactly those
functions: `FairScheduler`, `DeadpoolServer`, `MessageReader`, `RemoteFuture`, `LimitedWriter`, and the loops
`ValidateNesting`, `SendMessage`, `FitTerminalDescriptor`, `Dumps` and `ExecuteOpaque`.

* **Scheduler** (`Scheduler`, `Fairness`, `FairScheduler`). A map from priority and principal to FIFO streams with one
  round-robin ring for each priority; fairness over arbitrary interleavings of `put`, `put_front`, `remove` and `pop`.
* **Broker** (`BrokerState`, `BrokerInvariant`, `Broker*`). Every region the server runs under its lock is one function on
  the broker's value, and one constructor of `Action`; `Next` is a step of the whole system. The dispatch loop is four
  regions (stage, offer to the pool, restore / give up / watch) with anything in between, and `local_future.cancel()` runs
  the done-callback inside the region that cancels, as in the source. Sessions, requests and dispatch attempts are named
  by position, which stands for object identity, so an attempt outlives a request that was acknowledged and dropped.
  `BrokerInvariant` says what holds in every reachable state; `BrokerWithin` to `BrokerTheorems` prove it step by step,
  and `BrokerGuarantees` states what follows. `BrokerAnswers` says what each message and answer does, in terms of the message
  and the state before it alone, and `BrokerOrder` which request is staged. `BrokerAbandoned` and `BrokerRelease` settle when the work of a departed
  client is let go, `BrokerExamples` holds concrete runs, and `BrokerServer` the object.
* **Protocol** (`Json`, `JsonReader`, `Utf8`, `Protocol`, `FrameRules`, `Reassembly`, `Interleaving`, `Descriptor`, `Headers`).
  The compact JSON printer and the lexical nesting scanner; a reader written from RFC 8259 alone, which gives back what was
  printed; UTF-8 with truncation; splitting and reassembly; the descriptor that is cut to fit a frame.
* **Local pool** (`Pool`, `PoolSteps`, `PoolGuarantees`, `PoolJobs`, `PoolTurns`, `PoolOrphans`, `PoolSupply`, `PoolWaiting`,
  `PoolExamples`). The runner and its task threads with a program counter each and one step for each read and write of what
  they share, so that every decision may rest on stale counts; whatever a task does outside its own `try` blocks may raise.
* **Client** (`RemoteFuture`, `Client`, `ClientSteps`, `ClientStory` and `ClientOrder`, which judge the client by the history of
  its steps, and `CompletionLane` with the slots of the completion lane) and **worker** (`Worker`).

## Assumptions

The source does not enforce these, and the theorems that need them say so.

* A SUBMIT that is admitted finds its session registered (`BrokerSteps.Orderly`). The check at `server.py:485` and the
  handling at 487 are not atomic with the purge at 1009-1012. The assumption is the weakest one
  (`BrokerGuarantees.OrderlyIsNecessary`): a step keeps the invariant if and only if it holds of the step.
  `UnregisteredSubmit` gives the branches of `_submit` that stop such a message, and `BrokerExamples.LateSubmit` is a run
  from the start of a server in which none of them does.
* Client ids contain no colon and are distinct, as `client.py:92` makes them; a request id is a client id and a sequence
  number here.
* A worker's outcome payload is within the limit it was given, which `Worker.ExecuteOpaque` proves for the worker's code
  and `BrokerState.Permitted` requires of the step that delivers it.

## What the source does not quite do

* A request that is decided after its client left, without a callback that runs at once, stays retained until some other
  callback of its session purges it. `BrokerRelease.ReleasedLaterExactlyWhen` says when that can still happen: while some
  request of the session has an attempt under way, or is undecided and the dispatch loop may stage it. Otherwise the
  session keeps what it has through every later run (`BrokerAbandoned.AbandonedForGood`). Under the `continue` policy a
  client's only request reaches that state by expiring (`BrokerExamples.ContinueKeepsExpired`), though the comment at
  `server.py:1228-1232` says that such requests purge themselves; after an unclean disconnect the other two policies leave
  no such request behind (`BrokerGuarantees.DepartedSessionEnds`).
* The comment at `server.py:853-856` says that `put_front` does not change the principal's round-robin position. The ring
  has been rotated by the `pop` before it, so the principal comes up one whole turn later
  (`SchedulerSpec.PopThenPutFront`, `BrokerGuarantees.RefusedOfferUndone`).
* `fut.set_exception(e)` at `_pool.py:590` raises for a future that is already cancelled, past `done_with_process`; so does
  any error of `submit_job`, `before_submit` or `after_submit` that lines 584 and 593 do not list, and an error in the result
  loop at 620-669 while it polls the worker or describes its death. In the model these and no other steps leave a worker in
  `busy_workers` that no thread has (`PoolGuarantees.OrphanedExactlyWhen`), and it stays there (`OrphanForGood`). Once as
  many workers are lost as the pool is large no worker is ever added again: the workers that are left only become fewer, one
  for each further loss, and when none is left no job is offered to a worker in any later run
  (`PoolOrphans.SupplyOnlyFalls`, `OrphanCosts`, `NoSupplyStarves`, `PoolGuarantees.StarvedForGood`); in a pool of size one
  that is with the first (`OrphanStarvesOne`). With fewer lost the pool may still fill up: a worker on its way through
  `done_with_process` is in neither count (`PoolExamples.OrphanAndFullPool`). `PoolExamples.LeakedPoolHangs` is a run from a
  new pool to a task that waits for good.
* A future completed between the check at `_pool.py:688` and `set_exception` at 689 leaves a token in `running_jobs`, and no
  other step does (`PoolGuarantees.TokenLostExactlyWhen`). That many fewer jobs run at once from then on
  (`ExcessForGood`); in a pool of size one none does (`PoolExamples.LostTokenStops`).
* A thread waiting in `get_process` can always be served, in every run that loses no worker, if and only if `min_workers` is
  at least one or the pool is of size one (`PoolWaiting.ServableExactlyWhen`). Otherwise two threads may count on the same
  last idle worker; the first retires it and the second waits for nobody until another task is submitted
  (`WithoutMinimumNobodyServes`, for every such size).
* The completion lane of the client is one thread, and `_complete` may find there that its acknowledgement cannot be queued
  (`client.py:484-487`). It then runs the loop of `_connection_lost` itself and takes slots (`client.py:676`) that only the
  lane gives back. That can block, and then for good, if and only if some future is to be failed and those, with a frame the
  receiver still has in hand, are more than the slots that queued work and this work leave
  (`CompletionLane.AckFailureBlocksExactlyWhen`, `StuckForGood`). `LaneBlocks` is such a run for every `inbound_queue_size`.
* A frame that the chunk reader refuses may still change it; `Reassembly.RefusalLeavesReader` says when it does not. In
  particular a first frame refused because the aggregate is too large (`_protocol.py:407-408`) leaves its control behind,
  and the class would complete the message with the payload of a later frame (`RefusedControlSurvives`). This is about the
  class alone: both programs abandon the connection when it raises (`server.py:477-490`, `client.py:356-360`).

## Model

| member | source | states |
|---|---|---|
| SchedulerSpec.PutStreams | deadpool/remote/_scheduler.py:34-53 | putting an item changes one stream, at the end asked for, and no other |
| SchedulerSpec.PopStreams | deadpool/remote/_scheduler.py:55-71 | pop takes the head of the stream whose turn it is and leaves every other stream |
| SchedulerSpec.RemoveStreams | deadpool/remote/_scheduler.py:73-92 | remove takes one item out of one stream and leaves all others and their order |
| SchedulerSpec.PopThenPutFront | deadpool/remote/_scheduler.py:30-71 | pop then put_front restores every stream and rotates that one ring by one |
| Fairness.AtMostOnceBeforeMyTurn | deadpool/remote/_scheduler.py:34-92 | while a principal stays backlogged and is not served, every other principal is served from its bucket at most once, over any run of operations |
| Fairness.BetweenConsecutiveServices | deadpool/remote/_scheduler.py:34-92 | between two consecutive services of a principal that stays backlogged, everyone else is served at most once |
| Fairness.InFrontUntilServed | deadpool/remote/_scheduler.py:34-92 | a principal ahead in the ring stays ahead of a backlogged one until it is served or leaves |
| Fairness.EveryoneElseFirst | deadpool/remote/_scheduler.py:55-92 | a principal ahead of another, both backlogged throughout, is served before it |
| FairSchedulers.FairScheduler.Put | deadpool/remote/_scheduler.py:27-53 | the object holds the value with the item at the end of its stream |
| FairSchedulers.FairScheduler.PutFront | deadpool/remote/_scheduler.py:30-53 | the object holds the value with the item at the head of its stream |
| FairSchedulers.FairScheduler.Pop | deadpool/remote/_scheduler.py:55-71 | the item is the head of a least-priority stream whose turn it is; none exactly when empty |
| FairSchedulers.FairScheduler.Remove | deadpool/remote/_scheduler.py:73-92 | found exactly when some stream has the item, and then one occurrence is gone |
| BrokerServer.DeadpoolServer.constructor | deadpool/remote/server.py:229-290 | a new server is the initial value |
| BrokerServer.DeadpoolServer.Handshake | deadpool/remote/server.py:579-612 | registers a session for a new client within the connection limit, with the least of four result limits |
| BrokerServer.DeadpoolServer.Send | deadpool/remote/server.py:162-174 | a closed connection changes nothing; the log grows by this entry and only on an open connection; a frame that is not queued leaves the connection closed; the queue stays within its size and other connections are untouched |
| BrokerServer.DeadpoolServer.Submit | deadpool/remote/server.py:711-801 | the object after a SUBMIT is exactly the value's `Submitted`: resend, stale, refused or admitted |
| BrokerServer.DeadpoolServer.Acceptable | deadpool/remote/server.py:724-764 | the loop and comparisons decide exactly `Admissible` |
| BrokerServer.DeadpoolServer.StageNext | deadpool/remote/server.py:811-830 | pops one request and attaches a new attempt, or waits, exactly as the step `Stage` |
| BrokerServer.DeadpoolServer.Restore | deadpool/remote/server.py:852-867 | a refused attempt gives its slot back and a request still queued goes in front |
| BrokerServer.DeadpoolServer.GiveUp | deadpool/remote/server.py:868-869 | any other refusal completes the request |
| BrokerServer.DeadpoolServer.Watch | deadpool/remote/server.py:870-876 | the loop is free, the offered attempt alone is watched, its record alone drops the invocation, and the slot stays taken |
| BrokerServer.DeadpoolServer.ExpireQueued | deadpool/remote/server.py:878-894 | the loop over a snapshot, with re-entrant callbacks, is the pass over the requests |
| BrokerServer.DeadpoolServer.ClaimDispatch | deadpool/remote/server.py:896-937 | state and answer are exactly the value's claim |
| BrokerServer.DeadpoolServer.PoolDone | deadpool/remote/server.py:939-945 | the done-callback completes an attempt that is not over yet |
| BrokerServer.DeadpoolServer.CompleteLocal | deadpool/remote/server.py:947-1013 | decide, give the slot back, purge a closed session |
| BrokerServer.DeadpoolServer.TerminalLocked | deadpool/remote/server.py:1015-1033 | the first decision stands and is sent |
| BrokerServer.DeadpoolServer.CancelLocal | deadpool/remote/server.py:1052-1066 | cancelling a pending future runs an armed callback inside the same region |
| BrokerServer.DeadpoolServer.CancelRequest | deadpool/remote/server.py:1035-1076 | cancels what is queued, terminates what is running if hard and authorized, and answers with what it did |
| BrokerServer.DeadpoolServer.CancelGroup | deadpool/remote/server.py:1078-1131 | the same for every request of a group |
| BrokerServer.DeadpoolServer.SendRecord | deadpool/remote/server.py:1152-1172 | resends the present state |
| BrokerServer.DeadpoolServer.Acknowledge | deadpool/remote/server.py:663-670 | forgets a decided request |
| BrokerServer.DeadpoolServer.CloseCleanly | deadpool/remote/server.py:671-685 | a session closes cleanly only when all its requests are decided |
| BrokerServer.DeadpoolServer.Disconnect | deadpool/remote/server.py:1190-1235 | the loop over the session's requests under each policy, then the purge |
| BrokerServer.DeadpoolServer.ReleaseReservation | deadpool/remote/server.py:1237-1244 | both counters of session and server go down once |
| BrokerServer.DeadpoolServer.RemoveRequest | deadpool/remote/server.py:1246-1254 | a registered session's request is released and dropped everywhere |
| BrokerServer.DeadpoolServer.PurgeSession | deadpool/remote/server.py:1256-1263 | decided requests are forgotten and an empty session ends |
| BrokerServer.DeadpoolServer.Shutdown | deadpool/remote/server.py:1303-1312 | SERVING gives way to DRAINING and nothing else changes state; cancel is sticky; the deadline never moves later and is never later than the one asked for |
| BrokerServer.DeadpoolServer.FinishShutdown | deadpool/remote/server.py:1327-1370 | one round of the draining loop |
| BrokerTheorems.StepKeepsInvariant | deadpool/remote/server.py:691-1263 | every step of the system keeps every invariant and takes back nothing final |
| BrokerTheorems.ReachableInvariant | deadpool/remote/server.py:229-1386 | the invariant holds in every state a server can reach |
| BrokerDispatch.CompleteDispatch | deadpool/remote/server.py:947-1013 | queue, slots, attempts and claims are consistent after a completion, also a nested one |
| BrokerDispatchSteps.StagedDispatch | deadpool/remote/server.py:813-830 | staging keeps the queue exact and the slots within the limit |
| BrokerDispatchSteps.RestoredDispatch | deadpool/remote/server.py:852-867 | restoring keeps the queue exact: the request is queued again, once, in its own stream |
| BrokerDispatchSteps.ClaimingAttempt | deadpool/remote/server.py:896-937 | a refused claim finds its future done already, a granted one leaves the request claimed |
| BrokerRetention.AdmitKept | deadpool/remote/server.py:727-799 | an admission reserves for exactly one more request within all limits |
| BrokerRetention.PurgeKept | deadpool/remote/server.py:1256-1263 | a purge leaves exactly the undecided requests, or no session |
| BrokerDepartureSteps.DisconnectedHome | deadpool/remote/server.py:1190-1225 | right after an unclean disconnect only running requests are left |
| BrokerLog.ResendLog | deadpool/remote/server.py:1152-1172 | resending keeps the order of frames |
| BrokerDecides.VisitAllDecides | deadpool/remote/server.py:878-894 | a pass over a snapshot decides a request if and only if it visits it with a verdict, whatever callbacks run in between |
| BrokerDecides.VisitAllReported | deadpool/remote/server.py:1195-1225 | and with exactly the terminal frame it had coming at the start of the pass |
| BrokerGuarantees.DecidedExactlyWhen | deadpool/remote/server.py:878-1235 | a step decides a request if and only if a condition readable before the step holds, and then the request is terminal with one frame, whose verdict, text and payload are written out for each kind of step |
| BrokerGuarantees.CancelledBeforeClaimNeverRuns | deadpool/remote/server.py:896-937 | a request decided while queued is never written to a worker, never reported running and keeps its verdict, over any later run |
| BrokerGuarantees.ClaimWins | deadpool/remote/server.py:896-928 | a claimed request outlives soft cancels, queue expiry, broken-pipe retries and everything aimed at other requests, over any run that does not itself hard-cancel it, disconnect its session under `terminate`, pass the shutdown deadline or deliver its result |
| BrokerGuarantees.RetainedIdsUnique | deadpool/remote/server.py:766-783 | no two retained requests share an id, which is what the dictionaries keyed by it need |
| BrokerGuarantees.ResubmitOnlyResends | deadpool/remote/server.py:711-719 | a repeated SUBMIT of a retained id resends its state and changes nothing else |
| BrokerGuarantees.ReleasedIdStaysStale | deadpool/remote/server.py:720-722 | an id that was admitted and released never becomes a request again |
| BrokerGuarantees.FrameTrace | deadpool/remote/server.py:1015-1033 | the frames of every request are ACCEPTED, then RUNNING, then copies of one terminal frame, and none is withheld on an open connection |
| BrokerGuarantees.NoRequestIsLost | deadpool/remote/server.py:784-801 | accepted is terminal plus live, and every live request is retained |
| BrokerGuarantees.DrainComplete | deadpool/remote/server.py:1327-1370 | from STOPPING on every admitted request is decided and none is admitted |
| BrokerGuarantees.DisconnectReleases | deadpool/remote/server.py:1190-1225 | after an unclean disconnect only running requests are retained, and none under `terminate` |
| BrokerGuarantees.DepartedSessionEnds | deadpool/remote/server.py:1009-1013 | later only work still in a worker is retained, and with the last of it the session, its client id and its reservations are gone |
| BrokerGuarantees.CallbackReleases | deadpool/remote/server.py:939-1013 | a callback gives back one slot, decides an undecided request with exactly what its future holds, absorbs a late result, and forgets the request of a closed connection |
| BrokerGuarantees.SlotsNeverStranded | deadpool/remote/server.py:823-876 | the staged count is the number of attempts not over, within the limit, and each of them has its callback or is with the dispatch loop |
| BrokerGuarantees.PoppedIsQueued | deadpool/remote/server.py:820-825 | what the dispatch loop pops is always queued: the skip at 824 never happens |
| BrokerGuarantees.RetainedOutcomesFit | deadpool/remote/server.py:1237-1263 | reservations equal what is retained, within four limits, and retained payloads fit in them |
| BrokerGuarantees.AdmittedLast | deadpool/remote/server.py:795-797 | an admitted request is last in its principal's stream |
| BrokerAnswers.SubmitAdmitted | deadpool/remote/server.py:765-800 | an admitted SUBMIT becomes one request whose id, digest, payload, group, priority and deadline are the message's and whose principal and reserve are the session's, last in the stream of that priority; no other stream, request or session changes |
| BrokerAnswers.AdmissibleExactlyWhen | deadpool/remote/server.py:724-764 | it is admitted if and only if the server is serving, eight counts of what is retained leave room, the payload is within its limit, and operation, authorization and numbers are in order |
| BrokerAnswers.SubmitNotAdmitted | deadpool/remote/server.py:711-764 | otherwise it is ignored, answered with the present state, or refused, and at most the watermark moves |
| BrokerOrder.ReachableStagesForemost | deadpool/remote/server.py:823-830 | in every reachable state, what the loop stages is a waiting request of the least priority, and the first admitted of its principal at that priority |
| BrokerOrder.StagesExactlyWhen | deadpool/remote/server.py:811-822 | it stages if and only if it is free, the server takes work, a slot is left and a request waits |
| BrokerOrder.SubmittedForGood | deadpool/remote/server.py:772-796 | priority, principal, group, reserve and deadline stay as submitted through every later run |
| BrokerAnswers.ResultDelivered | deadpool/remote/server.py:947-1033 | the client gets one frame with the verdict, text and value the worker returned, and retains them |
| BrokerAnswers.AcknowledgeReleases | deadpool/remote/server.py:663-670 | the acknowledgement of a decided request takes it out of both lists, keeping the order of the rest, and gives back one outcome and its bytes to session and broker |
| BrokerAnswers.AcknowledgeNothing | deadpool/remote/server.py:663-670 | of an undecided or unknown request, or after the disconnect, it changes nothing |
| BrokerAnswers.CloseExactlyWhen | deadpool/remote/server.py:671-685 | a session is marked cleanly closed if and only if none of its requests is undecided |
| BrokerAnswers.StopsExactlyWhen | deadpool/remote/server.py:1327-1370 | a draining server moves to STOPPING if and only if everything retained is decided or the deadline has come |
| BrokerAnswers.ShutdownExactly | deadpool/remote/server.py:1303-1312 | a shutdown request starts draining, remembers any request to cancel and keeps the earliest deadline |
| BrokerAnswers.PostedTo | deadpool/remote/server.py:162-174 | a frame for an open connection with room is one entry more in its queue, and nothing else changes |
| BrokerAnswers.NotPosted | deadpool/remote/server.py:162-174 | otherwise it is not sent and the connection is closed |
| BrokerAnswers.HandshakeExactlyWhen | deadpool/remote/server.py:579-612 | a session is registered if and only if the client id is free and the principal below its connection limit; its result limit is the least of four |
| BrokerAnswers.ClaimGrants | deadpool/remote/server.py:919-937 | a granted claim marks the request running, publishes the worker's pid, tells the client and touches nothing else |
| BrokerAnswers.ClaimRefusedExactlyWhen | deadpool/remote/server.py:904-922 | a claim is refused if and only if the request is decided or past its queue time, and then the worker never has it |
| BrokerAnswers.DisconnectLeaves | deadpool/remote/server.py:1190-1235 | a disconnected session keeps only undecided requests, all of them after a clean close or under `continue`, and ends when none is left |
| BrokerAnswers.CancelReplyTruthful | deadpool/remote/server.py:1035-1076 | the answer to a cancellation says what became of the request |
| BrokerGuarantees.RefusedOfferUndone | deadpool/remote/server.py:852-867 | staging and a full pool leave every stream, the slots and the requests as they were, one turn later |
| BrokerGuarantees.UnregisteredSubmit | deadpool/remote/server.py:704-764 | a SUBMIT after the purge keeps the books right if and only if one of the earlier branches stops it: disconnected, another client's id, a stale sequence, or not admissible |
| BrokerGuarantees.OrderlyIsNecessary | deadpool/remote/server.py:485-487 | a step keeps the invariant if and only if it is not an admitted SUBMIT of an unregistered session |
| BrokerExamples.LateSubmit | deadpool/remote/server.py:947-1013 | a run from the start in which a result purges a session whose reader still admits a SUBMIT, which the books then miss |
| BrokerGuarantees.QueuedDecisionReleased | deadpool/remote/server.py:878-894 | deciding a queued request of a closed session forgets it at once if and only if its callback is armed |
| BrokerAbandoned.AbandonedForGood | deadpool/remote/server.py:1009-1013 | a departed session without an attempt under way and without a request to stage retains the same requests through every later run |
| BrokerRelease.ReleasedLaterExactlyWhen | deadpool/remote/server.py:1009-1013 | a decided request of a departed client is forgotten in some later run if and only if its session has an attempt under way, or an undecided request the loop may stage |
| BrokerRelease.ReleasingRun | deadpool/remote/server.py:803-876 | and then offering, failing and ending the work in turn reaches its release |
| BrokerExamples.ContinueKeepsExpired | deadpool/remote/server.py:1226-1234 | a run from the start under `continue` after which an expired request is retained whatever happens later |
| Json.ValidateNesting | deadpool/remote/_protocol.py:105-126 | the scanner accepts exactly the texts that never open more than thirteen containers at once |
| Json.PrintedBalanced | deadpool/remote/_protocol.py:193-200 | scanning a printed tree ends where it began, and its peak is the container nesting of the tree |
| Json.ScannerAgrees | deadpool/remote/_protocol.py:105-200 | the scanner ends outside strings at depth zero and never refuses what the validator accepts |
| JsonReader.StringReads | deadpool/remote/_protocol.py:193-200 | reading a printed string as section 7 of RFC 8259 says, surrogate pairs included, gives the string back |
| JsonReader.PrintedReads | deadpool/remote/_protocol.py:193-200 | reading a printed value as RFC 8259 says gives the value back |
| JsonReader.PrintInjective | deadpool/remote/_protocol.py:193-200 | different values print differently |
| Headers.ValidEverywhere | deadpool/remote/_protocol.py:162-190 | the recursive validator accepts a value if and only if every node in it is acceptable and none deeper than twelve |
| Headers.EncodesExactlyWhen | deadpool/remote/_protocol.py:193-200 | and a header is sent if and only if that holds and its text is within the control limit |
| Headers.HeaderReads | deadpool/remote/_protocol.py:237-257 | a printed frame header reads back as itself |
| Utf8.CutDecodes | deadpool/remote/server.py:1468-1476 | an encoding cut anywhere decodes, malformed bytes ignored, to the code points that fit whole |
| Utf8.TruncateFits | deadpool/remote/server.py:1468-1476 | the truncated text is within the limit, never splits a code point and keeps as many as fit before the marker |
| Utf8.PrintedSizeMonotone | deadpool/remote/server.py:1408-1476 | a larger budget never prints shorter, also where the marker gives way to the full text |
| Descriptors.FitsMonotone | deadpool/remote/server.py:1453-1465 | a descriptor that prints no longer fits wherever the longer one does |
| Descriptors.LargestFit | deadpool/remote/server.py:1432-1445 | the binary search finds the largest budget that fits: its text fits, and no text that fits prints longer |
| Descriptors.FitTerminalDescriptor | deadpool/remote/server.py:1408-1450 | all fields, or the best remainder in removal order, and a result that fits exactly when the empty one does |
| Descriptors.LessWorthFirst | deadpool/remote/server.py:1424-1450 | a field is shortened only when every field of less diagnostic worth is empty |
| Headers.BoundedKeeps | deadpool/remote/server.py:1415-1420 | a field within the metadata limit is kept as it is, of a longer one as many whole code points as fit before the marker |
| Headers.ControlCarries | deadpool/remote/server.py:1460-1462 | each field is in the control under its own name, and nothing else but the request id is |
| Headers.FittedIsSent | deadpool/remote/server.py:1453-1465 | a descriptor that fits is sent whole: none of the message's frames is too large |
| Protocol.SplitCount | deadpool/remote/_protocol.py:224-234 | the number of chunks is the rounded-up quotient, at least one |
| Protocol.SplitAt | deadpool/remote/_protocol.py:260-275 | the slice sent at an index is that chunk of the payload |
| Protocol.SendMessage | deadpool/remote/_protocol.py:260-295 | the frames of a message go out in order, all of them unless a header is too large |
| Protocol.MessageReader.Accept | deadpool/remote/_protocol.py:364-426 | verdict and reader are exactly those of the value, also where the source raises half way |
| Protocol.HeaderSays | deadpool/remote/_protocol.py:237-257 | a header has exactly its six keys, each with its value |
| FrameRules.TakenExactlyWhen | deadpool/remote/_protocol.py:364-426 | a frame is taken if and only if its header is in order, it is the next of its message and its payload fits; then it becomes the next part, or the last part gives the message out |
| Reassembly.AnyFramesAreBounded | deadpool/remote/_protocol.py:364-426 | for any frames the bytes held are the sum of the parts, both limits hold, and parts come from logged frames in order |
| Reassembly.DeliveredIsGenuine | deadpool/remote/_protocol.py:413-426 | a delivered message is the concatenation of exactly `count` frames of one id with the declared total and digest |
| Reassembly.RefusalLeavesReader | deadpool/remote/_protocol.py:364-426 | when a frame raises, the reader is unchanged if and only if it failed before its partial message was touched, or it was a whole message of its own |
| Reassembly.RefusedControlSurvives | deadpool/remote/_protocol.py:390-411 | two frames: the first is refused for its size, the second delivers a message with the control of the first |
| Interleaving.SplitConcat | deadpool/remote/_protocol.py:260-295 | the chunks put together are the payload |
| Interleaving.FrameArrives | deadpool/remote/_protocol.py:364-426 | one more frame moves the reader to the next state and delivers at the last |
| Interleaving.InterleavedRoundTrip | deadpool/remote/_protocol.py:224-426 | any interleaving within the limits raises nothing, delivers each message exactly at its last frame and leaves the reader empty |
| Pool.RoomForOne | deadpool/_pool.py:494-512 | a thread without a worker leaves room for one more |
| PoolGuarantees.StepKeepsPool | deadpool/_pool.py:463-694 | every step of runner and threads keeps the accounts of workers, tokens and jobs |
| PoolGuarantees.WorkersWithinSize | deadpool/_pool.py:494-560 | idle, held and promised workers never exceed the pool size despite stale reads, and no worker is shared |
| PoolGuarantees.TokenAlwaysThere | deadpool/_pool.py:463-492 | one token for each live thread and the runner's job; the `Empty` branch is unreachable |
| PoolGuarantees.RemovePairsWithAdd | deadpool/_pool.py:503-517 | each done_with_process finds the worker its get_process registered |
| PoolGuarantees.BusyIsHeldOrLeaked | deadpool/_pool.py:494-560 | `busy_workers` holds workers of running tasks and leaked ones only |
| PoolGuarantees.OrphanedExactlyWhen | deadpool/_pool.py:565-669 | a step leaves a worker in `busy_workers` without a thread exactly when sending the job or awaiting its result fails past done_with_process |
| PoolGuarantees.OrphanForGood | deadpool/_pool.py:494-560 | such a worker is never idle, held or out of `busy_workers` again |
| PoolGuarantees.OrphanStarvesOne | deadpool/_pool.py:494-512 | with one worker the first of them starves the pool |
| PoolGuarantees.StarvedForGood | deadpool/_pool.py:494-512 | in a starved pool no thread has a worker in any later run, whatever is submitted |
| PoolGuarantees.WaitsForGood | deadpool/_pool.py:504 | a thread waiting for a worker there waits for good, and the unfinished count never reaches zero |
| PoolGuarantees.TokenLostExactlyWhen | deadpool/_pool.py:685-694 | tokens beyond those of live threads and the runner grow by one exactly when the future is completed between check and set_exception, and never otherwise change |
| PoolGuarantees.ExcessForGood | deadpool/_pool.py:463-492 | each such token means one job fewer at once in every later run, and with `size` of them none |
| PoolExamples.LeakedPoolHangs | deadpool/_pool.py:576-592 | a run from a new pool of one worker after which the next task waits whatever happens |
| PoolExamples.LostTokenStops | deadpool/_pool.py:685-694 | a run from a new pool of one worker after which no task gets a thread, with the worker idle |
| PoolExamples.OrphanAndFullPool | deadpool/_pool.py:494-560 | a run after which one worker is orphaned and as many are idle or held as the pool is large |
| PoolOrphans.SupplyOnlyFalls | deadpool/_pool.py:494-502 | with as many orphans as the pool is large, the workers idle, held or still to be added never become more in any later run |
| PoolOrphans.OrphanCosts | deadpool/_pool.py:576-592 | every orphan takes exactly one away |
| PoolOrphans.NoSupplyStarves | deadpool/_pool.py:494-512 | and with none left the pool is starved |
| PoolSupply.WaiterIsServed | deadpool/_pool.py:494-560 | with a minimum of one and no worker lost, a thread that finds no idle worker has another that holds or adds one, and the others' own steps bring one to the idle queue |
| PoolWaiting.OneNeverWaits | deadpool/_pool.py:494-504 | in a pool of one that loses no worker a thread never waits without an idle one, whatever the minimum |
| PoolWaiting.WithoutMinimumNobodyServes | deadpool/_pool.py:526-536 | without a minimum, in every pool of two or more: a run that loses no worker after which a thread waits for nobody until another task is submitted |
| PoolWaiting.ServableExactlyWhen | deadpool/_pool.py:494-560 | waiting threads can always be served by the others' own steps, and always have another thread that supplies one, if and only if the minimum is at least one or the size is one |
| PoolGuarantees.FinishedOnce | deadpool/_pool.py:470-488 | a job is counted off once, whether run, skipped or cancelled |
| PoolGuarantees.JoinedMeansQuiet | deadpool/_pool.py:804-805 | when join returns every job is finished and no thread has a worker |
| PoolJobs.TakenExactlyWhen | deadpool/_pool.py:463-470 | a job is taken if and only if no waiting one has a smaller priority, nor the same and an earlier submission |
| PoolJobs.OneIsNext | deadpool/_pool.py:118-122 | and whenever jobs wait exactly one is |
| PoolJobs.DoneExactlyWhen | deadpool/_pool.py:565-694 | a future is completed if and only if it is cancelled, its worker answers or dies, its arguments cannot be pickled, every offer broke, or its thread ends with nothing set |
| PoolJobs.JoinedMeansDone | deadpool/_pool.py:685-689 | in every run, once no task is unfinished and no thread is left, every future is done |
| PoolJobs.GivesUpExactlyWhen | deadpool/_pool.py:564-614 | over any run, a thread tries again after a broken pipe if and only if fewer than ten of its offers broke |
| PoolTurns.GetProcess | deadpool/_pool.py:494-504 | undisturbed, a worker is added if and only if none is idle and fewer than the pool size are busy |
| PoolTurns.GiveBack | deadpool/_pool.py:514-536 | undisturbed, a worker is retired if and only if more than the minimum exist and no job waits |
| PoolTurns.Judged | deadpool/_pool.py:536-560 | a fit worker is idle again, any other is replaced by a new one |
| PoolTurns.FailureReported | deadpool/_pool.py:685-694 | whatever raises on the way, the job is counted off once, its future is done and its token given back |
| PoolTurns.StartsExactlyWhen | deadpool/_pool.py:463-492 | a thread is started if and only if the runner has a task whose future is not done |
| PoolTurns.SentinelStops | deadpool/_pool.py:470-479 | once the runner has the sentinel no job starts in any later run |
| RemoteFutures.RemoteFuture.Cancel | deadpool/remote/_future.py:51-70 | decides locally exactly while the request never left |
| RemoteFutures.RemoteFuture.SetSent | deadpool/remote/_future.py:117-122 | marks and allows sending exactly while undecided |
| RemoteFutures.RemoteFuture.SetOutcome | deadpool/remote/_future.py:140-164 | the first outcome stands and its callbacks are handed over |
| RemoteFutures.RemoteFuture.AddDoneCallback | deadpool/remote/_future.py:79-92 | registers while undecided and invokes afterwards |
| RemoteFutures.CallbacksExactlyOnce | deadpool/remote/_future.py:79-183 | over any interleaving of regions every callback is handed over exactly once |
| RemoteFutures.NothingWaits | deadpool/remote/_future.py:79-92 | after the dispatch later callbacks run at once, in order |
| RemoteFutures.FirstDecides | deadpool/remote/_future.py:51-164 | over any interleaving the outcome is the first result, error or early cancellation, the state tells which, and before it the state is the last mark |
| ClientSteps.StepKeepsClient | deadpool/remote/client.py:223-691 | every step keeps the client honest and every future covered |
| ClientSteps.NotAcceptedNeverWritten | deadpool/remote/client.py:623-673 | a future failed as not accepted because it was local at the loss was never written and never will be |
| ClientSteps.LocalCancelNeverWritten | deadpool/remote/client.py:329-347 | when cancel decides locally no byte of the request is ever written |
| ClientSteps.NobodyWaitsAfterLoss | deadpool/remote/client.py:623-665 | when the loss is worked off every future registered at it is decided |
| ClientStory.ConclusionsExact | deadpool/remote/client.py:644-665 | in every run, a loss concludes not accepted exactly of what was never marked, outcome unknown exactly of what was marked and not heard of since, and possibly run exactly of what was heard of |
| ClientStory.OutcomesExact | deadpool/remote/client.py:361-512 | a future's outcome is the first thing in the history that decides it |
| ClientStory.FailuresRight | deadpool/remote/client.py:644-673 | so a future that failed with such a conclusion carries the right one |
| ClientOrder.ReceivedResultStands | deadpool/remote/client.py:389-391 | a result received before the loss looks at its future is never given up for lost |
| ClientOrder.SentInOrder | deadpool/remote/client.py:329-347 | requests are taken for sending exactly in the order they were enqueued |
| ClientOrder.WorkedInOrder | deadpool/remote/client.py:675-687 | the completion lane works off what it is handed in order, each once |
| ClientOrder.KeptExactlyWhile | deadpool/remote/client.py:667-691 | a request is kept from its registration until it is withdrawn, settled or found decided by the sender, and no other step changes that |
| CompletionLane.RunsAreClientRuns | deadpool/remote/client.py:674-691 | every run with slots is a run of the client, so its theorems hold there |
| CompletionLane.BlocksExactlyWhen | deadpool/remote/client.py:644-676 | a loss loop run by the lane thread can block if and only if its failures and the receiver's last frame are more than the free slots |
| CompletionLane.AckFailureBlocksExactlyWhen | deadpool/remote/client.py:478-491 | the same at the failed acknowledgement, counted in futures to fail and queued work |
| CompletionLane.StuckForGood | deadpool/remote/client.py:674-691 | a blocked lane runs nothing in any later run, and a future is decided only by its own cancellation |
| CompletionLane.LaneBlocks | deadpool/remote/client.py:478-491 | a run into that block from a new client, for any number of slots |
| Worker.LimitedWriter.Write | deadpool/remote/serializer.py:75-82 | refuses a chunk above the limit before keeping any of it |
| Worker.Dumps | deadpool/remote/serializer.py:57-60 | the whole value within the limit, or nothing |
| Worker.ExecuteOpaque | deadpool/remote/_worker.py:19-59 | one of four outcomes, its payload within the limit |

## Left out

- DeadpoolServer: requests, sessions and attempts are values in sequences named by position, not objects that alias; the
  scheduler is the real object.
- BrokerState: the clock is a step that lets time pass; authorization, the pool's answers and a worker's outcome are arguments
  of steps.
- Pool: threads that interleave inside one method have no form as Dafny methods, so the pool and the client are step systems on
  values rather than classes.
- FairSchedulers.FairScheduler.Remove: which of several equal items is taken follows the dictionary order in the source and is
  left open here; the broker never queues a request twice.
- PoolGuarantees.WorkersWithinSize: workers that a thread lost without giving them back are not counted, because the source
  counts them in `busy_workers` only.
- PoolSupply.WaiterIsServed: says that the waiting thread can be served, not that it will be; that depends on thread scheduling
  and on which waiting thread the queue wakes.
- BrokerServer.DeadpoolServer.Handshake: the validation of the hello fields, the wire limits and the authentication come
  before it and are not modelled.
- BrokerServer.DeadpoolServer.CancelGroup: the counts in its answer are not modelled; what it does to every request is.
- ClientSteps.NobodyWaitsAfterLoss: about the moment when lane and loop are empty. Whether they become so depends on thread
  scheduling and on the slots of the lane, which `CompletionLane` settles: the lane can block itself.
- CompletionLane.Begin: the request whose acknowledgement fails is forgotten before the loop of `_connection_lost` rather than
  after it; it is decided by then and the loop passes over it.
- PoolGuarantees.OrphanForGood: about the pool in use. The end of `shutdown`, after `submitted_jobs.join()` has returned,
  empties `busy_workers` (`_pool.py:818-824`) and is not modelled.
- Utf8.Truncate: the decoder drops malformed bytes one by one, which agrees with Python on a cut encoding, the only use.
- Sockets, TLS, timeouts on reads and writes, Unix paths and stale-socket cleanup: operating-system I/O.
- Processes, signals, memory limits and environment propagation: a worker is an identity with arbitrary answers.
- Pickle, SHA-256, uuid and the JSON decoder: an arbitrary digest function, distinct ids, a header that arrives as it was printed.
- `heapq`, `queue` and `concurrent.futures` internals: their documented contracts.
- Handshake field validation, authentication, statistics, GOAWAY, status and health messages: one-branch checks.
- Startup and its failures, and the STARTING state.
- Client fork recovery, weak references, logging, callback capacity and the error class hierarchy.
