# Verified model of the LLM serving runtime

The runtime admits chat requests, queues them, forms batches, runs each batch against a backend that emits
interleaved events, and resolves every request through its own handle, which its caller may cancel at any moment.
This project models that behaviour and proves what it keeps over every run. `dafny verify dfyconfig.toml` checks it.

Everything runs on one asyncio thread, so a stretch of code between two suspension points is one atomic step. A put on
an unbounded queue does not suspend. The project is layered accordingly:

- `Lifecycle` is the step machine of requests: worker steps (begin, token, finish, fail) and caller steps (give up,
  receive, consume, close) in any order. `Accounting` proves what the counters say about it, `Timing` what the latency
  samples are, `Routing` what a whole batch execution does to each request.
- `Worker` holds the mutable objects (request with its handle, metrics, all accepted requests) and the worker's loops.
  Its methods change fields in place and are proved to take exactly the machine's steps; `ExecuteBatch` interleaves
  with scripted steps of other tasks, other workers included. `Api` does the same for the HTTP handler and the stream generator.
- `Aging` is the priority queue as a machine of submissions and dequeues at clock readings, `Ordering` relates it to a
  stable sort and to the FIFO queue, `PriorityScheduler` and `FifoScheduler` are the two scheduler objects. Their
  calls are interleaved with submissions and with dequeues of other workers, and the result is exactly what those moves
  (`Moves`) make of the old state. `SchedulerEquivalence` puts the two side by side, `WorkerLoop` adds the recorded sizes.
  `Dispatch` is the wait/notify protocol of several workers and the configurations that can reach it.
- `Backends` is the mock backend's batched decode against the sequential reference.
- `Admission` is the token bucket. The queue sizes it is called with are taken as given: a rival policy in the optimality
  theorem is judged on the same ones, although its own acceptances would change them. `Service` puts admission, priority queue and lifecycle into one machine,
  in which an arrival is one step, because the handler does not suspend between `admit` and the append in `submit`.
- `Common` holds a few shared notions. `Histogram`, `Snapshots`, `Fairness`, `Percentiles` and `Labels` are the numbers and labels of the metrics and benchmarks.

Time, tokens and averages are exact reals. Clocks never go back, and readings taken as request timestamps are positive,
because `completed_at or failed_at` treats 0 as missing. A clock is a function from the number of the reading to its
value. Request ids are positions in order of acceptance, hence distinct. What a caller or the network does is a
parameter (a script of steps, or how a wait ends), and every theorem is about all of them.

## Findings

- **Late cancels are counted twice.** After the worker has resolved and counted a request, its caller can still time
  out, disconnect or close the stream before it resumes. The request is then counted as failed as well. Which steps do
  this is `Accounting.LateCancelIffLateStep`; requests are counted exactly once if and only if a run has none of them
  (`Accounting.CountedOnceIffNobodyLeftLate`). The window is reachable (`Accounting.LateWindowIsReachable`).
- **The gauge of active requests can be too low.** A late cancel takes away another request's unit, unless the gauge is
  already 0 and the clamp absorbs it: `Accounting.GaugeCanBeTooLow` is a run, `Accounting.GapGrowsIffLateStepAboveZero`
  and `Accounting.GaugeIsAlwaysExactIff` the exact condition.
- **A backend's TimeoutError is taken for the caller's own.** It reaches the handler of a non-streaming request through
  the future and is caught by the clause for its own wait (src/llm_runtime/api/routes.py:110): the answer is 504
  instead of 500, and the request is counted twice. `Accounting.BackendTimeoutIsReachable` is a run,
  `Accounting.BackendTimeoutIsCountedTwiceIff` the exact condition. The shipped adapters are not part of this model, so
  whether one of them raises it is left open.
- **Histogram boundaries must be sorted.** The class accepts any list, but its export counts samples correctly for every
  input if and only if the list is sorted (`Histogram.ExportCountsSamplesIffSorted`). The default one is.
- **The interpolated percentile takes quantiles from 0 to 1 only.** Above it raises, below it wraps around to other
  samples before it raises; `Percentiles.OrderedUpwardIff` is the exact condition. Its callers pass 0.50 and 0.95.

## Model

| member | source | states |
|---|---|---|
| `Lifecycle.ActKeepsCoherent` | src/llm_runtime/workers/manager.py:72-144 | One atomic stretch of worker or caller keeps a request coherent: its future mirrors the verdict, its stream holds its tokens and at most one final event, its client has seen a prefix. |
| `Lifecycle.RunIsCoherent` | src/llm_runtime/workers/manager.py:72-144 | Coherence of every request in every reachable state, for every interleaving of worker and caller steps. |
| `Lifecycle.TokenKeepsCoherent` | src/llm_runtime/workers/manager.py:92-96 | Delivering a token to a coherent request keeps it coherent: what was put on a stream stays the collected tokens in order. |
| `Lifecycle.CompleteKeepsCoherent` | src/llm_runtime/workers/manager.py:110-129 | Resolving with a result leaves exactly one verdict, its result or final event in place. |
| `Lifecycle.FailKeepsCoherent` | src/llm_runtime/workers/manager.py:133-144 | The same for a failure. |
| `Lifecycle.ConsumeKeepsCoherent` | src/llm_runtime/api/streaming.py:28-51 | Taking one event keeps "seen frames + queued events = everything put" and closes the generator exactly at the final event. |
| `Lifecycle.NextEventIsTerminalIff` | src/llm_runtime/api/streaming.py:28-51 | The next event is the final one if and only if the worker has decided and nothing else is left on the queue. |
| `Accounting.LedgerBalances` | src/llm_runtime/metrics/collector.py:96-110 | After every run: completed + failed = (requests - unresolved) + late cancels, the total-latency samples number completed + failed, generated tokens are the summed lengths of the successful results, and unresolved - late cancels <= active <= unresolved. |
| `Timing.SamplesAreReadOffEvents` | src/llm_runtime/metrics/collector.py:259-272 | After every run the three sample lists hold, in order, exactly what the events say: for each step that counts a request, entering the queue to dequeue (if dequeued), creation to the event that delivered its first token (if any did), and creation to its completion or, without one, to this step. Neither the item nor the recording function is mentioned. |
| `Timing.RunIsStamped` | src/llm_runtime/core/request.py:53-67 | In every run the timestamps of every request are those moments: creation, enqueueing, first dequeue, first delivered token, counted completion. |
| `Timing.CollectorShowsSamples` | src/llm_runtime/metrics/collector.py:259-272 | The same for the sample lists of the collector object that a runtime shares. |
| `Accounting.EffectMatchesChange` | src/llm_runtime/workers/manager.py:110-144 | What a step adds to the counters is what happened to the request: one count for a resolution or a cancel, none otherwise. |
| `Accounting.LateCancelIffLateStep` | src/llm_runtime/api/routes.py:105-130 | In every reachable state, exactly the steps with the guard "resolved, caller still waiting, and it leaves" make a late cancel: a lost client, a timeout, a closed stream, or a caller resuming with a TimeoutError; each counts one more failure with nothing unresolved. |
| `Accounting.LateCancelsAreLateSteps` | src/llm_runtime/api/routes.py:105-130 | The late cancels of a state are the number of such steps in the run. |
| `Accounting.CountedOnceIffNobodyLeftLate` | src/llm_runtime/api/routes.py:105-130 | completed + failed exceeds the resolved and cancelled requests by the number of late steps; so requests are counted exactly once if and only if no step of the run left one late, and then the gauge is exact. |
| `Accounting.LateWindowIsReachable` | src/llm_runtime/api/streaming.py:52-55 | A concrete run that reaches the window, streaming and not streaming. |
| `Accounting.GaugeIsReflectedBalance` | src/llm_runtime/metrics/collector.py:96-110 | The clamped gauge is the difference requests - completed - failed measured from its running minimum; so it equals that difference if and only if the difference was never negative. |
| `Accounting.GapGrowsIffLateStepAboveZero` | src/llm_runtime/metrics/collector.py:100-110 | Each step moves the distance between unresolved requests and gauge exactly so: up by one if a request is left late while the gauge is above 0, down by one if an unresolved request is counted while it is at 0, else not at all. |
| `Accounting.GaugeIsExactIff` | src/llm_runtime/metrics/collector.py:100-110 | After any run the gauge equals the unresolved requests if and only if the clamp has absorbed as many decrements as there are late cancels. |
| `Accounting.GaugeIsAlwaysExactIff` | src/llm_runtime/metrics/collector.py:100-110 | The gauge is exact all along a run if and only if nobody leaves late while it is above 0. |
| `Accounting.GaugeCanBeTooLow` | src/llm_runtime/metrics/collector.py:106-110 | A run of two requests after which the gauge shows 0 and one is unresolved. |
| `Accounting.TimesCountedIs` | src/llm_runtime/workers/manager.py:110-144 | How often the steps of a run counted a request: once for its verdict and once for its cancellation. |
| `Accounting.BackendTimeoutIsCountedTwiceIff` | src/llm_runtime/api/routes.py:105-130 | A failed non-streaming request whose caller neither timed out nor lost its client is answered 504 and counted twice if and only if the backend raised a TimeoutError; otherwise it is answered 500 and counted once. |
| `Accounting.BackendTimeoutIsReachable` | src/llm_runtime/api/routes.py:110-117 | Such a run: one request, one failed backend, two failures counted. |
| `Accounting.SettledIsFinal` | src/llm_runtime/workers/manager.py:113-114 | Once resolved or cancelled, no later step changes the verdict, adds a token, or puts anything on the stream; no request gets two outcomes and one cancelled first is never counted by the worker. |
| `Accounting.ActKeepsSettled` | src/llm_runtime/workers/manager.py:134-135 | One step on a settled request: same outcome, and no counter moves if it was cancelled. |
| `Accounting.ClientSeesTheVerdict` | src/llm_runtime/api/streaming.py:26-51 | A stream client has seen a prefix of one chunk per token in order plus one final frame, all of it exactly when its stream completed; any other client that did not give up got the worker's verdict. |
| `Routing.RequestGetsItsProjection` | src/llm_runtime/workers/manager.py:72-108 | For every event stream (unknown ids, duplicates, events after a completion, ending or raising anywhere) and every activity of other tasks: an uncancelled request ends with exactly its tokens up to its first completion and one outcome, success if completed before the raise; one cancelled early has got a prefix and no outcome. |
| `Routing.EveryRequestIsDone` | src/llm_runtime/workers/manager.py:72-108 | The same for the whole batch, for executions whose steps all tasks, other workers included, were ready to take. |
| `Routing.StreamHoldsItsProjection` | src/llm_runtime/workers/manager.py:92-104 | A stream holds exactly the projection and the final event; if cancelled first, a prefix of the projection and nothing after it. |
| `Routing.OthersDoNotInterfere` | src/llm_runtime/workers/manager.py:82-102 | Cancellation non-interference: same backend stream, arbitrarily different behaviour of all other callers, same tokens, stream and outcome for a request not cancelled early. |
| `Routing.BeginAllEffect` | src/llm_runtime/workers/manager.py:73-79 | The first look at the batch keeps exactly the items not cancelled yet and touches nothing else. |
| `Routing.BackendEventKeepsFollowing` | src/llm_runtime/workers/manager.py:82-100 | Routing one more event extends the projection of the stream on its request by that event. |
| `Routing.ForeignEventKeepsFollowing` | src/llm_runtime/workers/manager.py:86-87 | Events of other ids mean nothing to a request. |
| `Routing.OthersKeepFollowing` | src/llm_runtime/api/routes.py:105-125 | Caller steps never change where the worker stands with a request, except by cancelling it. |
| `Routing.OthersKeepWork` | src/llm_runtime/workers/manager.py:82-100 | Nor do the steps of other workers on their own requests. |
| `Routing.EndDecides` | src/llm_runtime/workers/manager.py:101-108 | The closing loop decides every pending request, in whatever order it visits them. |
| `Routing.ExecuteIsARun` | src/llm_runtime/workers/manager.py:72-108 | Executing a batch is a run of the lifecycle machine, so the accounting theorems apply to it. |
| `Routing.OutsidersAreLeftAlone` | src/llm_runtime/workers/manager.py:73-108 | Executing a batch leaves every request outside it exactly as the other tasks leave it. |
| `Worker.ScheduledRequest.constructor` | src/llm_runtime/core/response.py:86-95 | A request enters queued, unresolved and with an empty channel. |
| `Worker.ScheduledRequest.CancelCompletion` | src/llm_runtime/core/response.py:52-58 | Cancels once; a future already done keeps its value. |
| `Worker.ScheduledRequest.CancelStream` | src/llm_runtime/core/response.py:73-77 | Cancels once and never after completion. |
| `Worker.ScheduledRequest.MarkStreamCompleted` | src/llm_runtime/core/response.py:79-80 | Sets the completed flag, which later makes cancel a no-op. |
| `Worker.ScheduledRequest.TellResult` | src/llm_runtime/workers/manager.py:117-126 | The result reaches the future unless that is cancelled, or the stream as its last event. |
| `Worker.ScheduledRequest.TellError` | src/llm_runtime/workers/manager.py:140-144 | The same for an exception. |
| `Worker.ScheduledRequest.MarkFirstToken` | src/llm_runtime/core/request.py:59-61 | Only the first token sets the timestamp. |
| `Worker.ScheduledRequest.MarkStarted` | src/llm_runtime/core/request.py:56-57 | Sets one timestamp and nothing else. |
| `Worker.ScheduledRequest.MarkCompleted` | src/llm_runtime/core/request.py:63-64 | Sets one timestamp and nothing else. |
| `Worker.ScheduledRequest.MarkFailed` | src/llm_runtime/core/request.py:66-67 | Sets one timestamp and nothing else. |
| `Worker.MetricsCollector.RecordRequest` | src/llm_runtime/metrics/collector.py:96-98 | Counts one request and raises the gauge. |
| `Worker.MetricsCollector.RecordSuccess` | src/llm_runtime/metrics/collector.py:100-104 | Moves the counters, the clamped gauge and the samples as the lifecycle machine does. |
| `Worker.MetricsCollector.RecordFailure` | src/llm_runtime/metrics/collector.py:106-110 | The same for a failure, after setting the failure timestamp. |
| `Worker.MetricsCollector.RecordRejection` | src/llm_runtime/metrics/collector.py:112-118 | A rejection moves only the rejection counters; an empty reason becomes "unknown". |
| `Worker.MetricsCollector.RecordTiming` | src/llm_runtime/metrics/collector.py:259-272 | Adds a raw sample for each interval whose two timestamps exist, as the lifecycle machine does; `Timing.SamplesAreReadOffEvents` says which values. |
| `Worker.Runtime.AcceptRequest` | src/llm_runtime/api/routes.py:73-79 | Accepting a request refines the machine's Accept step; existing requests stay the same objects. |
| `Worker.Runtime.CompleteItem` | src/llm_runtime/workers/manager.py:110-129 | Refines the machine's Finish step on handle, timestamps and metrics; a cancelled item is only released. |
| `Worker.Runtime.FailItem` | src/llm_runtime/workers/manager.py:133-144 | Refines the machine's Fail step; a cancelled item is only released. |
| `Worker.Runtime.DeliverToken` | src/llm_runtime/workers/manager.py:92-96 | Refines the machine's Token step. |
| `Worker.Runtime.MarkStarted` | src/llm_runtime/scheduler/priority.py:88-89 | Refines the machine's Dequeue step. |
| `Worker.Runtime.GiveUp` | src/llm_runtime/api/routes.py:110-125 | Refines the machine's GiveUp step: cancel the handle, then count a failure whatever cancel returned. |
| `Worker.Runtime.Receive` | src/llm_runtime/api/routes.py:105-130 | Refines the machine's Receive step: the caller gets the verdict, but a TimeoutError in it is caught like a timeout of the wait. |
| `Worker.Runtime.Consume` | src/llm_runtime/api/streaming.py:28-51 | Takes the oldest event, yields its frame, and stays open exactly after a token. |
| `Worker.Runtime.Close` | src/llm_runtime/api/streaming.py:52-55 | Cancels the handle and counts a failure only if the cancel took effect. |
| `Worker.Runtime.PerformAny` | src/llm_runtime/workers/manager.py:72-144 | Any step that some task, a worker included, is ready for can be performed on the objects and refines the machine. |
| `Worker.Runtime.SelectActive` | src/llm_runtime/workers/manager.py:73-79 | The set of pending ids and the empty token lists agree with the machine after the first look. |
| `Worker.Runtime.Route` | src/llm_runtime/workers/manager.py:82-100 | One loop iteration: `pending` and `tokens` keep agreeing with the machine, which takes exactly the routed step. |
| `Worker.Runtime.EventLoop` | src/llm_runtime/workers/manager.py:82-100 | The event loop performs the script of backend events and of other tasks' steps between them. |
| `Worker.Runtime.CloseOut` | src/llm_runtime/workers/manager.py:101-108 | Every request still pending, and no other, is visited exactly once and completed, failed, or skipped as cancelled. |
| `Worker.Runtime.DriveBackend` | src/llm_runtime/workers/manager.py:80-108 | Loop and closing loop together leave no request of the batch undecided, and the closing loop visits requests of the batch only, none twice. |
| `Worker.Runtime.ExecuteBatch` | src/llm_runtime/workers/manager.py:72-108 | The worker's loops over real objects, interleaved with any steps of callers, scheduler and other workers, perform exactly one machine execution, after which every request of the batch is released with its projection as outcome; the closing loop visits requests of the batch only, none twice; the backend is not called if and only if all items were cancelled. |
| `Api.CreateChatCompletion` | src/llm_runtime/api/routes.py:57-156 | From admission to response under any activity of other tasks: a rejection answers 503 "scheduler queue is full" at the cap and 429 "request rate limit exceeded" otherwise, and changes only the rejection counters, by reason and priority; an accepted request's answer is determined by how the wait ended and by the worker's verdict. |
| `Api.Serve` | src/llm_runtime/api/routes.py:99-130 | The accepted part of the handler: accept, be suspended, wake up. |
| `Api.Respond` | src/llm_runtime/api/routes.py:105-130 | 504 after a timeout, nothing to a lost client, and on resuming exactly the result (200), the error (500), or 504 for a TimeoutError; the request ends cancelled exactly in the cases 504 and lost client. |
| `Api.WakingAnswers` | src/llm_runtime/api/routes.py:105-130 | The same as a statement about one request before and after the step. |
| `Api.ChatCompletionStream` | src/llm_runtime/api/streaming.py:18-55 | The generator yields exactly the frames of the events it consumed, a prefix of chunks plus final frame; it is open exactly while its request waits, ends by itself only after all of it, and otherwise leaves the request cancelled. |
| `Api.TakeTurn` | src/llm_runtime/api/streaming.py:28-55 | One suspension and one resumption of the generator. |
| `Api.WorkKeepsCaller` | src/llm_runtime/api/routes.py:105-109 | While a handler or generator is suspended, no other task's step ends its wait or consumes its events. |
| `Aging.BestIndex` | src/llm_runtime/scheduler/priority.py:100-109 | No queued item comes before the one chosen; by `Aging.DequeuedIffLeads` that is the least (priority - whole intervals waited, sequence). |
| `Aging.RunKeepsValid` | src/llm_runtime/scheduler/priority.py:43-55 | Sequence numbers and arrival times stay increasing along the list in every timely run. |
| `Aging.ChosenBeatsTheRest` | src/llm_runtime/scheduler/priority.py:100-109 | In a valid queue the dequeued item comes strictly before every other: the choice is unique. |
| `Aging.EffectiveByWholeIntervals` | src/llm_runtime/scheduler/priority.py:111-116 | Each whole interval of waiting takes one level off the priority, down to 0; without aging, or with a clock gone back, the priority counts as it is. |
| `Aging.YoungerGoesFirstIff` | src/llm_runtime/scheduler/priority.py:100-116 | At any moment, if a was submitted first and has waited n whole intervals and b m, then b goes ahead of a if and only if max(0, priority(b) - m) < max(0, priority(a) - n). |
| `Aging.DequeuedIffLeads` | src/llm_runtime/scheduler/priority.py:100-116 | After every run, an item is what a dequeue returns if and only if it has the least (max(0, priority - whole intervals waited), sequence number) of all queued items. |
| `Aging.BoundedOvertaking` | src/llm_runtime/scheduler/priority.py:100-116 | Over whole runs: b, submitted after a, is dequeued before it only if it arrived less than (priority(a) - priority(b)) intervals later; in particular b is strictly more urgent. |
| `Aging.OvertakesOnArrivalIff` | src/llm_runtime/scheduler/priority.py:111-116 | The bound is exact: at b's arrival, b goes ahead of a if and only if the gap is below it; with aging off, if and only if b is strictly more urgent. |
| `Aging.LateArrivalsNeverOvertake` | src/llm_runtime/scheduler/priority.py:111-116 | Nothing arriving priority(a) intervals or more after a can overtake it. |
| `Aging.MatureIff` | src/llm_runtime/scheduler/priority.py:114-116 | The floor and clamp reach 0 exactly after priority(a) intervals of waiting. |
| `Aging.OnlyOlderBeatsMature` | src/llm_runtime/scheduler/priority.py:100-116 | Only an older item comes before one that has reached 0. |
| `Aging.MatureRankDecreases` | src/llm_runtime/scheduler/priority.py:63-116 | From then on each dequeue returns a or lowers the number of older queued items by exactly one. |
| `Aging.SubmitKeepsRank` | src/llm_runtime/scheduler/priority.py:43-55 | Submissions leave every queued item's rank alone. |
| `Aging.RivalsStep` | src/llm_runtime/scheduler/priority.py:100-109 | While a stays queued each dequeue consumes one rival of a; only arrivals early and urgent enough add one. |
| `Aging.DequeuesBeforeAreRivals` | src/llm_runtime/scheduler/priority.py:63-116 | Conservation over the run: dequeues + remaining rivals = initial rivals + early arrivals. |
| `Aging.NoStarvation` | src/llm_runtime/scheduler/priority.py:63-116 | At most (items queued at its submission + early arrivals) dequeues happen while a is queued, whatever arrives later. |
| `Aging.NothingLostOrDuplicated` | src/llm_runtime/scheduler/priority.py:43-109 | Over every run the submitted items are, as a multiset, the queued and the dequeued ones. |
| `Ordering.StrictDrainIsStableSort` | src/llm_runtime/scheduler/priority.py:100-113 | With aging off, draining at any times delivers the textbook stable sort by priority. |
| `Ordering.StableSortIsStable` | src/llm_runtime/scheduler/priority.py:23-25 | The reference sort is a permutation of the queue, ordered by priority and by submission among equals. |
| `Ordering.StrictPopTakesSortHead` | src/llm_runtime/scheduler/priority.py:100-113 | One strict dequeue moves the head of the stable sort to the output. |
| `Ordering.StrictDequeueIsLeast` | src/llm_runtime/scheduler/priority.py:100-113 | Under interleaved submissions each strict dequeue returns the least (priority, sequence). |
| `Ordering.FifoKeepsSubmissionOrder` | src/llm_runtime/scheduler/fifo.py:15-22 | Delivered items followed by queued ones are the submission sequence, over every run. |
| `Ordering.EqualPrioritiesPickTheOldest` | src/llm_runtime/scheduler/priority.py:100-116 | With equal priorities the head of the list is chosen, whatever the interval. |
| `Ordering.EqualPrioritiesAreFifo` | src/llm_runtime/scheduler/priority.py:43-116 | With equal priorities, any interval and any interleaving, the priority scheduler is the FIFO scheduler. |
| `Ordering.FifoPopsAreBuildBatch` | src/llm_runtime/scheduler/batching.py:19-25 | n FIFO dequeues take exactly the batch cut by `build_batch` and leave the rest. |
| `Ordering.EqualPriorityBatchIsBuildBatch` | src/llm_runtime/scheduler/priority.py:63-90 | With equal priorities and timeout 0 one batch is exactly what `build_batch` cuts from the queue. |
| `PriorityScheduler.Scheduler.Submit` | src/llm_runtime/scheduler/priority.py:43-55 | Refines the machine's submission at the clock reading it took. |
| `PriorityScheduler.Scheduler.PopNextLocked` | src/llm_runtime/scheduler/priority.py:100-109 | Refines the machine's dequeue: returns the chosen item and removes it only; which one that is says `Aging.DequeuedIffLeads`. |
| `PriorityScheduler.Scheduler.PerformAction` | src/llm_runtime/scheduler/priority.py:43-109 | What another task does meanwhile, a submission or another worker's dequeue, is exactly that move of the machine and nothing else. |
| `PriorityScheduler.Scheduler.AwaitItem` | src/llm_runtime/scheduler/priority.py:95-97 | The call is suspended exactly as long as it finds nothing queued; meanwhile exactly the listed moves of other tasks happen. |
| `PriorityScheduler.Scheduler.NextBatch` | src/llm_runtime/scheduler/priority.py:63-90 | The new state and the batch are exactly what this worker's dequeues and the listed moves of other tasks make of the old state, in a timely order; so no submission is lost or taken unaccounted. The batch has 1 to max items; short means an empty queue for every timeout, and for a positive one that the deadline had passed at the last reading or nothing came in time. Every wait was preceded by a clock reading of its own, taken after all moves made before the wait, below the reading after the first item plus the timeout. |
| `PriorityScheduler.Scheduler.FillBatch` | src/llm_runtime/scheduler/priority.py:65-86 | The same from the first dequeue on: the waits consumed are those listed, in order, each after a check of the deadline that passed, and it stops only when full or for one of those reasons. |
| `PriorityScheduler.Scheduler.WaitForMore` | src/llm_runtime/scheduler/priority.py:77-86 | A wait is woken exactly if the deadline lies ahead and something happens before it; then exactly the listed moves happen. |
| `PriorityScheduler.CheckingNext` | src/llm_runtime/scheduler/priority.py:77-86 | One more check of the deadline keeps the record of checks: one for each wait, at increasing clock readings below the deadline, each between the moves before its wait and those after. |
| `PriorityScheduler.PlayIsARun` | src/llm_runtime/scheduler/priority.py:43-116 | Whatever the moves, they are a run of the aging machine, so overtaking and starvation bounds hold of it. |
| `PriorityScheduler.MovesShareOut` | src/llm_runtime/scheduler/priority.py:63-109 | Everything dequeued while a batch forms goes to this batch or to other workers, each in dequeue order, none twice. |
| `PriorityScheduler.SubmittedInPlay` | src/llm_runtime/scheduler/priority.py:43-55 | The submissions of that run are those of the other tasks, in order. |
| `FifoScheduler.Scheduler.Submit` | src/llm_runtime/scheduler/fifo.py:15-17 | Appends, keeping delivered + queue = submitted. |
| `FifoScheduler.Scheduler.NextBatch` | src/llm_runtime/scheduler/fifo.py:24-50 | The new queue, the delivered sequence and the batch are exactly what this worker's dequeues and the listed moves of other tasks make of the old ones; delivered + queue = submitted. The batch has 1 to max items; with timeout 0 it is `build_batch(queue, max)` of the queue it found; with a positive timeout it is short only if the deadline had passed, or the queue was empty and nothing came in time. With a positive timeout, every wait and every item but the first was preceded by a clock reading of its own below the first reading plus the timeout: the k-th check took the k-th reading after it, and let in one item at most. |
| `FifoScheduler.Scheduler.AwaitItem` | src/llm_runtime/scheduler/fifo.py:25-26 | The call is suspended exactly as long as it finds nothing queued; meanwhile exactly the listed moves of other tasks happen. |
| `FifoScheduler.Scheduler.FillBatch` | src/llm_runtime/scheduler/fifo.py:25-46 | The same from the first item on: the waits consumed are those listed, in order, each item but the first after a check of the deadline that passed, and it stops only when full or for one of those reasons. |
| `FifoScheduler.Scheduler.AwaitNext` | src/llm_runtime/scheduler/fifo.py:38-46 | Succeeds exactly if the deadline lies ahead and something is queued or happens before it; a passed deadline ends the batch even if something is queued; nothing but the listed moves happens. |
| `FifoScheduler.MovesConserve` | src/llm_runtime/scheduler/fifo.py:15-50 | Whoever moves: what is delivered and then queued grows by exactly the submissions, in order. |
| `FifoScheduler.MovesShareOut` | src/llm_runtime/scheduler/fifo.py:24-50 | Everything delivered while a batch forms goes to this batch or to other workers, each in order, none twice. |
| `FifoScheduler.MineTakesPrefix` | src/llm_runtime/scheduler/fifo.py:31-36 | A worker left alone takes a prefix of the queue. |
| `FifoScheduler.Scheduler.Size` | src/llm_runtime/scheduler/fifo.py:52-53 | The size is what was submitted and not yet delivered. |
| `SchedulerEquivalence.MovesAlike` | src/llm_runtime/scheduler/priority.py:43-116 | With equal priorities, any interval and any interleaving of one worker's dequeues with everything other tasks do, the two schedulers queue, deliver, batch and hand out to others the same items. |
| `SchedulerEquivalence.SameSuspensions` | src/llm_runtime/scheduler/priority.py:95-97 | With equal priorities both wait through the same suspensions for their first item, and find the same queue. |
| `SchedulerEquivalence.NextBatches` | src/llm_runtime/scheduler/priority.py:63-90 | One `next_batch` call without a timeout on each scheduler object, from the same queue of equal priorities, empty or not, under the same submissions and takes of other tasks: the same batch, the same queue left. |
| `SchedulerEquivalence.FillingIsBuildBatch` | src/llm_runtime/scheduler/batching.py:19-25 | Left alone, the priority scheduler takes from equal priorities exactly what `build_batch` cuts. |
| `Dispatch.SeveralWorkersNeverBatch` | src/llm_runtime/core/lifecycle.py:46-62 | More than one worker is configured only for a natively batching backend, and then with batch size 1 and timeout 0; the configured size and timeout are used, by one worker, if and only if batching is enabled and the backend does not batch itself. |
| `Dispatch.StepConserves` | src/llm_runtime/scheduler/priority.py:43-98 | Each submission, poll, resumption and deadline keeps: while a worker sleeps un-notified, queued items <= notified workers. |
| `Dispatch.NoLostWakeup` | src/llm_runtime/scheduler/priority.py:43-98 | In every reachable state of any number of workers, for any batch size and timeout: if one sleeps un-notified the queued items are at most the notified workers; and an item is never queued with every worker asleep. |
| `Dispatch.SubmitWakesOldest` | src/llm_runtime/scheduler/priority.py:43-55 | A submission wakes exactly one worker, the one asleep longest, or nobody if none sleeps un-notified. |
| `Dispatch.BatchEndsIff` | src/llm_runtime/scheduler/priority.py:63-86 | In every reachable state a worker takes what is queued as far as it fits, and leaves with its batch if and only if it has something and the batch is full, there is no timeout, or the time is over; otherwise it sleeps last in line. |
| `Dispatch.StepAccounts` | src/llm_runtime/workers/manager.py:59-70 | Each step keeps recorded sizes + forming + queued in balance with the submissions. |
| `Dispatch.BatchSizesAccountForSubmissions` | src/llm_runtime/workers/manager.py:59-70 | Over every run of workers on the priority queue: sum of recorded batch sizes + items in forming batches + queue size = submissions; every size is between 1 and the maximum. |
| `WorkerLoop.SizesAccountForSubmissions` | src/llm_runtime/workers/manager.py:59-70 | Over runs of any number of workers on the FIFO queue, whatever ends a batch: recorded sizes + items in forming batches + queue size = submissions. |
| `WorkerLoop.Loop` | src/llm_runtime/workers/manager.py:59-70 | The worker loop over the FIFO scheduler object and the batch log makes exactly such a run: recorded sizes + what other workers took + queue size = submissions, without the middle term if nobody else takes anything; every recorded size is between 1 and the maximum. |
| `Backends.MockBackend.GenerateBatch` | src/llm_runtime/backends/mock_backend.py:25-42 | The interleaving loops yield, at the simulated times, round by round each unfinished request's next token. |
| `Backends.MockBackend.DecodeStep` | src/llm_runtime/backends/mock_backend.py:37-42 | The inner loop gives each unfinished request its share of one decode step. |
| `Backends.MeaningIsProjection` | src/llm_runtime/workers/manager.py:82-102 | What a stream means for a request is what the worker routes to it. |
| `Backends.RoundMeans` | src/llm_runtime/backends/mock_backend.py:37-42 | In each decode step a request gets its next token if it still wants one, and completes with its last. |
| `Backends.MockBackend.GenerateSequentially` | src/llm_runtime/backends/base.py:47-60 | The compatibility loop yields each request's whole turn in order. |
| `Backends.MockBackend.Generate` | src/llm_runtime/backends/mock_backend.py:19-23 | One request's tokens, one decode step apart after its prefill. |
| `Backends.RoundsMean` | src/llm_runtime/backends/mock_backend.py:33-42 | After n decode steps a request has its first min(n, max_tokens) tokens, and is complete exactly when n has reached max_tokens. |
| `Backends.OneAfterAnotherMeans` | src/llm_runtime/backends/base.py:57-60 | In the sequential stream every request gets all its tokens and completes. |
| `Backends.BatchedMeansSequential` | src/llm_runtime/backends/mock_backend.py:25-42 | Batched and sequential streams mean the same outcome for every request of every list. |
| `Backends.BatchingPreservesResults` | src/llm_runtime/workers/manager.py:72-108 | End to end through the worker, under arbitrary activity of other tasks in both executions: every request not cancelled early gets the same result, its mock text. |
| `Backends.BatchedCompletionTime` | src/llm_runtime/backends/mock_backend.py:33-42 | A request of a batch completes when its own last token is decoded. |
| `Backends.SequentialCompletionTime` | src/llm_runtime/backends/base.py:57-60 | In sequence it completes at the end of its own turn. |
| `Backends.TokenTimes` | src/llm_runtime/backends/mock_backend.py:19-42 | Token number i of request k is yielded at prefill + (i+1)*decode in a batch, and k*prefill + (tokens of the k requests before)*decode later in sequence. |
| `Backends.TokReadsBack` | src/llm_runtime/backends/mock_backend.py:23-23 | A token's text is "tok", the decimal notation of its index (read back, it gives the index), and a space. |
| `Backends.BatchingNeverDelays` | src/llm_runtime/backends/mock_backend.py:19-42 | Simulated time: prefill + decode*n_k in a batch against that plus k prefills and all decode steps of the k requests before it in sequence; no request completes later. |
| `Admission.BucketCapacity` | src/llm_runtime/core/admission.py:72-80 | No bucket without a limit; otherwise the burst setting if positive, else the rate rounded up, and at least one token. |
| `Admission.AdmissionController.constructor` | src/llm_runtime/core/admission.py:19-36 | The bucket starts full at the first clock reading. |
| `Admission.AdmissionController.Admit` | src/llm_runtime/core/admission.py:38-60 | Decides and moves the bucket as the step functions say; queue-full if and only if there is a cap and the queue has reached it, and then it reads no clock and leaves the bucket alone. |
| `Admission.AdmissionController.RefillLocked` | src/llm_runtime/core/admission.py:62-69 | One lazy refill at one clock reading. |
| `Admission.RefillNeverDrains` | src/llm_runtime/core/admission.py:62-69 | A refill never takes tokens away nor exceeds the capacity, and a clock that goes back changes nothing. |
| `Admission.RefillSplits` | src/llm_runtime/core/admission.py:62-69 | Refilling in two parts is refilling once. |
| `Admission.LevelIsLeastSlack` | src/llm_runtime/core/admission.py:62-69 | Min-plus form: the level of a bucket is the least of capacity + rate*length - accepted over the windows ending now, and is attained. |
| `Admission.ControllerShowsLevel` | src/llm_runtime/core/admission.py:38-69 | The lazily refilled bucket of the code holds exactly that level at every call, whatever outcomes came before. |
| `Admission.AvailableIsLeastSlack` | src/llm_runtime/core/admission.py:38-69 | Hence tokens available at call j are the exact minimum over calls i <= j and the construction. |
| `Admission.RateLimitedIffSomeWindowWouldOverflow` | src/llm_runtime/core/admission.py:38-60 | The three outcomes exactly, with or without a rate limit: queue-full if and only if a positive cap is reached, otherwise rate-limited if and only if there is a limit and accepting would overflow some window. |
| `Admission.WindowBound` | src/llm_runtime/core/admission.py:47-69 | Every window accepts at most capacity + rate*length. |
| `Admission.ControllerIsLegal` | src/llm_runtime/core/admission.py:38-60 | The controller itself obeys the bucket and the cap. |
| `Admission.OtherAcceptsOnlyFromAhead` | src/llm_runtime/core/admission.py:47-60 | A legal policy that accepts what the controller refused had saved tokens. |
| `Admission.GreedyIsOptimal` | src/llm_runtime/core/admission.py:47-69 | At every prefix of every arrival sequence the controller has accepted at least as many as any legal policy, whose bucket never exceeds the controller's plus its lead. |
| `Service.QueueStaysWithinCap` | src/llm_runtime/core/admission.py:38-45 | Admission, scheduler and lifecycle in one run: with `max_queue_size > 0` the queue never exceeds it. |
| `Service.ArrivalEntersIff` | src/llm_runtime/api/routes.py:57-102 | After every run of arrivals, dequeues and lifecycle steps, an arrival lengthens the queue if and only if the queue is below the cap (if any) and, with a rate limit, no window of arrivals ending now would have let in more than capacity + rate*length; otherwise it changes neither queue nor requests. So the queue can be filled to its cap. |
| `Service.QueueIsBoundedBuffer` | src/llm_runtime/core/admission.py:38-48 | Without a rate limit the queue length is, after every run, that of a bounded buffer: up by one for each arrival below the cap, down by one for each dequeue from a nonempty queue. |
| `Service.RunRemembers` | src/llm_runtime/core/admission.py:38-60 | The controller in such a run has exactly the history of its arrivals: the calls, their times, who entered, and the bucket. |
| `Service.RunIsPlaced` | src/llm_runtime/api/routes.py:57-102 | In every such run each accepted request is once in the queue, exactly while its lifecycle says queued, and afterwards once among the dequeued; nothing else is in either. |
| `Service.ExecutedAtMostOnce` | src/llm_runtime/workers/manager.py:59-79 | Each accepted request is dequeued at most once, executed at most once, and executed only after it was dequeued; exactly once when its lifecycle has got that far. |
| `Histogram.BucketOf` | src/llm_runtime/metrics/collector.py:32-36 | The first boundary that is at least the value, or the bucket past the end. |
| `Histogram.LatencyBucketsAreSorted` | src/llm_runtime/metrics/collector.py:9-11 | The twelve default boundaries are sorted, from 1 ms to 10 s. |
| `Histogram.Histogram.constructor` | src/llm_runtime/metrics/collector.py:23-27 | No boundaries, or an empty list, select the default ones; all counts are zero. |
| `Histogram.Histogram.Observe` | src/llm_runtime/metrics/collector.py:29-36 | Each bucket keeps counting exactly the samples that belong to it; sum and total keep up. |
| `Histogram.SumIsWithin` | src/llm_runtime/metrics/collector.py:29-31 | The sum, divided by the number of samples, lies within their bounds. |
| `Histogram.Histogram.PrometheusLines` | src/llm_runtime/metrics/collector.py:46-60 | Nothing without samples; otherwise one cumulative line per boundary, then +Inf, sum and count. |
| `Histogram.CumulativeCountsSamplesUpTo` | src/llm_runtime/metrics/collector.py:53-56 | For sorted boundaries, equal ones allowed, the exported count at b is the number of samples <= b. |
| `Histogram.ExportCountsSamplesIffSorted` | src/llm_runtime/metrics/collector.py:29-60 | The export is right for every list of samples if and only if the boundaries are sorted. |
| `Histogram.CumulativeIsMonotone` | src/llm_runtime/metrics/collector.py:53-56 | Exported counts never decrease and never exceed the total. |
| `Histogram.BucketsSumToTotal` | src/llm_runtime/metrics/collector.py:29-36 | All buckets including +Inf sum to the number of samples, sorted boundaries or not. |
| `Histogram.UnsortedBoundariesMiscount` | src/llm_runtime/metrics/collector.py:29-36 | Wherever boundaries go down from i to j, a single sample at the i-th is exported as being at most the j-th. |
| `Snapshots.BatchLog.RecordBatch` | src/llm_runtime/metrics/collector.py:120-122 | Counter and log stay in step. |
| `Snapshots.BatchLog.TakeSnapshot` | src/llm_runtime/metrics/collector.py:124-142 | The batch part of a snapshot is a function of the log alone. |
| `Snapshots.CounterIsTheMultiset` | src/llm_runtime/metrics/collector.py:125-125 | The tally of the log is its multiset. |
| `Snapshots.DeltaAverageIsTheMeanOfTheWindow` | benchmarks/run_load_test.py:104-117 | The difference of two averages times the number of batches in between is their sum; 0 if there were none. |
| `Snapshots.DeltaDistributionIsTheWindow` | benchmarks/run_load_test.py:120-132 | The difference of the distributions is exactly their multiset, with no other keys. |
| `Snapshots.WindowTotals` | benchmarks/run_load_test.py:135-140 | Its counts sum to the number of batches in between, and its largest key is the largest of them. |
| `Fairness.GapIsZeroIffAllEqual` | benchmarks/run_priority_scheduler_benchmark.py:375-382 | Cauchy-Schwarz for the code's sums, with its equality case. |
| `Fairness.SquareOfSumDominates` | benchmarks/run_priority_scheduler_benchmark.py:375-382 | The lower bound, with its equality case. |
| `Fairness.JainBounds` | benchmarks/run_priority_scheduler_benchmark.py:375-382 | 1/n <= index <= 1 for n nonnegative values not all zero; 1 exactly when all are equal, 1/n exactly when only one is nonzero. |
| `Fairness.JainOfZeros` | benchmarks/run_priority_scheduler_benchmark.py:376-380 | 0 for no values and for all zeros. |
| `Percentiles.RoundIsNearest` | src/llm_runtime/metrics/latency.py:7-7 | Rounding half to even lands on a nearest integer. |
| `Percentiles.NearestRankIff` | src/llm_runtime/metrics/latency.py:1-8 | For k the integer nearest to pct/100*(n-1), the even one on a tie, the result is the one number with at most k samples below it and more than k samples up to it. |
| `Percentiles.RankIndexIff` | src/llm_runtime/metrics/latency.py:7-7 | For percentages from 0 to 100 the index is the integer within 1/2 of pct/100*(n-1), the even one on a tie, and no other. |
| `Percentiles.MedianOfTwo` | src/llm_runtime/metrics/latency.py:7-7 | The median of two samples is the smaller one. |
| `Percentiles.NearestRankIsASample` | src/llm_runtime/metrics/latency.py:1-8 | The result is a sample, hence between minimum and maximum. |
| `Percentiles.NearestRankIsMonotone` | src/llm_runtime/metrics/latency.py:1-8 | Nondecreasing in the percentage. |
| `Percentiles.NearestRankExtremes` | src/llm_runtime/metrics/latency.py:7-7 | Percentages outside 0..100 give the minimum or the maximum. |
| `Percentiles.InterpolatedIsWithin` | benchmarks/run_priority_scheduler_benchmark.py:358-372 | Whenever there is a result it lies within the samples' bounds. |
| `Percentiles.InterpolatedIsMonotone` | benchmarks/run_priority_scheduler_benchmark.py:358-372 | Defined and nondecreasing for quantiles in [0, 1]. |
| `Percentiles.InterpolatedIsPiecewiseLinear` | benchmarks/run_priority_scheduler_benchmark.py:358-372 | At quantile*(n-1) = k + w the result lies the fraction w along the straight line from the k-th to the next order statistic, and equals them at the ranks. |
| `Percentiles.InterpolatedRaisesIff` | benchmarks/run_priority_scheduler_benchmark.py:365-372 | Exactly when the list indexing raises. |
| `Percentiles.NegativeQuantileWraps` | benchmarks/run_priority_scheduler_benchmark.py:365-372 | For every quantile below 0 some list raises or gives more than its smallest sample. |
| `Percentiles.OrderedUpwardIff` | benchmarks/run_priority_scheduler_benchmark.py:358-372 | Always a result, and none smaller at a larger quantile up to 1: if and only if the quantile lies in [0, 1]. |
| `Percentiles.OrderDoesNotMatter` | benchmarks/run_priority_scheduler_benchmark.py:358-372 | Neither percentile depends on the order of the samples. |
| `Labels.EscapeIsACharacterMap` | src/llm_runtime/metrics/collector.py:346-347 | The three successive replacements equal one character-wise map. |
| `Labels.UnescapeInvertsEscape` | src/llm_runtime/metrics/collector.py:346-347 | A one-pass reader gives back every string. |
| `Labels.EscapeIsInjective` | src/llm_runtime/metrics/collector.py:346-347 | Different labels stay different. |
| `Labels.EscapedLabelIsContained` | src/llm_runtime/metrics/collector.py:346-347 | No raw newline, and whatever follows, the first unescaped quote is the closing one. |
| `Labels.BackslashMustComeFirst` | src/llm_runtime/metrics/collector.py:346-347 | Another order of the passes would give another text. |

## Left out

- `WorkerManager.start`/`stop` and task cancellation: forming and in-flight batches are abandoned there, so no eventual resolution is claimed.
- Timeout races inside asyncio: `wait_for` losing an item or a wakeup at the very instant of a timeout, and waiter bookkeeping below "`notify` wakes the first waiter not notified yet".
- Exceptions outside `Exception`, such as a `CancelledError` raised by the backend: the worker does not catch them and ends.
- llama.cpp and vLLM backends, subprocesses and HTTP streaming: a real backend is an arbitrary event stream that may end or raise anywhere.
- FastAPI wiring, schemas, JSON, logging, configuration and GPU sampling: an SSE frame is a datatype value.
- Floating-point rounding, in time as in the snapshot averages; the snapshot's decimal rounding of histogram sums.
- Differences of queue-wait, TTFT and total-latency averages between snapshots: they divide by `completed_count` although failures add samples too, so they are no means of anything.
- A stream whose generator is never started is never closed either, so it cancels nothing; only started generators are modelled.
- Aliasing between a request and its handle: both are fields of one `Worker.ScheduledRequest`.
- Worker.MetricsCollector.RecordTiming: does not observe the sample in a histogram object as well; `Histogram.Histogram` and `Snapshots.BatchLog` are objects of their own beside `Worker.MetricsCollector`, so that they share its samples is not stated.
- The order in which the closing loop visits a Python set: `Worker.Runtime.CloseOut` picks any, so the theorems hold for each; the order of latency samples follows it.
- Worker.Runtime.GiveUp: the HTTP handler raises afterwards; only its effect on handle and metrics and the status it answers are modelled.
- FifoScheduler.Scheduler.NextBatch: for a positive timeout a short batch does not mean an empty queue, because the deadline is checked before the queue is looked at.
- Service.Step: starts a request as it is dequeued, while the code sets `started_at` of a batch's requests when the batch is complete; in `Lifecycle` the two are apart, its `Dequeue` step being the one that sets the timestamp.
- `next_request` of both schedulers: one dequeue, as in the first item of a batch; the worker loop never calls it.
- Benchmark runners, workload generators and report tables: plumbing around the functions modelled here.
