# A verified model of the worker pool and the PHP bridge

Folk accepts requests in a Rust server and answers them with long-lived PHP workers. This project
models the two stateful halves of that path and proves what they promise, alone and together.

* **The bridge** (`crates/folk-ext/src/bridge.rs`): one worker thread, its reply sender, its done
  signal and its body cursor, driven by whatever a PHP handler calls. `Bodies.dfy` and `Bridge.dfy`
  are the state machine; `WorkerThread.dfy` is the thread-local object with its fields updated in
  place and its loops, proved to make exactly those steps.
* **The pool** (`crates/folk-core/src/worker_pool.rs`, `worker_slot.rs`): callers with permits, the
  bounded queue, the round-robin router, and slots whose supervisors boot, feed and recycle workers.
  `Slots.dfy` is one slot: supervisor, worker and the worker's thread with its bridge. `Pool.dfy` is
  everything at once, as steps that may interleave in any order. `SlotInfo.dfy`, `Supervisor.dfy` and
  `Router.dfy` hold the imperative code.
* **The joints**: `Collectors.dfy` has the two collectors that fold replies, `EndToEnd.dfy` follows a
  handler's calls to its caller's result, `Service.dfy` follows a request through a slot,
  `Answers.dfy` says what caller and handler are told in plain constants, `PoolRuns.dfy` and
  `PoolOrder.dfy` follow the pool over its runs, `Spawning.dfy` has the race for the main
  thread's channel, and `Zval.dfy` the value conversion.

## How to read it

A request is an id, the streaming body it may carry, and its *patience*: how many chunks its receiver
lives to take. Sends are logged whether or not they arrive, and `Bridge.Delivered` cuts the log where
the client left. The messages of a body are all those its sender will ever put, so a blocking receive
returns the next one or reports the close.

Every wait that could go several ways is a free choice of the model: boot and spawn failures, time
outs, expiry, panics, a thread dying, reloads and the dropping of the pool may happen at any moment
they could. A biased select is one step: the reload arm is taken whenever it has something to say.
Decoding JSON text, ids, clocks and opaque library behaviour are inputs.

The main results, hardest first:

1. In every run of the whole pool each request that got a permit is in exactly one place, is started
   at most once, and permits are conserved (`PoolProperties.OnePlaceEach`, `NeverStartsTwice`).
2. A permit comes back in a fixed list of ways, and on completion only after the whole reply was sent
   (`PoolProperties.PermitComesBack`), across supervisor, task channel and bridge.
3. Whatever a handler does, its request gets a word of `Body* (Headers Body*)? (Return | Error)? End`,
   one done signal, and nothing outside its own window (`Bridge.DispatchCompletes`,
   `EveryRunSpeaksReplies`, `EveryRunIsIsolated`).
4. Its caller reads what the handler meant, with either collector (`EndToEnd.CallerGetsMeaning`).
5. Any mix of reading calls walks the list of parts the body encodes (`Bodies.RunTracksParts`).
6. Requests are served first in, first out: queue, inbox and task channel each keep their order over
   every run (`PoolOrder.QueueIsFair`, `InboxIsFair`, `TasksAreFair`).
7. While no slot dies the pool's router comes back to a slot after as many deliveries as there are open
   slots, no sooner and no later (`PoolRuns.RouterGoesRound`).

## Where the code and its comments differ

* `runtime.rs:229-230` says that handing over a task never blocks. It blocks if and only if the thread
  lives and at least eight requests timed out on it before it received them
  (`SlotProperties.SubmitBlocksIff`; `SubmitCanBlock` is a run that gets there).
* `bridge.rs:315-317` and `:433-434` say an empty read means the end. It also happens on an empty
  chunk: `Bodies.EmptyReadIff` and `EmptyPartReadIff` say exactly when.
* `worker_pool.rs:40-42` and `:105-107` say the permit is dropped inside the bridge. The supervisor
  drops it, after the done signal or a time out; the model follows the code.
* `worker_pool.rs:389-398` shuts a supervisor down when its inbox closes. That never happens: the pool
  task owns the senders while it awaits the supervisors (`PoolProperties.InboxNeverSeenClosed`), so a
  slot serving the main thread keeps the pool task waiting (`MainThreadHoldsPoolOpen`).
* `lib.rs:83-84` installs the main thread as worker 1, but its handle may get another id. It gets id 1
  in every run if and only if at most one worker is configured (`Spawning.MainIsOneIff`).
* The two collectors are not the same function: `Collectors.CollectorsAgreeIff` says on which streams
  they agree, `ValuesAgreeIff` that their callers then get the same value, and every stream the bridge
  can produce is one.

## Model

| member | source | states |
|---|---|---|
| Chunks.ReplyIffClosed | crates/folk-ext/src/bridge.rs:171-311 | the automaton the bridge is checked against accepts exactly the words `Body* (Headers Body*)? (Return or Error)? End` |
| Chunks.PrefixIffNotBroken | crates/folk-ext/src/bridge.rs:243-287 | chunk sequences it does not reject are exactly the beginnings of such words |
| Collectors.CollectStream | crates/folk-core/src/worker_pool.rs:221-259 | an error before the end wins, then the last return value, then the legacy object of the last head, status 200 by default, and all body bytes; stops reading after the chunk that decided |
| Collectors.CollectStreamToValue | crates/folk-ext/src/runtime.rs:274-308 | the first return value or error wins, otherwise the same legacy object |
| Collectors.LegacyObject | crates/folk-core/src/worker_pool.rs:247-258 | the object has body, headers and status, and its headers are exactly those given, sorted, in whatever order the hash map yields them |
| Collectors.CollectorsAgreeIff | crates/folk-ext/src/runtime.rs:281-295 | on any stream at all the collectors agree if and only if no later error or different return follows the first return |
| Collectors.ValuesAgreeIff | crates/folk-ext/src/runtime.rs:281-307 | and exactly then do the two callers get the same value or error, legacy objects included |
| Collectors.CollectorsDisagree | crates/folk-core/src/worker_pool.rs:237-238 | a return followed by an error is an error to one collector and a value to the other |
| Collectors.CollectorsAgreeOnReplies | crates/folk-core/src/worker_pool.rs:210-259 | on every reply and every prefix of one, as left by an early close, both collectors give the same outcome |
| Collectors.ReturnMeaning | crates/folk-core/src/worker_pool.rs:215-217 | a reply with a return value is that value verbatim to both collectors, whatever was streamed before |
| Collectors.ErrorMeaning | crates/folk-core/src/worker_pool.rs:218 | a reply with an error is that error to both |
| Collectors.PageMeaning | crates/folk-core/src/worker_pool.rs:219-220 | a page, whole or cut before its end, keeps its status, headers and all its bytes in order |
| Collectors.LastReturnWins | crates/folk-core/src/worker_pool.rs:237 | on any stream without an error, the pool's caller gets the last value returned before the end |
| Collectors.FirstAnswerWins | crates/folk-ext/src/runtime.rs:293-294 | behind the handle the first return or error is the answer, whatever follows it |
| Collectors.LegacyFromChunks | crates/folk-core/src/worker_pool.rs:222-236 | the legacy response has the last head of any stream, or status 200 and no headers, and all body bytes in order |
| Bodies.ReadTakesFront | crates/folk-ext/src/bridge.rs:323-369 | every reading call, on a raw or multipart body, returns the front of the unread bytes, at most as many as asked, and leaves later parts untouched |
| Bodies.ReadsOnePiece | crates/folk-ext/src/bridge.rs:323-344 | a read returns of the piece at hand as much as was asked for, and no more than that piece; a part is left exactly by reading its end |
| Bodies.WholeReadsTakeAll | crates/folk-ext/src/bridge.rs:350-369 | reading all of a body, or of a part, returns everything unread and leaves nothing |
| Bodies.ReadAllCompletes | crates/folk-ext/src/bridge.rs:350-369 | after any calls on a raw body, reading all of it completes the body |
| Bodies.NextPartAdvances | crates/folk-ext/src/bridge.rs:380-431 | the next header is that of the next part in the stream, whatever was left unread, and none once the parts are used up |
| Bodies.RunTracksParts | crates/folk-ext/src/bridge.rs:313-501 | after any mix of the five calls, the headers returned are those of the first parts and the bytes read under each are a prefix of that part's |
| Bodies.RawBodyConserved | crates/folk-ext/src/bridge.rs:323-369 | after any calls, bytes returned so far followed by leftover and unread chunks are the whole raw body |
| Bodies.DoneAbsorbs | crates/folk-ext/src/bridge.rs:388-390 | a finished multipart cursor returns nothing and does not change |
| Bodies.ParseEncode | crates/folk-ext/src/bridge.rs:392-429 | whole parts in any chunking, followed by anything, are read as those parts followed by what the rest reads as |
| Bodies.SplitsIntoParts | crates/folk-ext/src/bridge.rs:392-429 | every message stream is encoded whole parts followed by something that starts with none, and yields those parts and at most the one cut off |
| Bodies.SplitIsLongest | crates/folk-ext/src/bridge.rs:392-429 | no other way to take whole parts off the front of a stream finds more of them |
| Bodies.PartsRoundTrip | crates/folk-ext/src/bridge.rs:467-501 | asking for each part and reading all of it gives back the list of parts that was sent, whatever the chunking |
| Bodies.EmptyReadIff | crates/folk-ext/src/bridge.rs:315-344 | a raw read is empty exactly at the end, for length zero, or on an empty chunk |
| Bodies.EmptyPartReadIff | crates/folk-ext/src/bridge.rs:433-465 | a part read is empty exactly when the part is used up, for length zero, or on an empty piece |
| Bodies.EmptyReadBeforeTheEnd | crates/folk-ext/src/bridge.rs:315-317 | a body whose first chunk is empty gives an empty read and then its byte |
| Bodies.ReadLoopReturnsBody | crates/folk-ext/src/bridge.rs:323-344 | over non-empty chunks, as many reads of a byte or more as there are bytes return the whole body in order |
| Bridge.FateMeaning | crates/folk-ext/src/bridge.rs:171-311 | ties the per-request automaton to the chunks sent, the number of receives and the number of done signals |
| Bridge.StepKeepsInv | crates/folk-ext/src/bridge.rs:35-56 | every call, receive and end of dispatch in any order keeps id, reply sender and done sender together and of one task, and a body or a started stream tied to it |
| Bridge.EveryRunSpeaksReplies | crates/folk-ext/src/bridge.rs:141-311 | in every run, nested receives included, each request is sent a reply or the beginning of one, is received and signalled at most once, and is signalled only with its reply complete |
| Bridge.EveryRunIsIsolated | crates/folk-ext/src/bridge.rs:141-163 | in every run no chunk and no signal reaches a request outside its own window |
| Bridge.DispatchCompletes | crates/folk-ext/src/bridge.rs:535-625 | whatever a handler calls and returns, its request ends with a whole reply and exactly one signal, and no other request is sent anything |
| Bridge.FinaliseAdds | crates/folk-ext/src/bridge.rs:580-625 | the end of a dispatch adds only the end chunk after a head, the result before it otherwise, and nothing once the handler finished; an error thrown goes out as its bare message, a plain value as it is |
| Bridge.StepsTakeInOrder | crates/folk-ext/src/bridge.rs:141-163 | a receive takes the oldest task, and no other step receives or drops one |
| EndToEnd.CallerGetsMeaning | crates/folk-ext/src/bridge.rs:575-623 | the caller reads the first finishing call, the page written, or the handler's return value, with either collector |
| Answers.ValueAnswers | crates/folk-ext/src/bridge.rs:201-206 | a value with an `__error` field answers as that error, its message, class and trace being those fields' strings, and any other value answers as itself |
| Answers.FirstFinishDecides | crates/folk-ext/src/bridge.rs:171-237 | the first finishing call decides what either collector reads: the value or error sent, an error for malformed text, or the page written so far |
| Answers.ResultDecides | crates/folk-ext/src/bridge.rs:575-623 | a handler that finished nothing is its page if it gave a head, and otherwise the value it returned or the message it threw |
| Answers.AnswersFit | crates/folk-ext/src/bridge.rs:243-311 | a head or write is accepted exactly when its chunk reaches the client; a second head, and any call but an error report after the finish, is refused |
| EndToEnd.CollectorsAgreeOnDeliveries | crates/folk-core/src/worker_pool.rs:221-259 | in every run and however early the client leaves, both collectors make the same of what was delivered |
| EndToEnd.HandlerReadsItsBody | crates/folk-ext/src/bridge.rs:548-559 | a handler's reads are reads of its own request's body from the start, and yield nothing once it has finished the request |
| EndToEnd.HandlerWalksItsParts | crates/folk-ext/src/bridge.rs:371-501 | through a whole dispatch a handler gets its own parts' headers in order and a prefix of each part's bytes |
| WorkerThread.LoopAnswersAll | crates/folk-ext/src/bridge.rs:512-628 | the dispatch loop gives every queued task one whole reply that means what its handler meant, and touches no other request |
| WorkerThread.LoopTakesInOrder | crates/folk-ext/src/bridge.rs:535-628 | the loop receives the tasks in the order they came |
| WorkerThread.WorkerState.DoRecv | crates/folk-ext/src/bridge.rs:141-163 | takes the oldest task and resets every per-request field, or reports the close and changes nothing |
| WorkerThread.WorkerState.Send | crates/folk-ext/src/bridge.rs:171-211 | takes both senders and clears the request; sends the value, its error, or an error for malformed text, then end and signal |
| WorkerThread.WorkerState.SendError | crates/folk-ext/src/bridge.rs:214-237 | sends an error and the end on whatever sender is left, signals, and clears the request |
| WorkerThread.WorkerState.WriteHead | crates/folk-ext/src/bridge.rs:243-264 | one head per request; started even when the client is gone; refused without a request |
| WorkerThread.WorkerState.Write | crates/folk-ext/src/bridge.rs:267-287 | sends a non-empty chunk, with or without a head, and changes nothing else |
| WorkerThread.WorkerState.WriteEnd | crates/folk-ext/src/bridge.rs:290-311 | takes both senders, clears the request, sends end and signal |
| WorkerThread.WorkerState.Read | crates/folk-ext/src/bridge.rs:323-344 | refines the byte cursor's read |
| WorkerThread.WorkerState.ReadAll | crates/folk-ext/src/bridge.rs:350-369 | the draining loop returns leftover and all chunks, and leaves an exhausted body |
| WorkerThread.WorkerState.NextPart | crates/folk-ext/src/bridge.rs:380-431 | the draining loop skips exactly the rest of the current part before the next header |
| WorkerThread.WorkerState.PartRead | crates/folk-ext/src/bridge.rs:435-465 | refines the part cursor's read, in every part state |
| WorkerThread.WorkerState.PartReadAll | crates/folk-ext/src/bridge.rs:469-501 | the loop returns leftover and data up to the part's end, and notes whether that end was there |
| WorkerThread.WorkerState.FinaliseStream | crates/folk-ext/src/bridge.rs:580-625 | refines the end of a dispatch, with both senders taken before anything is sent |
| WorkerThread.WorkerState.RunDispatchLoop | crates/folk-ext/src/bridge.rs:512-628 | runs until the channel closes, answers every task, and goes on to join other workers exactly as worker 1 |
| SlotInfo.SlotInfo.ShouldRecycle | crates/folk-core/src/worker_slot.rs:41-49 | recycles exactly when the job limit is reached or the slot expired |
| SlotInfo.SlotInfo.MarkReady | crates/folk-core/src/worker_slot.rs:52-56 | from spawning to idle under the worker's id, jobs untouched |
| SlotInfo.SlotInfo.MarkBusy | crates/folk-core/src/worker_slot.rs:59-62 | from idle to busy, id and jobs untouched |
| SlotInfo.SlotInfo.MarkIdle | crates/folk-core/src/worker_slot.rs:65-72 | one more job; busy becomes idle and stopping stays |
| Supervisors.Supervisor.Spawn | crates/folk-core/src/worker_pool.rs:350-362 | notes the generation before asking for a worker; a failed spawn leaves the slot vacant |
| Supervisors.Supervisor.Boot | crates/folk-core/src/worker_pool.rs:468-494 | a ready worker makes the slot idle under its id, and the slot was spawning; any other outcome terminates it |
| Supervisors.Supervisor.Select | crates/folk-core/src/worker_pool.rs:364-416 | reload first, then shutdown, then the inbox, each as the slot system's move, marking an idle slot busy |
| Supervisors.Supervisor.Submit | crates/folk-ext/src/runtime.rs:212-239 | puts the task at the end of a living worker's channel and waits |
| Supervisors.Supervisor.Finish | crates/folk-core/src/worker_pool.rs:417-464 | the permit goes, one more job is counted on a busy slot, and the worker is recycled for a reload or a policy unless it cannot be |
| Supervisors.Supervisor.Join | crates/folk-core/src/worker_pool.rs:460-463 | after the worker is gone the slot starts over with a new record, or the supervisor returns |
| Slots.MoveKeepsInv | crates/folk-core/src/worker_pool.rs:337-494 | every move keeps: worker and slot record agree, seen generation up to boot generation up to pool generation, handle and job counts, and the thread owing only the running and the timed-out requests |
| Slots.PushKeepsInv | crates/folk-core/src/worker_pool.rs:309-313 | a request the slot never saw joins its inbox and nothing else changes |
| Slots.EndedIsNotHeld | crates/folk-ext/src/runtime.rs:241-245 | a done signal means the reply is over, and a dropped one that the thread no longer works on the request |
| Slots.ArmIsTheOnlyOne | crates/folk-core/src/worker_pool.rs:367-401 | the biased select: reload, then shutdown, then the inbox, and no other arm can be taken |
| SlotProperties.TakesOnlyWithFreshCode | crates/folk-core/src/worker_pool.rs:366-388 | a recyclable worker takes a request only with the current generation's code and below its job limit |
| SlotProperties.StaleOnlyDecreases | crates/folk-core/src/worker_pool.rs:380-386 | no move makes a slot stale, and each recycle for a reload ends a stale worker |
| SlotProperties.StaleIdleMustRecycle | crates/folk-core/src/worker_pool.rs:366-388 | a stale idle worker can be recycled at once and can do nothing else |
| SlotProperties.StaleFinishRecycles | crates/folk-core/src/worker_pool.rs:439-464 | a stale worker is recycled after its request, however that ended |
| SlotProperties.ReleasesAfterEnd | crates/folk-core/src/worker_pool.rs:417-430 | a slot lets go of a request by completion, time out, loss or panic, and completion means a whole reply and one signal |
| SlotProperties.WorkerStaysIff | crates/folk-core/src/worker_pool.rs:431-464 | after a request the worker stays if and only if it cannot be recycled, or is current, below the job limit and within its time; otherwise it is terminated to be replaced |
| SlotProperties.BootsAfresh | crates/folk-core/src/worker_pool.rs:468-494 | a worker that boots is idle under its own id, with no jobs, no tasks and the current generation |
| SlotProperties.BootsAgain | crates/folk-core/src/worker_pool.rs:354-361 | after a failed boot the slot is vacant again with a new record, its inbox untouched |
| SlotProperties.FreshIdleStays | crates/folk-core/src/worker_pool.rs:380-388 | a reload that fell in the boot of an idle worker is noted and changes nothing else |
| SlotProperties.IdleSlotProceeds | crates/folk-core/src/worker_pool.rs:366-401 | exactly when an idle slot takes the next request, and that it is never stuck with something to do |
| SlotProperties.DeadThreadIsNoticed | crates/folk-core/src/worker_pool.rs:417-427 | a supervisor whose thread is gone sees completion or loss |
| SlotProperties.DroppedSlotExits | crates/folk-core/src/worker_pool.rs:371-379 | once the pool is dropped, an idle recyclable worker can only be shut down, and its supervisor then returns |
| SlotProperties.EndsOnlyBy | crates/folk-core/src/worker_pool.rs:371-398 | a supervisor ends only by a panic or after shutting its worker down, and a recyclable thread is gone before its slot goes on |
| SlotProperties.BacklogIsTimeouts | crates/folk-ext/src/runtime.rs:226-245 | a thread's unfinished tasks are at most its timed-out requests plus the running one: at most one without time outs |
| SlotProperties.SubmitBlocksIff | crates/folk-ext/src/runtime.rs:229-239 | handing over a task blocks if and only if the thread lives and at least eight requests timed out before it received them |
| SlotProperties.SubmitDoesNotBlock | crates/folk-ext/src/runtime.rs:229-239 | so it does not block while fewer than eight requests timed out on the worker |
| SlotProperties.SubmitCanBlock | crates/folk-ext/src/runtime.rs:229-230 | eight time outs on a thread that never receives lead to such a state |
| SlotProperties.RecyclesEveryLimit | crates/folk-core/src/worker_pool.rs:441-464 | with only the job limit firing, k requests make k / max(1, max_jobs) recycles and leave the worker k mod max(1, max_jobs) jobs old |
| SlotProperties.MainWorkerStays | crates/folk-core/src/worker_pool.rs:443-448 | a worker that cannot be recycled is never let go while the inbox stays open, short of a panic |
| Service.IdleSlotServes | crates/folk-core/src/worker_pool.rs:403-430 | an idle slot can take the next request, hand it over without waiting, and complete it, and the caller reads what the handler meant |
| Router.VisitsEachSlotOnce | crates/folk-core/src/worker_pool.rs:303-304 | the attempts for one request visit every slot exactly once |
| Router.PassFindsFirst | crates/folk-core/src/worker_pool.rs:300-325 | a request goes to the first usable slot in routing order, is refused only when none is, and only closed inboxes are marked dead |
| Router.PickIsLive | crates/folk-core/src/worker_pool.rs:323-326 | with a live slot no request is lost, and it goes to a live one |
| Router.SameSlotAfterLive | crates/folk-core/src/worker_pool.rs:289-326 | with L live slots a slot gets its next request exactly L requests later, so L consecutive ones go to L different slots |
| Router.EveryLiveSlotServed | crates/folk-core/src/worker_pool.rs:289-326 | any L consecutive requests include one for each live slot |
| Router.Dispatcher.Route | crates/folk-core/src/worker_pool.rs:296-326 | the loop with its cursor and dead marks in place makes that pass, and the request is always in hand when it is sent |
| PoolRuns.DeliveriesArePicks | crates/folk-core/src/worker_pool.rs:296-326 | over any stretch of the pool in which no slot dies, the slots delivered to are those that whole passes would pick, one after the other |
| PoolRuns.RouterGoesRound | crates/folk-core/src/worker_pool.rs:289-326 | over such a stretch of a run, with L slots open, two deliveries at most L apart go to the same slot if and only if they are exactly L apart |
| PoolRuns.EveryOpenSlotGetsOne | crates/folk-core/src/worker_pool.rs:289-326 | and any L consecutive deliveries include one to each open slot |
| PoolRuns.RunsJoin | crates/folk-core/src/worker_pool.rs:277-335 | a run is the run of any first stretch of its events, continued with the rest |
| Pool.PoolStepKeepsInv | crates/folk-core/src/worker_pool.rs:111-141 | every step of callers, router, slots, reloads and shutdown keeps conservation, the slots' invariants and the router's marks; their order is `PoolOrder` |
| PoolProperties.OnePlaceEach | crates/folk-core/src/worker_pool.rs:117-138 | after any run each request with a permit is in exactly one place, and free permits plus unfinished requests make the worker count |
| PoolProperties.StartsOnce | crates/folk-core/src/worker_pool.rs:389-411 | a request taken by a supervisor was never taken before by any slot |
| PoolProperties.NeverStartsTwice | crates/folk-core/src/worker_pool.rs:389-411 | over any run a request is handed to a worker at most once, and as often as it is found executing, answered or lost to a panic |
| PoolOrder.QueueIsFair | crates/folk-core/src/worker_pool.rs:296 | over any run the requests the router took, then those still queued, are those enqueued, in that order |
| PoolOrder.InboxIsFair | crates/folk-core/src/worker_pool.rs:309-313 | over any run what an open slot took, then its inbox, is what was delivered to it, in that order; a dead slot took the first of it |
| PoolOrder.TasksAreFair | crates/folk-ext/src/runtime.rs:229-239 | over any run a thread has received the first of what was handed to it, in order, and the rest is queued for it while it lives |
| PoolOrder.ChannelsBounded | crates/folk-core/src/worker_pool.rs:67-68 | no run puts more into the queue, an inbox or a task channel than it holds |
| PoolOrder.EndsAreTold | crates/folk-core/src/worker_pool.rs:117-138 | exactly which events finish, lose or discard a request |
| PoolOrder.StaysUntilDropped | crates/folk-core/src/worker_pool.rs:364-401 | in every run no supervisor returns, or lets its worker go for good, before the pool is dropped |
| PoolOrder.ClosingIffDropped | crates/folk-core/src/worker_pool.rs:93-124 | a pool is closing exactly once it was dropped, and from then on nothing is acquired or reloaded |
| PoolOrder.ReturnsLast | crates/folk-core/src/worker_pool.rs:326-335 | when the pool task has returned, the pool was dropped, no request is left anywhere in it, and all permits are back |
| PoolProperties.GivesUpOnlyWhenAllClosed | crates/folk-core/src/worker_pool.rs:323-326 | the router drops a request only when every slot is closed |
| PoolProperties.PermitComesBack | crates/folk-core/src/worker_pool.rs:428-430 | the only ways a permit comes back; on completion the whole reply was sent and its window is closed |
| PoolProperties.RouterNeverWaits | crates/folk-core/src/worker_pool.rs:274 | with at most eight workers no inbox is full when the router sends |
| PoolProperties.CallerNeverWaits | crates/folk-core/src/worker_pool.rs:68 | with at most 1024 workers the queue is not full when a caller sends |
| PoolProperties.PoolTakesFreshCode | crates/folk-core/src/worker_pool.rs:93-100 | in the whole pool, a recyclable worker takes requests only with the current generation |
| PoolProperties.ReloadsCoalesce | crates/folk-core/src/worker_pool.rs:93-100 | over any run a slot recycles for reloads at most once per call |
| PoolProperties.StaleRunsOut | crates/folk-core/src/worker_pool.rs:371-388 | in one slot's move, the stale workers left in the pool and a recycle for a reload are no more than the stale workers before |
| PoolRuns.StaleWorkersRunOut | crates/folk-core/src/worker_pool.rs:371-388 | over any stretch of a run without a reload, the recycles for reloads and the workers still stale at its end are no more than the workers stale at its start |
| PoolProperties.HandlesBounded | crates/folk-core/src/worker_pool.rs:468-494 | after any run at most one handle per slot is spawned and neither terminated nor lost to a panic |
| PoolProperties.RepliesStayWellFormed | crates/folk-core/src/worker_pool.rs:210-259 | in every reachable pool both collectors agree on every prefix of what any thread sent, and a request is served by one slot only |
| PoolProperties.InboxNeverSeenClosed | crates/folk-core/src/worker_pool.rs:329-332 | no supervisor ever sees its inbox closed |
| PoolProperties.MainThreadHoldsPoolOpen | crates/folk-core/src/worker_pool.rs:389-398 | a slot serving the main thread keeps it through every run, and the pool task does not return, unless that supervisor panics |
| Spawning.HandlesApart | crates/folk-ext/src/runtime.rs:81-110 | in every interleaving the pre-connected channel is handed out at most once and ids differ until the counter wraps |
| Spawning.JoinsOnlyOnMain | crates/folk-ext/src/bridge.rs:562-568 | the join is reached by the main thread, and by another exactly when its ticket is a multiple of the id space |
| Spawning.UndisturbedSpawn | crates/folk-ext/src/runtime.rs:98-110 | a spawn nobody interferes with takes the channel if it is there, starts a thread of its own if more than one worker is configured, and fails otherwise |
| Spawning.MainIsOneIff | crates/folk-ext/src/lib.rs:83-84 | in every interleaving the main thread's handle has the id of its bridge, if and only if there is at most one supervisor |
| Spawning.MainHandleCanBeTwo | crates/folk-ext/src/lib.rs:83-84 | with any two or more supervisors, an interleaving that gives the main thread's handle id 2 |
| Spawning.LoneSpawnIsOne | crates/folk-ext/src/runtime.rs:98-110 | with a single supervisor the only handle is the main thread's, with id 1 |
| Spawning.ExtensionRuntime.HasPreconnected | crates/folk-ext/src/runtime.rs:101 | looks at the channel list without keeping it |
| Spawning.ExtensionRuntime.FetchAddId | crates/folk-ext/src/runtime.rs:56 | hands out the ticket's id, wrapping at 32 bits |
| Spawning.ExtensionRuntime.PopChannel | crates/folk-ext/src/runtime.rs:81-96 | takes the channel if it is still there, and only then makes a handle |
| Zvals.ValueToZval | crates/folk-ext/src/zval_convert.rs:10-57 | the table-building loops compute the conversion to PHP |
| Zvals.ZvalToValue | crates/folk-ext/src/zval_convert.rs:60-107 | the map-building loop and the list conversion compute the way back |
| Zvals.ToZvalStands | crates/folk-ext/src/zval_convert.rs:10-57 | what PHP receives stands for the value sent: each kind as its own, lists under 0 to n-1, and a table with exactly the keys spelled, the last writer of each counting |
| Zvals.ToValueReads | crates/folk-ext/src/zval_convert.rs:60-107 | what PHP returns is read likewise: any table with a string key as an object, the last entry of a name counting, any other as a list in table order, and a double that is not finite as null |
| Zvals.FieldTableShape | crates/folk-ext/src/zval_convert.rs:44-55 | with keys shown as they are read, the table has the object's fields in their order |
| Zvals.TripIsIdentityIff | crates/folk-ext/src/zval_convert.rs:10-107 | a JSON value comes back unchanged if and only if its integers fit 64 signed bits and each object has a key that is no index and only keys shown as they are read |
| Zvals.SurvivorsReturn | crates/folk-ext/src/zval_convert.rs:10-107 | such a value comes back unchanged whatever the codec does |
| Zvals.TripNormalises | crates/folk-ext/src/zval_convert.rs:22-30 | without index-like keys, empty objects come back as arrays, large integers as doubles, and nothing else changes |
| Zvals.SecondTripChangesNothing | crates/folk-ext/src/zval_convert.rs:10-107 | after one trip, any value at all comes back unchanged from a second |
| Zvals.NormalIsIdempotent | crates/folk-ext/src/zval_convert.rs:22-30 | a value in normal form is its own normal form |
| Zvals.SomeCodecIsLawful | crates/folk-ext/src/zval_convert.rs:74-94 | 64-bit indices that are read back as shown are possible, beside keys that are no index |

## Left out

- Tokio and standard channels, watch, semaphore and mutex internals: bounded queues with a closed flag, a generation and what was seen of it, and a permit count; a receiver that goes drops what it holds.
- Liveness: nothing is claimed about PHP returning, callers draining replies, or fairness of the scheduler.
- `ChannelWorkerHandle::execute`: it awaits completion before draining a 64-chunk channel, so no progress is claimed; its collector is modelled.
- A full reply channel: a send waits in the source, and here it has already happened.
- Threads of a panicked supervisor: they run on unobserved, as their handle is gone.
- `SlotInfo::mark_dead` and `request_stop`: nothing in the pool calls them.
- The ready handshake of a worker: booting succeeds or fails freely.
- Calls from a thread without worker state: they fail or return nothing at once.
- Lossy UTF-8 decoding of a legacy body, which is a parameter, and JSON text encoding and decoding.
- Zvals.TripIsIdentityIff: reading a key as an index, showing an index and rounding to a double are parameters, as that library code is not part of this model; it assumes 64-bit indices that are read back as shown.
- PHP thread start-up and shutdown, configuration, logging, metrics, health, RPC, file watching and plugins.
