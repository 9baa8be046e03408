# LCW: the completion engine, the ping-pong protocol and the layers around them

LCW wraps communication libraries behind one post / progress / poll interface. This project models
the logic that LCW itself owns and proves what it is for, over every run and every interleaving:

- **The MPI completion engine** (`Engine*.dfy`). Any number of threads of any number of processes
  post sends, receives and puts, rotate shared deques of pending entries under try-locks, recycle one
  put receive per device with copy-out and repost, throttle on a check-then-increment counter, and
  push completions to queues that others poll. The model has one program location per thread and splits
  at every lock boundary, every atomic operation and every MPI call. Both unlocked hint reads are arbitrary
  booleans, so nothing proved can depend on them.
- **The windowed ping-pong** (`PingPong*.dfy`, `Payload.dfy`): workers on paired ranks exchange windows of
  messages and reuse the same tags in every iteration, over a library that matches on
  communicator, source, destination and tag only. Each device's put receive, which the MPI backend keeps
  posted on the largest tag from any source, competes for the messages.
- **Its thread and device layout** (`Layout.dfy`) and **device sequence control** (`DeviceSequence.dfy`).
- **The two completion managers** (`Managers.dfy`) and the **completion queue** (`CompletionQueue.dfy`) as
  objects.
- **Big-count datatypes** (`BigCount.dfy`), by the type maps of section 4.1.2 of MPI-3.1.
- **Context ownership in the LCI2 backend** (`Lci2.dfy`).

`EngineModel` is the state machine; `EngineInvariant` states the inductive invariant (who holds which
lock, where every operation and every heap record is, what each of them holds); `EngineRows`,
`EngineData`, `EnginePlaces`, `EngineStep` and `EngineInduction` prove it location by location for thread
steps and `EngineReach` for message deliveries, the initial state and every run. `EngineTheorems`,
`EngineRest`, `EngineLedger`, `EngineBound` and `EngineWire` draw the consequences, and `EngineWorks` shows that calls which find
their locks free and MPI's answers favourable do what they are for. For the ping-pong, `PingPongBase` proves
what every run keeps, `PingPongSafety` and `PingPongProgress` what holds when the tags are within
get_max_tag, and `PingPongTags` that this bound is exact. The
engine is modelled on values because its subject is the interleaving of threads; code that one thread
runs on its own objects is modelled by classes and methods.

MPI is an environment. It delivers a message to any posted receive that agrees in communicator,
source, destination and tag, in any order (the communicators allow overtaking); it reports
completions when it likes; a successful test sets the request to null (section 3.7.3 of MPI-3.1).

## Model

| member | source | states |
|---|---|---|
| `EngineInduction.ThreadInv` | src/backend/mpi/backend_mpi.cpp:301-441 | every step of every thread, in send, recv, put, do_progress, signal_comp and poll_cq, keeps the whole invariant |
| `EngineReach.DeliverInv` | src/backend/mpi/backend_mpi.cpp:241-243 | so does every delivery of a message by MPI, with overtaking |
| `EngineReach.RunInv` | src/backend/mpi/backend_mpi.cpp:301-441 | the invariant holds in every state of every run |
| `EngineTheorems.ExactlyOnce` | src/backend/mpi/backend_mpi.cpp:345-441 | every operation ever posted, and no other, is always in exactly one place: a thread's hand, a deque, a put slot, a queue or the user's hands |
| `EngineTheorems.DeliveredOnce` | src/backend/mpi/backend_mpi.hpp:120-143 | no completion is handed out twice, by a poll or a handler, and none that is still queued was handed out |
| `EngineWire.MessagesConserved` | src/backend/mpi/backend_mpi.cpp:369-375 | at all times every send and put is either in one thread's hand before its isend, or on the wire, or received by exactly one receive, and never two of these |
| `EngineWire.SentWhenAdded` | src/backend/mpi/backend_mpi.cpp:435-440 | whatever is in a deque, queued or handed out has its message on the wire or received |
| `EngineTheorems.DeliveredRecord` | src/backend/mpi/comp_manager/manager_req.cpp:41-52 | what the user is told: a send's or put's posted record; a receive's with the sender's rank, tag and length; a put signal's with a private copy of exactly the bytes of the put it matched |
| `EngineTheorems.QueuedWhereAsked` | src/comp/cq/cq.cpp:15-19 | a queue holds only completions of operations that named it, each a live record with its final contents |
| `EngineTheorems.DeliveredHome` | src/backend/mpi/backend_mpi.hpp:141-142 | a completion reaches the process that owns the operation, and only completion objects that are queues keep completions |
| `EngineTheorems.HeapConserved` | src/backend/mpi/backend_mpi.hpp:120-143 | the live request records are exactly those of entries, put slots, queued completions and threads' hands, each owned once: no leak and no double delete |
| `EngineTheorems.DeletedForGood` | src/comp/cq/cq.cpp:20-27 | no step brings a deleted record back |
| `EngineTheorems.OnePutReceive` | src/backend/mpi/backend_mpi.cpp:192-218 | never two receives are posted on one put_rbuf, and whenever put_entry_lock is free exactly one is: from any source, on the largest tag, for the whole buffer, with the device's put completion |
| `EngineReach.OneFreshPut` | src/backend/mpi/backend_mpi.cpp:309-338 | at most one put receive per device is posted or completed and not yet copied out, in the slot or in one thread's hand |
| `EngineTheorems.PutBufferKept` | src/backend/mpi/backend_mpi.cpp:317-332 | from the arrival of a put to the copy-out the buffer holds its bytes and no other receive is posted on it |
| `EngineTheorems.TrafficSeparated` | src/backend/mpi/backend_mpi.cpp:246-257 | if users keep tags within get_max_tag, a put receive matches only puts and a user receive only sends, on one communicator, one to one |
| `EngineWire.PutSlotReceives` | src/backend/mpi/backend_mpi.cpp:213-215 | while the put lock is free and nothing has arrived, MPI may deliver to the slot exactly the fitting messages addressed to it on the tag just above get_max_tag: every put from any process, and nothing on a tag that users may use |
| `EngineWire.RecvReceives` | src/backend/mpi/backend_mpi.cpp:397-399 | a receive in a deque that no message reached may get every message that agrees with it and fits |
| `EngineTheorems.ProgressIsHonest` | src/backend/mpi/backend_mpi.cpp:339-342 | do_progress, which adds up the outcomes of its two tests, returns true exactly when this call signalled a completion |
| `EngineTheorems.SignalsUnlocked` | src/backend/mpi/backend_mpi.cpp:334-337 | a thread that signals, counts or deletes holds no lock, so a handler may re-enter |
| `EngineTheorems.MpiUnderStreamLock` | src/backend/mpi/backend_mpi.hpp:100-118 | in stream mode every isend, irecv and test runs under the stream lock of the operation's own device, even when devices share a manager |
| `EngineTheorems.LocksOrdered` | src/backend/mpi/backend_mpi.cpp:308-338 | what a thread wants to lock lies strictly above all it holds, so waiting has no cycle |
| `EngineRest.CallIsFinite` | src/backend/mpi/backend_mpi.cpp:301-343 | no call goes back: each takes at most twenty steps |
| `EngineRest.SomeoneGoes` | src/backend/mpi/comp_manager/manager_req.cpp:9-40 | whenever a thread is inside a call, some thread inside a call can go on |
| `EngineRest.CallsFinish` | src/backend/mpi/backend_mpi.cpp:301-441 | from every reachable state, however the calls in progress go on and whatever hints, try-locks and tests return, they take at most twenty steps per thread, and when none can take another all have returned |
| `EngineWorks.ProgressDelivers` | src/backend/mpi/comp_manager/manager_req.cpp:17-53 | a do_progress that finds the locks free and the front entry complete, or its test successful, hands that operation to the queue or handler it named, counts its end by kind, and is about to return true |
| `EngineWorks.PutDelivers` | src/backend/mpi/backend_mpi.cpp:309-342 | the same for a put that arrived in the slot, whatever the manager part does |
| `EngineWorks.PostWorks` | src/backend/mpi/backend_mpi.cpp:345-441 | a send, recv or put that is not refused and finds the locks free returns with its operation logged, issued to MPI, last in its manager's deque, and counted as started by kind |
| `EngineWorks.RefusedIff` | src/lcw.cpp:131-138 | a post is refused exactly for a send or put while the counter is above the limit, and then leaves only a retry count |
| `EngineWorks.PollWorks` | src/lcw.cpp:104-120 | a poll of a queue that is not empty hands over the oldest record, deletes it and counts it |
| `EngineLedger.PendingBound` | src/backend/mpi/backend_mpi.cpp:348-355 | with the throttle on, g_pending_msg always equals the number of admitted sends and puts not counted down, is never negative and never exceeds the limit by more than the number of the process's threads |
| `EngineBound.BoundReached` | src/backend/mpi/backend_mpi.cpp:348-355 | for every limit and number of threads some run reaches that bound |
| `EngineLedger.CountersAgree` | src/lcw.cpp:104-180 | when no thread is inside a call, started minus ended sends and puts equal g_pending_msg and the outstanding operations, puts by themselves too, and with queues only, produced minus consumed equals the total queued |
| `PingPongInvariant.TagInjective` | examples/pingpong_mt.cpp:88-93 | a tag determines the worker and the window index |
| `PingPongBase.StepBase` | examples/pingpong_mt.cpp:167-356 | every step, even a put receive taking a message, keeps each worker's program counter in agreement with what is posted, completed, queued and polled, and no message is taken twice |
| `PingPongBase.HeadFacts` | examples/pingpong_mt.cpp:223-266 | each completion a worker polls was posted by that worker in its current iteration and not polled before |
| `PingPongSafety.MatchIsMate` | examples/pingpong_mt.cpp:183-351 | as long as no put receive took a message, whatever user matching MPI can make pairs a receive with the send of the same worker, size, iteration and index, although MPI sees only the tag |
| `PingPongSafety.StepInv` | examples/pingpong_mt.cpp:167-356 | every post, poll, match, completion and barrier departure keeps the cross-rank invariant |
| `PingPongSafety.AllAssertsHold` | examples/pingpong_mt.cpp:228-265 | with tags within get_max_tag, every test-mode assertion on context, device, length, operation, buffer, rank, tag and payload holds in every run |
| `PingPongSafety.OneInFlight` | examples/pingpong_mt.cpp:183-351 | with tags within get_max_tag, at most one message per direction and tag is in flight |
| `PingPongSafety.NothingStale` | examples/pingpong_mt.cpp:272-275 | with tags within get_max_tag, a receive buffer is all zeros from the post of the receive until its message arrives |
| `PingPongSafety.ReplyExpected` | examples/pingpong_mt.cpp:186-200 | with tags within get_max_tag, every reply's receive was posted before the reply is sent |
| `PingPongProgress.StepShrinks` | examples/pingpong_mt.cpp:183-356 | every step, even a put receive taking a message, removes one task from a finite set and adds none |
| `PingPongProgress.Progress` | examples/pingpong_mt.cpp:183-356 | with tags within get_max_tag, every reachable state that is not final has a possible step that lowers the measure, even if sends complete only after their receive is posted and whatever the throttle's limit |
| `PingPongProgress.SendMoves` | examples/pingpong_mt.cpp:185-221 | as long as no put receive took a message, a posted send never waits for ever on its receive: it is posted, or its worker can post it or move towards it |
| `PingPongProgress.EveryRunEnds` | examples/pingpong_mt.cpp:167-371 | under any schedule runs are bounded; with tags within get_max_tag a run that cannot go on, not even by a send that completes only after it was received, has finished |
| `PingPongProgress.AllPolledAtEnd` | examples/pingpong_mt.cpp:223-349 | at the end every planned operation was completed and polled, and with tags within get_max_tag every receive got exactly its partner |
| `PingPongProgress.WindowsAtEnd` | examples/pingpong_mt.cpp:183-350 | at the end each worker of the starting ranks has polled, in every size and iteration, exactly send_window sends and recv_window receives, and each worker of the answering ranks the other way round |
| `PingPongProgress.PostAllowedIff` | src/backend/mpi/backend_mpi.cpp:348-355 | a worker may post a receive at any time, and a send exactly while its rank's pending sends are within the limit |
| `PingPongProgress.ThrottleKept` | src/backend/mpi/backend_mpi.cpp:348-355 | with the throttle on, a rank never has more than one send above the limit posted and not completed |
| `PingPongTags.TheftIff` | src/backend/mpi/backend_mpi.cpp:245-257 | a put receive can take a message of the ping-pong in some run iff the number of workers times the wider window is above MPI_TAG_UB |
| `PingPongTags.TheftHangs` | src/backend/mpi/backend_mpi.cpp:309-338 | after that the exchange can never finish: one receive is left without a message |
| `PingPongTags.FinishesIff` | examples/pingpong_mt.cpp:88-93 | every run that cannot go on has finished iff the number of workers times the wider window is at most MPI_TAG_UB |
| `PingPongTags.HangsAt128By256` | examples/pingpong_mt.cpp:88-93 | with MPI_TAG_UB 32767, 128 workers and windows of 256 some run is stuck before the end |
| `Payload.WriteBuffer` | examples/comm_exp.hpp:28-35 | fills exactly the given range with the payload of the seed, leaves ranges of at most four bytes alone, and the result passes the check |
| `Payload.CheckBuffer` | examples/comm_exp.hpp:37-50 | accepts a range if and only if it is some seed's payload, for any generator |
| `Payload.GenuineIff` | examples/comm_exp.hpp:37-50 | that is so exactly when it is the payload of the seed in its first four bytes, and no two seeds share a payload |
| `Managers.RequestManager.DoProgress` | src/backend/mpi/comp_manager/manager_req.cpp:17-53 | signals the front entry exactly if its request is null or MPI says it is complete, with the status in a receive's rank, tag and length, and else moves just that entry to the back; without the lock nothing changes; true exactly when it signalled |
| `Managers.RoundRobin` | src/backend/mpi/comp_manager/manager_req.cpp:9-40 | an entry at position p is the one tested by exactly the (p+1)-th winning call, however many entries add_entry appends and whatever completes meanwhile |
| `Managers.FullSweep` | src/backend/mpi/comp_manager/manager_req.cpp:17-53 | with fixed answers from MPI, one sweep signals exactly the entries whose request is null or complete and keeps exactly the active ones that are not, both in order |
| `Managers.ContinuationManager.AddEntry` | src/backend/mpi/comp_manager/manager_cont.cpp:22-37 | attaches the entry, or signals it if the callback fires at once |
| `Managers.ContinuationManager.Invoke` | src/backend/mpi/comp_manager/manager_cont.cpp:11-20 | signals the posted record of one attached entry and deletes the entry |
| `Managers.VisitRefines` | src/backend/mpi/comp_manager/manager_req.cpp:17-53 | a do_progress is one draw from the bag of pending operations, or nothing |
| `Managers.FireRefines` | src/backend/mpi/comp_manager/manager_cont.cpp:11-20 | a callback is one draw from the same bag |
| `Managers.SameCompletions` | src/backend/mpi/comp_manager/manager_cont.cpp:11-37 | given the same operations, both managers once drained have signalled the same ones with the same device, buffer and context, and the same full records when every status confirms its record |
| `CompletionQueue.Queue.Signal` | src/comp/cq/cq.cpp:15-19 | one more copy is alive and queued last |
| `CompletionQueue.Queue.Poll` | src/comp/cq/cq.cpp:20-27 | hands over and deletes the oldest copy; what was signalled is always what was polled, in order, then what is queued |
| `BigCount.ChunkedMap` | src/backend/mpi/bigcount_wrapper.hpp:21-32 | the structure of chunks and remainder denotes the bytes 0..n-1 in order, each once |
| `BigCount.AssertionBound` | src/backend/mpi/bigcount_wrapper.hpp:13-29 | the assertions pass exactly below INT_MAX squared; then all counts are ints and the displacement fits an MPI_Aint |
| `BigCount.Library.TypeContiguous` | src/backend/mpi/bigcount_wrapper.hpp:11-38 | fails exactly from INT_MAX squared on; otherwise one more type is alive, and it denotes the bytes 0..nbytes-1 |
| `BigCount.Library.Post` | src/backend/mpi/bigcount_wrapper.hpp:40-79 | isend and irecv name exactly the bytes of the message on both paths and leave no datatype behind |
| `Layout.DeviceInRange` | examples/pingpong_mt.cpp:135-139 | every worker's device index is below the number of devices |
| `Layout.DeviceIndexIs` | examples/pingpong_mt.cpp:136-138 | worker w gets device d iff w is in the d-th group of consecutive workers, and groups are as small as the number of devices allows |
| `Layout.ResponsibleIff` | examples/pingpong_mt.cpp:137-140 | device d has exactly one responsible worker iff d times the group size is below the number of workers, and else none |
| `Layout.ServedDevices` | examples/pingpong_mt.cpp:137-140 | the devices with a responsible worker are the first ones, and how many |
| `Layout.Spawn` | examples/pingpong_mt.cpp:472-489 | which threads the loop starts, how many of each kind, and that the workers are as many as the worker barrier waits for iff nprgthreads is zero or divides nthreads |
| `Layout.SpawnCount` | examples/pingpong_mt.cpp:467-489 | at least nprgthreads progress threads, exactly that many iff nprgthreads divides nthreads |
| `Layout.SpawnFive` | examples/pingpong_mt.cpp:467-489 | five threads with two progress threads asked for: three progress threads and two workers, not three |
| `Layout.Round` | examples/pingpong_mt.cpp:399-406 | one round of a progress thread visits exactly its block of existing devices, in order |
| `Layout.EveryDeviceOnce` | examples/pingpong_mt.cpp:399-406 | the blocks of the progress threads contain every device exactly once, and surplus threads visit none |
| `DeviceSequence.StepInv` | examples/pingpong_mt.cpp:140-152 | every step on the counter, with increment and reset apart, keeps the invariant |
| `DeviceSequence.InOrder` | examples/pingpong_mt.cpp:140-152 | in every interleaving devices are allocated in order, one at a time, and freed in the same order after all allocations |
| `DeviceSequence.BackAtZero` | examples/pingpong_mt.cpp:150-151 | after each round the counter is back at zero iff every device has a responsible worker |
| `DeviceSequence.NoneFreed` | examples/pingpong_mt.cpp:376-392 | without a responsible worker for every device no device is ever freed |
| `DeviceSequence.StuckOnlyAtEnd` | examples/pingpong_mt.cpp:140-152 | a state without a next step is the end of both rounds, or, in the other case, of the first with all threads spinning |
| `DeviceSequence.RunsAreShort` | examples/pingpong_mt.cpp:140-152 | every run has at most seven steps per responsible worker |
| `DeviceSequence.LayoutDecides` | examples/pingpong_mt.cpp:376-392 | with the program's own layout, a run that cannot go on has allocated and freed all devices with the counter at zero iff the last device's group of workers is not empty |
| `DeviceSequence.StuckAtFiveOnFour` | examples/pingpong_mt.cpp:376-392 | five workers on four devices: some run is stuck with three devices allocated and none freed |
| `Lci2.Backend.Post` | src/backend/lci2/backend_lci2.cpp:146-228 | the new context goes to the library, or on a retry is freed at once, and every context stays in exactly one place |
| `Lci2.Backend.Poll` | src/backend/lci2/backend_lci2.cpp:61-84 | the completion's context is freed, once; a missing context identifies exactly the put signals, whose record is made of the status; otherwise every field is the posted one except a receive's length |
| `Lci2.PollOnce` | src/backend/lci2/backend_lci2.cpp:75-82 | a polled context was never freed before, and moves from the queue to the freed ones alone |
| `Lci2.PostOnce` | src/backend/lci2/backend_lci2.cpp:161-170 | a fresh context, held or freed at once, keeps every context in exactly one place |

## Left out

- Relaxed atomics are interleaved in one total order, locks are correct, the queue is a linearizable
  first-in first-out queue, and barriers are correct.
- The engine starts with all devices allocated. `free_device` and `finalize` with traffic outstanding are not
  modelled: the posted put receive is neither cancelled nor released there.
- Two monitoring counters bumped back to back share a step of the engine, and so do allocating a record and the
  increment or unlock next to it; a poll that finds its queue empty is not a step.
- EngineTheorems.SignalsUnlocked: that a handler may call back is stated through the locks held, not by nesting calls; a handler of
  the model consumes its record at once. Handlers under the continuation manager, which may run under a stream lock, are left out.
- `MPI_Get_count` writes an `int`: received lengths above INT_MAX are not covered, nor are receives whose request is null.
- A message longer than its receive aborts the program, so no run of the engine continues past one.
- MPI rejects tags above MPI_TAG_UB; the ping-pong model lets them pass, so a configuration that uses such tags is only known to violate
  the bound of PingPongTags.FinishesIff. The put receive that takes a message then signals a null completion object; the
  model goes on.
- In the ping-pong, SEND mode with test mode on, an even number of ranks and windows of at least one; PUT mode, where workers
  share a put queue, the single-rank case, timing and the random compute delay are left out. The list of message
  sizes is arbitrary instead of the doubling from min_size to max_size.
- The continuation manager's `do_progress` always returns false and only tests and restarts the continuation request; callbacks
  are steps of the library instead.
- `DeviceSequence.RunsAreShort`: counts steps of responsible workers only, since other workers only pass the barriers.
- `barrier` takes no stream lock, so it is not part of the serialization claim.
- Payload.WriteBuffer: the source's loop index is an `int`, so sizes above INT_MAX are not covered, and the seed is laid out little-endian; both
  hold for CheckBuffer too.
- The LCI and GASNet-EX backends, backend selection, environment parsing, logging, affinity, spin-lock tables and printing are thin wrappers
  or configuration without a protocol of their own.
