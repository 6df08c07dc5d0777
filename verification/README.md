# Verified model of the I/O backend: thread pool, DMA ring, network streams and registers

This project models, in Dafny, the three protocols that move work and samples through the I/O backend, proves what
each of them keeps over every run, and composes the last two into one end-to-end statement.

**The thread pool** (`userspace/io_backend/src/thpool.c`).  `PoolModel` is the pool as interleaved atomic steps of any
number of workers, an adder, one caller of `thpool_wait` and a destroyer; a step is one mutex-protected section or one
unprotected read.  Pushes and pulls are split between unlinking and posting, because `thpool_wait` reads `len` without
the queue mutex.  Which sleepers a signal wakes is an argument of the step (at least one if there is any), and
spurious wake-ups are steps of their own.  `PoolInvariant` has the invariant and its proof step by step, over the
per-phase totals of `PoolGauge`; `PoolHistory` reads off a run's steps what was added, run, freed and taken, and
`PoolTheorems` says what the invariant means for that: order, draining, no lost wake-up, `thpool_wait`, shutdown.
`JobQueue` is the linked queue with its binary semaphore on the heap, and `ThreadPool` the pool object, whose methods
are the atomic sections, each proved to take exactly one step of `PoolModel`; running them in any possible order is
proved to be a run, with what that means for the object.

**The DMA ring** (`lib/bbio/src/bbio_backend_local.c` with `driver/stream_dma/streamio-drv.c`).  `RingModel` has the
shared buffers, the driver's completions, the poll counter and an asynchronous engine that reads or writes buffer
memory only when it executes a transfer.  What the engine does during a blocking wait, whether the wait expires or is
interrupted by a signal when no completion comes, and how the DMA layer takes a submission, are arguments.  The number of
buffers is any N >= 1.  `RingInvariant` ties every buffer to its last accepted submission and every submission to the
turn in which its buffer was handed out, and proves that an event keeps the invariant exactly when it is harmless;
`RingHistory` reads off a run what was submitted and handed out, what the engine did and how waits ended, also inside other
events; `RingTheorems` proves of that that the in-place scheme refines a FIFO of copied packets, that reception is a delay line of N
turns, and the order, timeout, sync-barrier and poll properties, for every run without harmful waits, whatever times out
and whatever is refused.  `RingHarm` has two runs in which a harmful wait loses a packet.  `DmaStream` has the objects: the
driver's channel and the library's stream, each method equal to the ring function it implements.

**Network streams and registers** (`lib/bbio/src/bbio_backend_net.c` with
`userspace/io_backend/src/io_backend_call.c`).  `Wire` is the byte format, `Rechunk` how the write-stream server cuts
payloads into DMA buffers under arbitrarily short receives, and `Pipeline` the composition client, channel, server,
ring, device.  `NetStream`, `StreamServer` and `ReadServer` are the client functions and the two server loops as methods
over sockets and local streams, up to a whole connection in each direction.  `Registers` is the remote register channel
step by step against in-order local execution, and `RegisterDevices` the devices as objects.

History fields (what has been sent, reaped, finished and so on) are read by no operation and serve the proofs; the main
results are stated of what `PoolHistory`, `RingHistory` and `Pipeline` read off the steps of a run.
Integers are unbounded except the 32-bit fields on the wire, which are encoded and decoded byte by byte.

Three claims that one might expect are false of the code, and one is true in spite of appearances:

- Re-chunking is lossless only for frames that do not straddle a multiple of the buffer size: the receive loop asks for
  the rest of the frame, not for the rest of the buffer.  `Rechunk.LosslessIffNoStraddle`: lossless for every way of
  splitting the stream if and only if no frame straddles.
- A get whose wait is cut short by a signal hands the buffer out although it is in flight, and a sync whose wait is cut
  short between a transfer and its callback marks a buffer free that has a callback to come.
  `RingInvariant.HarmlessIff`: an event keeps the ring invariant if and only if it does neither.  Both lose packets:
  `RingTheorems.HarmfulGetLosesData`, `RingHarm.CutShortGetLosesAPacket`, `RingHarm.CutShortSyncLosesAPacket`.
- A remote read of a frame of 2^31 bytes or more stores nothing: `NetStream.ReadBackIff`.
- A submission that the DMA layer refuses leaves the status unchanged, and nothing tells the client.  That is harmless:
  `RingTheorems.TxRefinesFifo` and `RingTheorems.RxDelaysByN` hold of runs with any refusals.  Exactly the refused packets
  are missing, and segment numbers shift by the number of refusals before.

Where comments and code disagree the model follows the code: `jobqueue_pull` takes the queue mutex itself although its
comment asks the caller to hold one, and `bsem_wait` waits for the value 1, not 0.

Assumed of the environment: mutexes exclude; a signal wakes at least one sleeper if there is any; the DMA engine is
first come, first served, and fires a transfer's callback after the transfer, in order; sockets are FIFO byte channels.

## Model

| member | source | states |
|---|---|---|
| PoolInvariant.InitInv | userspace/io_backend/src/thpool.c:140-191 | a new pool of any size satisfies the invariant |
| PoolInvariant.LoopTestControl | userspace/io_backend/src/thpool.c:371 | testing the loop condition keeps counters, token and shutdown discipline |
| PoolInvariant.SemSleepControl | userspace/io_backend/src/thpool.c:566-567 | falling asleep on the semaphore loses no wake-up |
| PoolInvariant.SemTakeControl | userspace/io_backend/src/thpool.c:566-570 | taking the token leaves every waiting job with somebody on the way to it |
| PoolInvariant.KeepTestControl | userspace/io_backend/src/thpool.c:375 | the second keepalive test drops no job while keepalive is set |
| PoolInvariant.CountControl | userspace/io_backend/src/thpool.c:377-379 | the working counter is the number of workers between counting in and out |
| PoolInvariant.PullInv | userspace/io_backend/src/thpool.c:483-509 | a pull, with queue empty, one job or more, keeps the whole invariant |
| PoolInvariant.PullPostInv | userspace/io_backend/src/thpool.c:502-503 | the post after a pull keeps the whole invariant, whoever is woken |
| PoolInvariant.AddInv | userspace/io_backend/src/thpool.c:458-473 | linking a job keeps the invariant although nobody has been signalled yet |
| PoolInvariant.AddPostInv | userspace/io_backend/src/thpool.c:475-476 | the post after linking keeps the invariant, whoever is woken |
| PoolInvariant.RunJobInv | userspace/io_backend/src/thpool.c:385-390 | running a job accounts for it exactly once |
| PoolInvariant.UncountInv | userspace/io_backend/src/thpool.c:392-397 | counting out, with the signal to the waiter when nobody works, keeps the invariant |
| PoolInvariant.LeaveControl | userspace/io_backend/src/thpool.c:401-403 | the alive counter is the number of workers that have not left |
| PoolInvariant.IdleMeansFinished | userspace/io_backend/src/thpool.c:216-222 | with nobody counted as working and nothing discarded, every unlinked job has been run |
| PoolInvariant.WaiterInv | userspace/io_backend/src/thpool.c:216-222 | every step of thpool_wait, and a spurious wake-up of it, keeps the invariant |
| PoolInvariant.PostAllInv | userspace/io_backend/src/thpool.c:555-560 | a broadcast keeps the invariant |
| PoolInvariant.EndingInv | userspace/io_backend/src/thpool.c:226-261 | clearing keepalive and tearing the queue down keep the invariant |
| PoolInvariant.StepInv | userspace/io_backend/src/thpool.c:336-571 | every step of every thread keeps the invariant |
| PoolInvariant.RunInv | userspace/io_backend/src/thpool.c:336-571 | the invariant holds in every state any interleaving reaches |
| PoolTheorems.StepUsesFuel | userspace/io_backend/src/thpool.c:371-403 | every step taken inside the pool lowers a measure over queue, token, posts, phases and waiter |
| PoolTheorems.InternalRunsAreFinite | userspace/io_backend/src/thpool.c:371-403 | no interleaving of the threads inside the pool is longer than the measure of its first state |
| PoolTheorems.Settles | userspace/io_backend/src/thpool.c:371-403 | taking any enabled internal steps ends in a state with none enabled |
| PoolTheorems.QuiescentShape | userspace/io_backend/src/thpool.c:371-403 | with no internal step enabled every worker sleeps or is gone and no add is half done |
| PoolHistory.RunHistory | userspace/io_backend/src/thpool.c:336-571 | the history fields are what the steps of the run did: jobs run, jobs freed, adds, tokens taken |
| PoolTheorems.JobsLeaveInOrder | userspace/io_backend/src/thpool.c:456-509 | jobs leave the queue in the order added, each once, and the queue holds those added and not taken |
| PoolTheorems.DrainedWhenQuiescent | userspace/io_backend/src/thpool.c:371-403 | draining: at rest with keepalive set, the queue is empty, all workers sleep, the job functions called are each added job's, once; no waiter is stuck |
| PoolTheorems.WorkKeepsSomebodyMoving | userspace/io_backend/src/thpool.c:456-571 | no lost wake-up: with a job waiting some thread can always move |
| PoolTheorems.TokenDiscipline | userspace/io_backend/src/thpool.c:456-571 | where the token is while jobs wait; a free token has a signalled worker if any sleeps; times past the semaphore + token + queue <= 2 * adds, less one once the queue is empty |
| PoolTheorems.WaitIsSafe | userspace/io_backend/src/thpool.c:216-222 | between a call of thpool_wait in one state and its return in another, every job whose add was complete at the call is run, once |
| PoolTheorems.WaitMissesNoSignal | userspace/io_backend/src/thpool.c:392-397 | a blocked waiter never faces an idle pool, the step that makes the pool idle signals it, and only a worker that leaves nobody working does |
| PoolTheorems.NoNewPulls | userspace/io_backend/src/thpool.c:371-384 | with keepalive cleared a worker that is not already past both tests never pulls again |
| PoolTheorems.ShutdownAccounts | userspace/io_backend/src/thpool.c:226-261 | after keepalive is cleared a worker pulls at most one job; the queue is torn down after all have left; every job is run or freed, once in all |
| PoolTheorems.BroadcastWakesAll | userspace/io_backend/src/thpool.c:555-560 | a broadcast leaves nobody asleep and moves nobody else |
| PoolTheorems.CallsAreOpen | userspace/io_backend/src/thpool.c:195-261 | at rest each call can be made as soon as its own precondition holds |
| PoolTheorems.ShutdownCompletes | userspace/io_backend/src/thpool.c:226-261 | destroying a pool can always be completed: all workers gone, queue torn down |
| PoolTheorems.BroadcastLetsOneLeave | userspace/io_backend/src/thpool.c:240-250 | each broadcast that finds workers at the semaphore gets at least one of them out |
| PoolTheorems.RoundsEmptyThePool | userspace/io_backend/src/thpool.c:240-250 | as many rounds of broadcast and rest as there are workers alive leave every worker gone |
| JobQueue.Bsem.TryTake | userspace/io_backend/src/thpool.c:564-571 | succeeds exactly on the value 1, which it consumes |
| JobQueue.Queue.constructor | userspace/io_backend/src/thpool.c:422-436 | an empty well-formed queue and an empty semaphore |
| JobQueue.Queue.Link | userspace/io_backend/src/thpool.c:459-473 | the chain stays acyclic and null-terminated with len nodes, and the job is appended |
| JobQueue.Queue.Push | userspace/io_backend/src/thpool.c:456-477 | appends the job and leaves the semaphore at 1 |
| JobQueue.Queue.Unlink | userspace/io_backend/src/thpool.c:485-505 | takes the first job, null exactly when empty, and says whether a post is due |
| JobQueue.Queue.Pull | userspace/io_backend/src/thpool.c:483-509 | FIFO removal; the semaphore is posted exactly when more jobs remain |
| JobQueue.Queue.Clear | userspace/io_backend/src/thpool.c:440-451 | terminates, throws away exactly the contents, and leaves an empty queue and semaphore |
| ThreadPool.ThPool.constructor | userspace/io_backend/src/thpool.c:140-191 | a pool whose workers all stand at the loop condition |
| ThreadPool.ThPool.TestSemaphore | userspace/io_backend/src/thpool.c:564-571 | takes the model's semaphore step: token or sleep |
| ThreadPool.ThPool.PullJob | userspace/io_backend/src/thpool.c:384 | unlinking from the heap queue takes the model's pull step |
| ThreadPool.ThPool.PostAfterPull | userspace/io_backend/src/thpool.c:503 | takes the model's post step of a pull |
| ThreadPool.ThPool.CountOut | userspace/io_backend/src/thpool.c:392-397 | takes the model's count-out step with its signal |
| ThreadPool.ThPool.AddWork | userspace/io_backend/src/thpool.c:195-212 | linking a new job takes the model's add step |
| ThreadPool.ThPool.PostAfterAdd | userspace/io_backend/src/thpool.c:475 | takes the model's post step of an add |
| ThreadPool.ThPool.ReadLen | userspace/io_backend/src/thpool.c:218 | reads len without the queue mutex and takes the model's step for it |
| ThreadPool.ThPool.Broadcast | userspace/io_backend/src/thpool.c:555-560 | takes the model's broadcast step |
| ThreadPool.ThPool.TearDown | userspace/io_backend/src/thpool.c:253 | the clear loop is a run of the model: one discard for each job left |
| ThreadPool.ThPool.DiscardOne | userspace/io_backend/src/thpool.c:442-444 | one pull of the clear loop is one discard of the model, in order |
| ThreadPool.ThPool.WorkerStep | userspace/io_backend/src/thpool.c:371-403 | the section of `thread_do` that a step names, run on the object and its heap queue, is that step |
| ThreadPool.ThPool.WaiterStep | userspace/io_backend/src/thpool.c:216-222 | the same of the sections of thpool_wait |
| ThreadPool.ThPool.CallerStep | userspace/io_backend/src/thpool.c:195-261 | the same of the sections of thpool_add_work and thpool_destroy |
| ThreadPool.ThPool.Perform | userspace/io_backend/src/thpool.c:336-571 | running the sections in any order in which each is enabled is a run of the model |
| ThreadPool.Play | userspace/io_backend/src/thpool.c:140-571 | of the object, from creation on: jobs leave in order; at rest means each job run once and none linked; torn down means each run or freed once; a job linked means somebody can move |
| ThreadPool.PlayWait | userspace/io_backend/src/thpool.c:216-222 | of the object: a thpool_wait called after some steps and returned after others has seen every job added before the call run |
| ThreadPool.PlayEnds | userspace/io_backend/src/thpool.c:140-571 | the same of the end of every run |
| PoolTheorems.ClearRun | userspace/io_backend/src/thpool.c:440-451 | that run exists from every state with any queue and discards the queue in order |
| PollCounter.CountIsMaxSuffix | driver/stream_dma/streamio-drv.c:507-517 | the counter is the maximum over all suffixes of interrupts minus successful waits |
| PollCounter.PositiveMeansSurplus | driver/stream_dma/streamio-drv.c:479-493 | it is positive exactly when some suffix has a surplus |
| RingInvariant.InitOk | lib/bbio/src/bbio_backend_local.c:71-90 | a new ring satisfies the invariant |
| RingInvariant.IdleIsFree | driver/stream_dma/streamio-drv.c:211-258 | a buffer whose status is NO_ERROR is not in flight and holds no completion |
| RingInvariant.EngineStepOk | driver/stream_dma/streamio-drv.c:156-162 | execution, callback and interrupt keep the invariant and change no status |
| RingInvariant.WaitOk | driver/stream_dma/streamio-drv.c:218-264 | a wait, whatever the engine does meanwhile and unless it is harmful, keeps the invariant; it reaps the buffer's last submission exactly when its completion came |
| RingInvariant.GetOk | lib/bbio/src/bbio_backend_local.c:116-138 | a get hands out the next buffer in cyclic order, idle and reaped, exactly when it was idle or its completion came; else null without moving or consuming |
| RingInvariant.HeldIsIdle | driver/stream_dma/streamio-drv.c:193-213 | the buffer a client holds is not in flight and holds no completion, so starting it erases none |
| RingInvariant.SubmitOk | lib/bbio/src/bbio_backend_local.c:92-114 | a submission keeps the invariant, accepted or refused |
| RingInvariant.SyncOk | lib/bbio/src/bbio_backend_local.c:185-199 | a sync with any timeouts and any harmless interruptions keeps the invariant and the client's buffer |
| RingInvariant.RunOk | driver/stream_dma/streamio-drv.c:413-452 | the ring invariant holds after every run without harmful waits |
| RingInvariant.HarmfulGet | lib/bbio/src/bbio_backend_local.c:124-137 | a get whose wait is cut short hands out a buffer that is in flight |
| RingInvariant.HarmfulSync | lib/bbio/src/bbio_backend_local.c:188-198 | a sync with a wait cut short between transfer and callback breaks the invariant, whatever comes later in it |
| RingInvariant.HarmlessIff | driver/stream_dma/streamio-drv.c:218-264 | the exact condition: an event keeps the invariant if and only if it is harmless |
| RingInvariant.SafeIffOkThroughout | driver/stream_dma/streamio-drv.c:218-264 | the same for runs: it holds in every state if and only if no wait does harm |
| RingHistory.RunOffers | lib/bbio/src/bbio_backend_local.c:92-114 | in every run the accepted submissions are the offers that the DMA layer accepted, in the turns they were made |
| RingHistory.RunGets | lib/bbio/src/bbio_backend_local.c:116-138 | in every run the buffers handed out are the cursors of the gets that found one |
| RingHistory.RunGrown | driver/stream_dma/streamio-drv.c:156-264 | in every run packets, interrupts, successful waits and reapings are what the engine and the ends of waits did, also inside other events |
| RingHistory.CounterMoves | driver/stream_dma/streamio-drv.c:260 | an interrupt adds one to the poll counter, a wait takes one off, if there is one, exactly when it succeeds |
| RingTheorems.StartTouches | driver/stream_dma/streamio-drv.c:168-214 | a start wipes the completion once prepared, queues the transfer with the buffer's length and marks the buffer only if accepted, and touches nothing else |
| RingTheorems.TxRefinesFifo | lib/bbio/src/bbio_backend_local.c:92-138 | the packets that the engine found in memory, then what it would find now, are the contents submitted and accepted, as they stood at submission, in order |
| RingTheorems.EveryTransferEnds | driver/stream_dma/streamio-drv.c:218-264 | a wait long enough for the engine to do its work finds the completion, and the get hands out the buffer |
| RingTheorems.EverythingIsSent | lib/bbio/src/bbio_backend_local.c:92-138 | once the engine has done its work the device has received everything accepted |
| RingTheorems.RunCut | driver/stream_dma/streamio-drv.c:180 | the k-th segment stored is the k-th the device brought, cut to the size of the k-th accepted submission |
| RingTheorems.RxDelaysByN | lib/bbio/src/bbio_backend_local.c:116-138 | turn T gets what was submitted in turn T - N overwritten by the segment brought for it, cut to its size, if that submission was accepted; numbered by the acceptances before it |
| RingTheorems.RxLagsByN | lib/bbio/src/bbio_backend_local.c:116-138 | without refusals the k-th buffer handed out, k >= N, starts with submission k - N overwritten by segment k - N: each once, in order, with a lag of exactly N |
| RingTheorems.FirstTurns | lib/bbio/src/bbio_backend_local.c:116-138 | in the first N turns a buffer is handed out as it was at first |
| RingTheorems.FlightIsAnArc | driver/stream_dma/streamio-drv.c:193-213 | in-flight buffers are distinct, busy, of increasing turns among the last N; without refusals one arc ending before the next to submit; a start erases no completion |
| RingTheorems.TimeoutsKeepOrder | driver/stream_dma/streamio-drv.c:232-263 | for any timeouts buffers come as 0..N-1,0,..; no completion is consumed twice, and all older than N turns have been |
| RingTheorems.LateIsReapedOnce | driver/stream_dma/streamio-drv.c:232-263 | a get hands out exactly when idle or completed in time; null moves and consumes nothing; the get that finds a late completion reaps exactly the submission of N turns ago |
| RingTheorems.AllIdle | lib/bbio/src/bbio_backend_local.c:185-199 | all buffers idle means nothing in flight, no completion left, every submission reaped once |
| RingTheorems.SyncIsABarrier | lib/bbio/src/bbio_backend_local.c:185-199 | after a sync whose waits all end with their completion, nothing is in flight, all is idle, every submission was reaped exactly once |
| RingTheorems.PollFollowsHistory | driver/stream_dma/streamio-drv.c:260 | in every run the counter is the maximal suffix surplus of interrupts over successful waits, so poll reports data exactly when some suffix has one |
| RingTheorems.HarmfulGetLosesData | lib/bbio/src/bbio_backend_local.c:132-137 | after a get cut short while its transfer is queued, the client's next write breaks the FIFO refinement |
| RingHarm.OnePacketReachable | lib/bbio/src/bbio_backend_local.c:92-138 | the state the next two runs start from is reached by get, fill and submit |
| RingHarm.CutShortGetLosesAPacket | lib/bbio/src/bbio_backend_local.c:132-137 | a run in which a get cut short lets the client overwrite a packet before it is sent |
| RingHarm.CutShortSyncLosesAPacket | lib/bbio/src/bbio_backend_local.c:185-199 | a run in which no get is cut short, but a sync is, and a packet is lost |
| DmaStream.Channel.constructor | driver/stream_dma/streamio-drv.c:658-671 | the descriptor loop points descriptor bd at base + stride * bd, with no completion |
| DmaStream.RegionsDisjoint | driver/stream_dma/streamio-drv.c:663-664 | the descriptors' data regions do not overlap and lie inside the allocation |
| DmaStream.Channel.StartTransfer | driver/stream_dma/streamio-drv.c:168-214 | does what the ring's start does, for accepted, unprepared and refused transfers |
| DmaStream.Channel.SyncCallback | driver/stream_dma/streamio-drv.c:156-162 | adds one completion to the oldest executed transfer's descriptor |
| DmaStream.Channel.Poll | driver/stream_dma/streamio-drv.c:479-493 | readable exactly when the counter is positive, which is when some suffix of the history has a surplus; always writable |
| DmaStream.Channel.WaitForTransfer | driver/stream_dma/streamio-drv.c:218-264 | does what the ring's wait does, with any engine activity meanwhile |
| DmaStream.Channel.Ioctl | driver/stream_dma/streamio-drv.c:413-452 | selects the descriptor, then starts, waits, does both or does nothing |
| DmaStream.LocalStream.constructor | lib/bbio/src/bbio_backend_local.c:71-90 | the loop clears every status and nothing else |
| DmaStream.LocalStream.GetBuffer | lib/bbio/src/bbio_backend_local.c:116-138 | does what the ring's get does and returns that buffer's address, or null |
| DmaStream.LocalStream.WriteStream | lib/bbio/src/bbio_backend_local.c:92-114 | finds the held buffer from its address, sets its length and submits it |
| DmaStream.LocalStream.FinishStream | lib/bbio/src/bbio_backend_local.c:185-199 | the loop does what the ring's sync does |
| Wire.WordRoundTrip | lib/bbio/src/bbio_backend_net.c:143 | a 32-bit field comes back from its bytes |
| Wire.LittleEndian | lib/bbio/src/bbio_backend_net.c:143 | the bytes of a field stand least significant first |
| Wire.FramesRoundTrip | lib/bbio/src/bbio_backend_net.c:141-145 | frame boundaries and contents come back from the byte stream |
| Rechunk.AbsorbKeeps | userspace/io_backend/src/io_backend_call.c:231-243 | one receive keeps buffers whole, and drops exactly what lies beyond the buffer's end |
| Rechunk.FrameFits | userspace/io_backend/src/io_backend_call.c:229-244 | a frame that fits is delivered whole for every splitting, with accu_size = stream_n * size + buffer_ptr |
| Rechunk.AllFit | userspace/io_backend/src/io_backend_call.c:220-252 | without straddling, any splitting gives back the payloads in buffers of exactly the stream size |
| Rechunk.AllLoss | userspace/io_backend/src/io_backend_call.c:236 | accu_size counts every byte and what was cut off never comes back |
| Rechunk.LosslessIffNoStraddle | userspace/io_backend/src/io_backend_call.c:229-243 | lossless for every splitting if and only if no frame straddles a buffer boundary |
| NetStream.NetDevice.WriteStream | lib/bbio/src/bbio_backend_net.c:129-148 | greets once, then sends one frame: exactly the bytes the composed model adds to the channel |
| NetStream.NetDevice.ReadStreamBasic | lib/bbio/src/bbio_backend_net.c:151-189 | stores one frame's payload whatever the splitting; on another tag receives nothing |
| NetStream.ReadBackIff | lib/bbio/src/bbio_backend_net.c:178-186 | reading a frame gives its payload and the rest of the stream exactly when its size is below 2^31 |
| Pipeline.HeaderInStep | userspace/io_backend/src/io_backend_call.c:223-227 | the header the server reads next is the one the client wrote next |
| Pipeline.RecvIsAbsorb | userspace/io_backend/src/io_backend_call.c:231-243 | a receive into the shared buffer, straddling or not, does to counters, buffer and submissions what Rechunk says |
| Pipeline.NextPipeOk | userspace/io_backend/src/io_backend_call.c:200-257 | every step of client, server, library and engine keeps the composed invariant |
| Pipeline.RunRing | userspace/io_backend/src/io_backend_call.c:200-257 | a run of the composed system is a safe run of the ring in it |
| Pipeline.EndToEnd | userspace/io_backend/src/io_backend_call.c:218-252 | packets received by the device + in flight + partial buffer + channel = everything written in the run, in order, in every reachable state; the server never loses the frame boundary |
| Pipeline.EverythingCanArrive | userspace/io_backend/src/io_backend_call.c:218-252 | nothing gets stuck: from every reachable state with the server going, all that was written can reach the device or the partial buffer |
| StreamServer.WriteServer.constructor | userspace/io_backend/src/io_backend_call.c:211-218 | counters at zero and the first buffer got |
| StreamServer.RecvFrameHead | userspace/io_backend/src/io_backend_call.c:223-227 | receives a tag and, if it is the expected one, the size |
| StreamServer.WriteServer.ReceiveChunk | userspace/io_backend/src/io_backend_call.c:231-243 | one turn is one receive step of the composed model |
| StreamServer.WriteServer.Turn | userspace/io_backend/src/io_backend_call.c:229-244 | a turn with engine activity and a new buffer is a run of the composed model |
| StreamServer.WriteServer.ServeFrame | userspace/io_backend/src/io_backend_call.c:220-252 | the loop over one frame is a run of the composed model and consumes exactly that frame |
| StreamServer.GreetedRun | userspace/io_backend/src/io_backend_call.c:355-365 | the first write and the command it starts with lead into the write loop, in step |
| StreamServer.OneTurn | userspace/io_backend/src/io_backend_call.c:220-252 | a turn that finds a frame serves exactly one and acknowledges it; one that does not serves none |
| StreamServer.Connection | userspace/io_backend/src/io_backend_call.c:200-257 | a whole connection from its start is a run of the composed model that serves one frame a turn while there is one: received + in flight + partial buffer = the payloads served, and the channel holds those written since |
| ReadServer.GetHolds | userspace/io_backend/src/io_backend_call.c:319 | a get leaves the loop with an untouched buffer, or as it was |
| ReadServer.SyncHolds | userspace/io_backend/src/io_backend_call.c:320 | waiting for all other transfers does not disturb the buffer held |
| ReadServer.EngineKeepsFine | userspace/io_backend/src/io_backend_call.c:316-342 | nor does the engine in any gap between the actions |
| ReadServer.FirstTurnsGo | userspace/io_backend/src/io_backend_call.c:319 | the first N gets find their buffer idle |
| ReadServer.BroughtIsArrived | userspace/io_backend/src/io_backend_call.c:316-342 | what the buffers hold is what the device brought, cut to the size read |
| ReadServer.HeadLags | userspace/io_backend/src/io_backend_call.c:328-329 | the head of the buffer held is that of the segment N turns ago and the wipe behind it, or in the first N turns that of what was there before |
| ReadServer.ReadLoop.constructor | userspace/io_backend/src/io_backend_call.c:282-305 | the loop starts with nothing sent and nothing happened to the ring |
| ReadServer.ReadLoop.NextFull | userspace/io_backend/src/io_backend_call.c:319-320 | get and sync on the objects, with the engine active in between; there is a buffer exactly when the get finds one |
| ReadServer.ReadLoop.SendHead | userspace/io_backend/src/io_backend_call.c:322-330 | sends the first 8192 bytes of the buffer as one frame, which are what turn k has to carry |
| ReadServer.ReadLoop.Return | userspace/io_backend/src/io_backend_call.c:340-341 | wipes the buffer and submits it, and nothing else happens to the ring but what the engine does |
| ReadServer.ReadLoop.Turn | userspace/io_backend/src/io_backend_call.c:316-342 | a turn goes exactly when its get finds a buffer; it then sends one whole frame, does to the ring the events listed, in order, and keeps the lag |
| ReadServer.Session | userspace/io_backend/src/io_backend_call.c:282-347 | server loop and remote reader together: the k-th read, k >= N, returns exactly the head of the (k - N)-th segment the device brought and the wipe behind it; every turn goes unless its get finds no buffer, the first N always do, and no frame is missed |
| Registers.ReadsLastWrite | lib/bbio/src/bbio_backend_local.c:39-57 | a read returns the last value written there, whatever was written elsewhere since |
| Registers.HeadBytes | userspace/io_backend/src/io_backend_call.c:124-147 | the command the server takes up next is the oldest one in flight |
| Registers.SendTagOk | lib/bbio/src/bbio_backend_net.c:106 | beginning a call keeps channel and commands aligned |
| Registers.SendMoreOk | lib/bbio/src/bbio_backend_net.c:107-108 | sending a parameter keeps them aligned |
| Registers.ReceiveOk | lib/bbio/src/bbio_backend_net.c:118 | the reply received is the value local execution returns |
| Registers.RecvCmdOk | userspace/io_backend/src/io_backend_call.c:129-143 | the server never meets a byte that is not a command |
| Registers.RecvAddrReadOk | userspace/io_backend/src/io_backend_call.c:75-85 | the server's reply is the value local execution returns |
| Registers.ValueBytes | userspace/io_backend/src/io_backend_call.c:70 | the value the server reads is that of the oldest command in flight |
| Registers.RecvValueOk | userspace/io_backend/src/io_backend_call.c:65-73 | the server's write is the write local execution does |
| Registers.RemoteRefinesLocal | lib/bbio/src/bbio_backend_net.c:103-120 | for every script and interleaving reads return what in-order local execution returns, no command is misread, at most one reply is outstanding |
| Registers.RemoteProgress | lib/bbio/src/bbio_backend_net.c:103-120 | until the script is done and handled, client or server can move |
| Registers.RemoteTerminates | lib/bbio/src/bbio_backend_net.c:103-120 | every run has at most the steps its calls take, and exactly those if and only if all is handled; then the results are local execution's |
| RegisterDevices.MappedDevice.Write | lib/bbio/src/bbio_backend_local.c:39-47 | the word at the address is the value and no other word changes; beyond the guard nothing changes |
| RegisterDevices.MappedDevice.Read | lib/bbio/src/bbio_backend_local.c:49-57 | returns the word at the address, or all ones beyond the guard |
| RegisterDevices.RegisterServer.HandleCommand | userspace/io_backend/src/io_backend_call.c:124-147 | carries out the command at the head of the channel, replies to a read, and leaves the rest |
| RegisterDevices.RemoteDevice.Write | lib/bbio/src/bbio_backend_net.c:103-111 | sends tag, address and value and returns at once; the client's view of the registers is as after a local write |
| RegisterDevices.RemoteDevice.ServerRuns | userspace/io_backend/src/io_backend_call.c:124-147 | the server may handle a command at any time without the client's view changing |
| RegisterDevices.RemoteDevice.Ask | lib/bbio/src/bbio_backend_net.c:116-117 | sends tag and address, which changes no view |
| RegisterDevices.RemoteDevice.Answer | lib/bbio/src/bbio_backend_net.c:118 | the blocking receive ends with the reply to this read, after all writes sent before it |
| RegisterDevices.RemoteDevice.Read | lib/bbio/src/bbio_backend_net.c:113-120 | returns what a local read of the client's view returns |

## Left out

Thread pool:

- Pause and resume by signal, thread naming, the initial spin wait, the one-second timing in destroy, allocation failure.
- Several pools sharing the global keepalive flag, and several simultaneous callers of `thpool_wait` (its condition is
  signalled, not broadcast, so only one of them would be woken).
- Several callers of `thpool_destroy`, and calls still in progress when the queue is torn down: the model starts the
  clearing only when no add or wait is under way, as freeing the pool demands of its callers.
- Fairness: draining is stated as finiteness of all runs inside the pool and the shape of the states where they end; that
  shutdown can be completed is stated of one interleaving, that rounds of broadcasts shrink the pool of all.
- A job's function and argument are represented by the job's number; job functions terminate.
- `len`, `num_threads_working` and the counters of the streams are unbounded integers.

DMA ring:

- Probe, character device setup, mmap, cache coherency and the internals of the DMA engine.
- RingInvariant.RunOk: holds for runs without harmful waits, which RingInvariant.SafeIffOkThroughout shows to be exactly
  the runs that keep the invariant; what a run does after a harmful wait is shown only by examples.
- Several threads on one channel, and clients that write to a buffer they do not hold, hold several buffers, or submit
  one they have not got.
- A transfer that completes with a DMA error.  Reopening a device that has transfers under way (`local_open`), and the
  unused poll function over completions.

Network:

- Socket errors, end of stream, short reads of one- and four-byte fields, partial `writev`, and the acknowledgements
  that the server sends and the client does not read.
- Pipeline.EndToEnd: for frames that do not straddle a buffer boundary, which Rechunk.LosslessIffNoStraddle shows to be
  exactly the lossless ones.
- Memory beyond a buffer's end, which a straddling receive would write to: the model cuts those bytes off.
- A null buffer inside the server loops, which the loops do not test: the model stops there.
- Refused submissions inside the server loops, which do not learn of them; for the ring alone they are covered.
- StreamServer.Connection: the client's writes arrive between frames; Pipeline.EndToEnd has them at any moment.
- ReadServer.Session: the reader's greeting is sent by its first read, which in the code also starts the server's loop.
- Register addresses equal to the mapped size pass the guards; the model gives that word a cell of its own.
- `BUFFER_WITH_CONFIG`; the send buffer of the read loop is a prefix of the DMA buffer at offset 0.
- NetStream.NetDevice.ReadStreamBasic: `data` is what is stored at the caller's pointer; the caller's `size` is not
  looked at by the code, and whether the memory there is large enough is not modelled.
- `io_read_stream_net`, `client_cmd_write_stream`, burst calls, the ioctl call, the context table and dispatch of
  `io_backend.c`, `bbio_net_core.c`, `stream_dma_enhanced`, the read loop's unused control thread and the monitors.
- Test applications, scripts, makefiles, the axi_ctrl driver and the dispatch wrappers of `bbio_core.c`, which hold no protocol state.
