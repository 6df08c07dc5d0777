/** The pool object of userspace/io_backend/src/thpool.c: its fields, its heap queue, and one method for each
    atomic section of `thread_do`, `thpool_add_work`, `thpool_wait` and `thpool_destroy`.

    Each method is proved to take exactly one step of PoolModel (`XOf` is what `Next` does for step X).  `requires Enabled`
    says that the calling thread stands at that section and that the mutexes it locks there are free.  `Perform` runs the
    methods in any order the model allows, and `Play` states of such runs what PoolTheorems proves. */
module ThreadPool {
  import opened Common
  import opened PoolModel
  import opened PoolInvariant
  import opened PoolHistory
  import opened PoolTheorems
  import opened JobQueue

  class ThPool {
    const queue: Queue<nat>
    var working: int              // num_threads_working
    var alive: int                // num_threads_alive
    var keepalive: bool           // threads_keepalive
    var threads: seq<Phase>       // program counter and local job of every worker
    var adderPosting: bool
    var waiter: Waiter
    var destroyer: Destroyer
    var added: nat                // names the next job; stands for its function and argument
    ghost var pulled: nat
    ghost var finished: seq<nat>
    ghost var discarded: seq<nat>
    ghost var tokens: nat
    ghost var latePulls: seq<nat>
    ghost var calledAt: nat
    ghost var seenAt: nat

    ghost predicate Valid()
      reads this, queue, queue.jobs
    {
      queue.Valid() && |latePulls| == |threads|
    }

    ghost function State(): Pool
      reads this, queue, queue.hasJobs
    {
      Pool(queue.hasJobs.v, queue.Contents(), working, alive, keepalive, threads, adderPosting, waiter, destroyer,
           added, pulled, finished, discarded, tokens, latePulls, calledAt, seenAt)
    }

    /** `thpool_init`, once all workers have counted themselves as alive. */
    constructor (numThreads: nat)
      ensures Valid() && State() == Init(numThreads) && fresh(queue) && fresh(queue.hasJobs) && queue.jobs == []
    {
      queue := new Queue<nat>();
      working, alive, keepalive := 0, numThreads, true;
      threads := seq(numThreads, i => Head);
      adderPosting, waiter, destroyer := false, Outside, Serving;
      added, pulled, finished, discarded, tokens := 0, 0, [], [], 0;
      latePulls := seq(numThreads, i => 0);
      calledAt, seenAt := 0, 0;
    }

    method TestLoop(w: nat)
      requires Valid() && Enabled(State(), LoopTest(w))
      modifies this
      ensures Valid() && State() == LoopTestOf(old(State()), w)
    {
      threads := threads[w := if keepalive then Waiting else Leaving];
    }

    /** One pass through the loop of `bsem_wait`. */
    method TestSemaphore(w: nat)
      requires Valid() && Enabled(State(), SemTest(w))
      modifies this, queue.hasJobs
      ensures Valid() && State() == SemTestOf(old(State()), w)
    {
      var taken := queue.hasJobs.TryTake();
      if taken { tokens := tokens + 1; }
      threads := threads[w := if taken then Token else Sleeping];
    }

    method TestKeepalive(w: nat)
      requires Valid() && Enabled(State(), KeepTest(w))
      modifies this
      ensures Valid() && State() == KeepTestOf(old(State()), w)
    {
      threads := threads[w := if keepalive then Counting else Head];
    }

    method CountIn(w: nat)
      requires Valid() && Enabled(State(), Count(w))
      modifies this
      ensures Valid() && State() == CountOf(old(State()), w)
    {
      working := working + 1;
      threads := threads[w := Pulling];
    }

    method PullJob(w: nat)
      requires Valid() && Enabled(State(), Pull(w))
      modifies this, queue
      ensures Valid() && State() == PullOf(old(State()), w) && queue.jobs == Rest(old(queue.jobs))
    {
      hide Enabled, PullOf;
      ghost var s := State();
      PullCases(s, w);
      var job, more := queue.Unlink();
      assert State() == s.(queue := queue.Contents());
      assert s.queue != [] ==> job != null && s.queue[0] == job.work && s.queue[1..] == queue.Contents();
      if job == null { GoOn(w, Finishing); } else { TakeJob(w, job.work, more); }
    }

    method GoOn(w: nat, p: Phase)
      requires Valid() && w < |threads|
      modifies this`threads
      ensures Valid() && State() == old(State()).(threads := old(threads)[w := p])
    {
      threads := threads[w := p];
    }

    /** The rest of a successful pull: the worker has the job, and posts if there are more. */
    method TakeJob(w: nat, job: nat, more: bool)
      requires Valid() && w < |threads|
      modifies this`threads, this`pulled, this`latePulls
      ensures Valid()
      ensures State() == old(State()).(pulled := old(pulled) + 1, latePulls := Late(old(State()), w),
                                       threads := old(threads)[w := if more then Posting(job) else Running(job)])
    {
      GoOn(w, if more then Posting(job) else Running(job));
      pulled := pulled + 1;
      if !keepalive { latePulls := latePulls[w := latePulls[w] + 1]; }
    }

    /** `woken` is what the condition variable chose to wake. */
    method PostAfterPull(w: nat, woken: set<nat>)
      requires Valid() && Enabled(State(), PullPost(w, woken))
      modifies this, queue.hasJobs
      ensures Valid() && State() == PullPostOf(old(State()), w, woken)
    {
      queue.hasJobs.Post();
      threads := Wake(threads, woken)[w := Running(threads[w].job)];
    }

    method Execute(w: nat)
      requires Valid() && Enabled(State(), RunJob(w))
      modifies this
      ensures Valid() && State() == RunJobOf(old(State()), w)
    {
      finished := finished + [threads[w].job];
      threads := threads[w := Finishing];
    }

    method CountOut(w: nat)
      requires Valid() && Enabled(State(), Uncount(w))
      modifies this
      ensures Valid() && State() == UncountOf(old(State()), w)
    {
      assert w < |threads|;
      hide Enabled;
      ghost var s := State();
      working := working - 1;
      if working == 0 { waiter := SignalIdle(waiter); }
      threads := threads[w := Head];
      assert State() == s.(working := working, waiter := waiter, threads := threads);
    }

    method LeavePool(w: nat)
      requires Valid() && Enabled(State(), Leave(w))
      modifies this
      ensures Valid() && State() == LeaveOf(old(State()), w)
    {
      alive := alive - 1;
      threads := threads[w := Gone];
    }

    /** `thpool_add_work` up to the post. */
    method AddWork()
      requires Valid() && Enabled(State(), Add)
      modifies this, queue, queue.jobs
      ensures Valid() && State() == AddOf(old(State()))
      ensures |queue.jobs| == |old(queue.jobs)| + 1 && fresh(queue.jobs[|old(queue.jobs)|])
      ensures old(queue.jobs) <= queue.jobs
    {
      hide Enabled;
      ghost var s := State();
      var newjob := new Job(added);
      queue.Link(newjob);
      added := added + 1;
      adderPosting := true;
      assert State() == s.(queue := queue.Contents(), added := added, adderPosting := true);
    }

    method PostAfterAdd(woken: set<nat>)
      requires Valid() && Enabled(State(), AddPost(woken))
      modifies this, queue.hasJobs
      ensures Valid() && State() == AddPostOf(old(State()), woken)
    {
      queue.hasJobs.Post();
      threads := Wake(threads, woken);
      adderPosting := false;
    }

    method CallWait()
      requires Valid() && Enabled(State(), WaitCall)
      modifies this
      ensures Valid() && State() == Next(old(State()), WaitCall)
    {
      calledAt := Complete(State());
      waiter := Calling;
    }

    method LockForWait()
      requires Valid() && Enabled(State(), WaitLock)
      modifies this
      ensures Valid() && State() == Next(old(State()), WaitLock)
    {
      waiter := Testing;
    }

    /** The first half of the loop condition of `thpool_wait`, read without the queue mutex. */
    method ReadLen()
      requires Valid() && Enabled(State(), WaitReadLen)
      modifies this
      ensures Valid() && State() == Next(old(State()), WaitReadLen)
    {
      if queue.len != 0 {
        waiter := Blocking;
      } else {
        waiter := LenZero;
        seenAt := added;
      }
    }

    method ReadWorking()
      requires Valid() && Enabled(State(), WaitReadWorking)
      modifies this
      ensures Valid() && State() == Next(old(State()), WaitReadWorking)
    {
      waiter := if working != 0 then Blocking else Returned;
    }

    method BlockWaiter()
      requires Valid() && Enabled(State(), WaitBlock)
      modifies this
      ensures Valid() && State() == Next(old(State()), WaitBlock)
    {
      waiter := Blocked;
    }

    method StartDestroy()
      requires Valid() && Enabled(State(), PoolModel.Destroy)
      modifies this
      ensures Valid() && State() == Next(old(State()), PoolModel.Destroy)
    {
      keepalive := false;
      destroyer := Stopping;
    }

    method Broadcast()
      requires Valid() && Enabled(State(), PostAll)
      modifies this, queue.hasJobs
      ensures Valid() && State() == PostAllOf(old(State()))
    {
      queue.hasJobs.Post();
      threads := Wake(threads, Sleepers(threads));
    }

    method BeginClear()
      requires Valid() && Enabled(State(), PoolModel.StartClear)
      modifies this
      ensures Valid() && State() == Next(old(State()), PoolModel.StartClear)
    {
      destroyer := Clearing;
    }

    /** One turn of the loop of `jobqueue_clear`. */
    method DiscardOne()
      requires Valid() && Enabled(State(), PoolModel.Discard)
      modifies this, queue, queue.hasJobs
      ensures Valid() && State() == DiscardOf(old(State())) && queue.jobs == Rest(old(queue.jobs))
      ensures queue.hasJobs.v == if |old(queue.jobs)| > 1 then 1 else old(queue.hasJobs.v)
    {
      ghost var s := State();
      assert s.queue != [];
      hide Enabled;
      var job := queue.Pull();
      pulled := pulled + 1;
      discarded := discarded + [job.work];
      assert s.queue[0] == job.work && s.queue[1..] == queue.Contents();
    }

    method FinishClear()
      requires Valid() && Enabled(State(), PoolModel.EndClear)
      modifies this, queue.hasJobs
      ensures Valid() && State() == Next(old(State()), PoolModel.EndClear)
    {
      queue.hasJobs.Reset();
      destroyer := Cleared;
    }

    /** A spurious wake-up. */
    method WakeSpuriously(w: nat)
      requires Valid() && Enabled(State(), SpuriousWorker(w))
      modifies this
      ensures Valid() && State() == Next(old(State()), SpuriousWorker(w))
    {
      threads := threads[w := Woken];
    }

    method WakeWaiterSpuriously()
      requires Valid() && Enabled(State(), SpuriousWaiter)
      modifies this
      ensures Valid() && State() == Next(old(State()), SpuriousWaiter)
    {
      waiter := Signalled;
    }

    /** Runs the section that a step of a worker names. */
    method WorkerStep(st: Step)
      requires Valid() && Enabled(State(), st) && OfWorker(st)
      modifies this, queue, queue.hasJobs
      ensures Valid() && State() == Next(old(State()), st)
      ensures queue.jobs == old(queue.jobs) || queue.jobs == Rest(old(queue.jobs))
    {
      match st
      case LoopTest(w) => TestLoop(w);
      case SemTest(w) => TestSemaphore(w);
      case KeepTest(w) => TestKeepalive(w);
      case Count(w) => CountIn(w);
      case Pull(w) => PullJob(w);
      case PullPost(w, woken) => PostAfterPull(w, woken);
      case RunJob(w) => Execute(w);
      case Uncount(w) => CountOut(w);
      case Leave(w) => LeavePool(w);
      case SpuriousWorker(w) => WakeSpuriously(w);
    }

    /** Runs the section that a step of `thpool_wait` names. */
    method WaiterStep(st: Step)
      requires Valid() && Enabled(State(), st) && OfWaiter(st)
      modifies this
      ensures Valid() && State() == Next(old(State()), st)
    {
      match st
      case WaitCall => CallWait();
      case WaitLock => LockForWait();
      case WaitReadLen => ReadLen();
      case WaitReadWorking => ReadWorking();
      case WaitBlock => BlockWaiter();
      case SpuriousWaiter => WakeWaiterSpuriously();
    }

    /** Runs the section that a step of an adder or of `thpool_destroy` names. */
    method CallerStep(st: Step)
      requires Valid() && Enabled(State(), st) && !OfWorker(st) && !OfWaiter(st)
      modifies this, queue, queue.jobs, queue.hasJobs
      ensures Valid() && State() == Next(old(State()), st)
      ensures forall i :: 0 <= i < |queue.jobs| ==> queue.jobs[i] in old(queue.jobs) || fresh(queue.jobs[i])
    {
      match st
      case Add => AddWork();
      case AddPost(woken) => PostAfterAdd(woken);
      case Destroy => StartDestroy();
      case PostAll => Broadcast();
      case StartClear => BeginClear();
      case Discard => DiscardOne();
      case EndClear => FinishClear();
    }

    /** Runs sections one after the other, each when its thread stands there and its mutexes are free. */
    method Perform(steps: seq<Step>)
      requires Valid() && Legal(State(), steps)
      modifies this, queue, queue.jobs, queue.hasJobs
      ensures Valid() && Run(old(State()), steps, State())
      ensures forall k :: 0 <= k < |queue.jobs| ==> queue.jobs[k] in old(queue.jobs) || fresh(queue.jobs[k])
    {
      hide Enabled, Next, OfWorker, OfWaiter;
      ghost var s0 := State();
      var i := 0;
      while i < |steps|
        invariant Valid() && i <= |steps| && Legal(State(), steps[i..])
        invariant forall t :: Run(State(), steps[i..], t) ==> Run(s0, steps, t)
        invariant forall k :: 0 <= k < |queue.jobs| ==> queue.jobs[k] in old(queue.jobs) || fresh(queue.jobs[k])
      {
        ghost var s := State();
        assert steps[i..][1..] == steps[i + 1..];
        if OfWorker(steps[i]) {
          WorkerStep(steps[i]);
        } else if OfWaiter(steps[i]) {
          WaiterStep(steps[i]);
        } else {
          CallerStep(steps[i]);
        }
        assert State() == Next(s, steps[i]);
        i := i + 1;
      }
      assert Run(State(), steps[i..], State());
    }

    /** The end of `thpool_destroy`, when no thread is alive: `jobqueue_destroy`. */
    method TearDown()
      requires Valid() && Enabled(State(), PoolModel.StartClear)
      modifies this, queue, queue.hasJobs
      ensures Valid() && Run(old(State()), ClearSteps(old(State())), State())
    {
      ghost var s := State();
      ClearAll(s);
      hide Enabled, ClearSteps, Run;
      ghost var freed := queue.Clear();
      destroyer := Cleared;
      pulled := pulled + |freed|;
      discarded := discarded + freed;
      assert State() == ClearEnd(s);
    }
  }

  predicate OfWorker(st: Step) {
    st.LoopTest? || st.SemTest? || st.KeepTest? || st.Count? || st.Pull? || st.PullPost? || st.RunJob? || st.Uncount? ||
    st.Leave? || st.SpuriousWorker?
  }

  predicate OfWaiter(st: Step) {
    st.WaitCall? || st.WaitLock? || st.WaitReadLen? || st.WaitReadWorking? || st.WaitBlock? || st.SpuriousWaiter?
  }

  /** The steps can be taken one after the other. */
  predicate Legal(s: Pool, steps: seq<Step>)
    decreases steps
  {
    steps == [] || (Enabled(s, steps[0]) && Legal(Next(s, steps[0]), steps[1..]))
  }

  /** A pool of `numThreads` workers from its creation on, under any interleaving of workers and callers.  What is so of
      the object afterwards: jobs have left the linked queue in the order added, and those added and not taken are in it;
      a pool at rest has run every job, once, and its queue is empty; a pool torn down has run or freed every job, once;
      and while jobs wait in the linked queue somebody can move. */
  method Play(numThreads: nat, steps: seq<Step>) returns (pool: ThPool)
    requires Legal(Init(numThreads), steps)
    ensures fresh(pool) && pool.Valid() && Run(Init(numThreads), steps, pool.State())
    ensures pool.queue.Contents() == CountUp(|Unlinked(Init(numThreads), steps)|, Adds(steps))
    ensures Unlinked(Init(numThreads), steps) == CountUp(0, |Unlinked(Init(numThreads), steps)|)
    ensures numThreads > 0 && pool.keepalive && Quiescent(pool.State()) ==>
              && pool.queue.front == null && pool.working == 0
              && forall j: nat :: multiset(Ran(Init(numThreads), steps))[j] == if j < Adds(steps) then 1 else 0
    ensures pool.destroyer.Cleared? ==>
              && pool.queue.front == null && pool.queue.hasJobs.v == 0
              && forall j: nat :: multiset(Ran(Init(numThreads), steps) + Thrown(Init(numThreads), steps))[j] ==
                                  if j < Adds(steps) then 1 else 0
    ensures numThreads > 0 && pool.keepalive && pool.queue.front != null ==>
              exists st: Step :: Internal(st) && Enabled(pool.State(), st)
  {
    pool := new ThPool(numThreads);
    pool.Perform(steps);
    PlayEnds(numThreads, steps, pool.State());
  }

  /** A call of `thpool_wait` on the object: it is made after the steps `before` and has returned after the steps `after`.
      Every job whose add was complete at the call has been run by then, once. */
  method PlayWait(numThreads: nat, before: seq<Step>, after: seq<Step>) returns (pool: ThPool)
    requires Legal(Init(numThreads), before + [WaitCall] + after) && NoWaitCall(after)
    ensures fresh(pool) && pool.Valid() && Run(Init(numThreads), before + [WaitCall] + after, pool.State())
    ensures pool.waiter.Returned? ==>
              exists s :: Run(Init(numThreads), before, s) && Enabled(s, WaitCall) &&
                          Run(Next(s, WaitCall), after, pool.State()) &&
                          forall j: nat | j < AddsDone(before, s) ::
                            multiset(Ran(Init(numThreads), before) + Ran(Next(s, WaitCall), after))[j] == 1
  {
    hide Run, Ran, Adds, Init;
    pool := new ThPool(numThreads);
    Associate(before, [WaitCall], after);
    LegalFront(Init(numThreads), before, [WaitCall] + after);
    pool.Perform(before);
    ghost var s := pool.State();
    LegalRest(Init(numThreads), before, s, [WaitCall] + after);
    assert ([WaitCall] + after)[1..] == after;
    hide Enabled, Legal;
    pool.CallWait();
    pool.Perform(after);
    WaitRun(Init(numThreads), before, s, after, pool.State());
    if pool.waiter.Returned? { WaitIsSafe(numThreads, before, s, after, pool.State()); }
  }

  lemma WaitRun(s0: Pool, before: seq<Step>, s: Pool, after: seq<Step>, t: Pool)
    requires Run(s0, before, s) && Enabled(s, WaitCall) && Run(Next(s, WaitCall), after, t)
    ensures Run(s0, before + [WaitCall] + after, t)
  {
    hide Run, Enabled, Next;
    RunOne(s, WaitCall);
    RunAppend(s0, before, s, [WaitCall], Next(s, WaitCall));
    RunAppend(s0, before + [WaitCall], Next(s, WaitCall), after, t);
  }

  lemma {:induction false} LegalFront(s: Pool, a: seq<Step>, b: seq<Step>)
    requires Legal(s, a + b)
    ensures Legal(s, a)
    decreases a
  {
    if a != [] {
      assert (a + b)[1..] == a[1..] + b;
      LegalFront(Next(s, a[0]), a[1..], b);
    }
  }

  lemma {:induction false} LegalRest(s: Pool, a: seq<Step>, t: Pool, b: seq<Step>)
    requires Legal(s, a + b) && Run(s, a, t)
    ensures Legal(t, b)
    decreases a
  {
    if a == [] {
      assert a + b == b;
    } else {
      assert (a + b)[1..] == a[1..] + b;
      LegalRest(Next(s, a[0]), a[1..], t, b);
    }
  }

  /** from, from + 1, ..., to - 1 */
  function CountUp(from: nat, to: nat): (r: seq<nat>)
    ensures |r| == if from <= to then to - from else 0
    ensures forall i | 0 <= i < |r| :: r[i] == from + i
  {
    if from <= to then seq(to - from, i requires 0 <= i => from + i) else []
  }

  /** What PoolTheorems says about the end of a run. */
  lemma PlayEnds(n: nat, steps: seq<Step>, s: Pool)
    requires Run(Init(n), steps, s)
    ensures s.queue == CountUp(|Unlinked(Init(n), steps)|, Adds(steps))
    ensures Unlinked(Init(n), steps) == CountUp(0, |Unlinked(Init(n), steps)|)
    ensures n > 0 && s.keepalive && Quiescent(s) ==>
              && s.queue == [] && s.working == 0
              && forall j: nat :: multiset(Ran(Init(n), steps))[j] == if j < Adds(steps) then 1 else 0
    ensures s.destroyer.Cleared? ==>
              && s.queue == [] && s.v == 0
              && forall j: nat ::
                   multiset(Ran(Init(n), steps) + Thrown(Init(n), steps))[j] == if j < Adds(steps) then 1 else 0
    ensures n > 0 && s.keepalive && s.queue != [] ==> exists st: Step :: Internal(st) && Enabled(s, st)
  {
    hide Quiescent, Internal, Enabled, Run, Ran, Thrown, Unlinked, Adds;
    JobsLeaveInOrder(n, steps, s);
    FromStart(n, steps, s);
    if n > 0 && s.keepalive && Quiescent(s) { DrainedWhenQuiescent(n, steps, s); }
    if s.destroyer.Cleared? { ShutdownAccounts(n, steps, s); }
    if n > 0 && s.keepalive && s.queue != [] { WorkKeepsSomebodyMoving(n, steps, s); }
  }

  lemma PullCases(s: Pool, w: nat)
    requires Enabled(s, Pull(w))
    ensures w < |s.threads|
    ensures s.queue == [] ==> PullOf(s, w) == s.(threads := s.threads[w := Finishing])
    ensures s.queue != [] ==>
              PullOf(s, w) ==
              s.(queue := s.queue[1..], pulled := s.pulled + 1, latePulls := Late(s, w),
                 threads := s.threads[w := if |s.queue| > 1 then Posting(s.queue[0]) else Running(s.queue[0])])
  {
  }
}
