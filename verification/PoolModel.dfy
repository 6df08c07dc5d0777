/** The thread pool of userspace/io_backend/src/thpool.c as interleaved atomic steps.

    A step is what one thread does between two points at which another thread can observe it: one
    mutex-protected section, or one unprotected read of a volatile.  Pushing and pulling are split where
    the queue mutex is held but the semaphore is not yet posted, because `thpool_wait` reads `len` without
    that mutex.  A job is named by the order in which its push took the queue mutex. */
module PoolModel {

  /** Where a worker stands in `thread_do`, including the wait inside `bsem_wait`. */
  datatype Phase =
    | Head                // about to test threads_keepalive in the loop condition
    | Waiting             // about to lock the semaphore
    | Sleeping            // blocked on the semaphore's condition variable
    | Woken               // signalled, about to lock the semaphore again
    | Token               // has set v to 0, about to test threads_keepalive again
    | Counting            // about to add itself to num_threads_working
    | Pulling             // counted, about to lock the queue
    | Posting(job: nat)   // holds the queue mutex, has unlinked a job, about to post
    | Running(job: nat)   // runs the job
    | Finishing           // about to take itself out of num_threads_working
    | Leaving             // left the loop, about to take itself out of num_threads_alive
    | Gone

  /** Where the caller of `thpool_wait` stands.  In Testing, LenZero and Blocking it holds thcount_lock. */
  datatype Waiter = Outside | Calling | Testing | LenZero | Blocking | Blocked | Signalled | Returned

  /** Where the caller of `thpool_destroy` stands. */
  datatype Destroyer = Serving | Stopping | Clearing | Cleared

  /** The shared variables, the position of every thread, and a history of what happened.
      The history is read by no step. */
  datatype Pool = Pool(
    v: nat,
    queue: seq<nat>,
    working: int,
    alive: int,
    keepalive: bool,
    threads: seq<Phase>,
    adderPosting: bool,   // an adder holds the queue mutex, has linked its job, and is about to post
    waiter: Waiter,
    destroyer: Destroyer,
    added: nat,           // jobs ever linked
    pulled: nat,          // jobs ever unlinked
    finished: seq<nat>,   // jobs run to the end, in that order
    discarded: seq<nat>,  // jobs thrown away by jobqueue_clear
    tokens: nat,          // times a worker has set v to 0
    latePulls: seq<nat>,  // per worker, jobs unlinked since keepalive was cleared
    calledAt: nat,        // jobs whose add was complete when thpool_wait was called
    seenAt: nat           // jobs linked when thpool_wait last read len as 0
  )

  function Init(n: nat): Pool {
    Pool(0, [], 0, n, true, seq(n, i => Head), false, Outside, Serving,
         0, 0, [], [], 0, seq(n, i => 0), 0, 0)
  }

  datatype Step =
    // a worker
    | LoopTest(w: nat)
    | SemTest(w: nat)
    | KeepTest(w: nat)
    | Count(w: nat)
    | Pull(w: nat)
    | PullPost(w: nat, woken: set<nat>)
    | RunJob(w: nat)
    | Uncount(w: nat)
    | Leave(w: nat)
    // the second half of an add
    | AddPost(woken: set<nat>)
    // inside thpool_wait
    | WaitLock
    | WaitReadLen
    | WaitReadWorking
    | WaitBlock
    // calls from outside, and the environment
    | Add
    | WaitCall
    | Destroy
    | PostAll
    | StartClear
    | Discard
    | EndClear
    | SpuriousWorker(w: nat)
    | SpuriousWaiter

  /** The steps that threads already inside the pool take by themselves. */
  predicate Internal(st: Step) {
    st.LoopTest? || st.SemTest? || st.KeepTest? || st.Count? || st.Pull? || st.PullPost? || st.RunJob? ||
    st.Uncount? || st.Leave? || st.AddPost? || st.WaitLock? || st.WaitReadLen? || st.WaitReadWorking? ||
    st.WaitBlock?
  }

  predicate QueueFree(s: Pool) {
    !s.adderPosting && forall i | 0 <= i < |s.threads| :: !s.threads[i].Posting?
  }

  /** thcount_lock is kept across several steps only by the caller of `thpool_wait`. */
  predicate CountFree(s: Pool) {
    !s.waiter.Testing? && !s.waiter.LenZero? && !s.waiter.Blocking?
  }

  /** What `pthread_cond_signal` may wake: some sleepers, at least one if there is one. */
  predicate LegalWake(ts: seq<Phase>, woken: set<nat>) {
    (forall i | i in woken :: i < |ts| && ts[i].Sleeping?) &&
    ((exists i | 0 <= i < |ts| :: ts[i].Sleeping?) ==> woken != {})
  }

  function Wake(ts: seq<Phase>, woken: set<nat>): (r: seq<Phase>)
    ensures |r| == |ts|
  {
    seq(|ts|, i requires 0 <= i < |ts| => if i in woken && ts[i].Sleeping? then Woken else ts[i])
  }

  function Sleepers(ts: seq<Phase>): set<nat> {
    set i: nat | i < |ts| && ts[i].Sleeping?
  }

  predicate At(s: Pool, w: nat, p: Phase) {
    w < |s.threads| && s.threads[w] == p
  }

  predicate Open(s: Pool) {
    s.destroyer.Serving? || s.destroyer.Stopping?
  }

  predicate Enabled(s: Pool, st: Step) {
    match st
    case LoopTest(w) => At(s, w, Head)
    case SemTest(w) => At(s, w, Waiting) || At(s, w, Woken)
    case KeepTest(w) => At(s, w, Token)
    case Count(w) => At(s, w, Counting) && CountFree(s)
    case Pull(w) => At(s, w, Pulling) && QueueFree(s)
    case PullPost(w, woken) => w < |s.threads| && s.threads[w].Posting? && LegalWake(s.threads, woken)
    case RunJob(w) => w < |s.threads| && s.threads[w].Running?
    case Uncount(w) => At(s, w, Finishing) && CountFree(s)
    case Leave(w) => At(s, w, Leaving) && CountFree(s)
    case AddPost(woken) => s.adderPosting && LegalWake(s.threads, woken)
    case WaitLock => s.waiter.Calling? || s.waiter.Signalled?
    case WaitReadLen => s.waiter.Testing?
    case WaitReadWorking => s.waiter.LenZero?
    case WaitBlock => s.waiter.Blocking?
    case Add => Open(s) && QueueFree(s)
    case WaitCall => Open(s) && (s.waiter.Outside? || s.waiter.Returned?)
    case Destroy => s.destroyer.Serving?
    // the last worker may leave between the loop's test of num_threads_alive and its broadcast
    case PostAll => s.destroyer.Stopping?
    // no other call on the pool may be in progress when its queue is torn down
    case StartClear => s.destroyer.Stopping? && s.alive == 0 && !s.adderPosting &&
                       (s.waiter.Outside? || s.waiter.Returned?)
    case Discard => s.destroyer.Clearing? && s.queue != []
    case EndClear => s.destroyer.Clearing? && s.queue == []
    case SpuriousWorker(w) => At(s, w, Sleeping)
    case SpuriousWaiter => s.waiter.Blocked?
  }

  function Move(s: Pool, w: nat, p: Phase): Pool
    requires w < |s.threads|
  {
    s.(threads := s.threads[w := p])
  }

  function LoopTestOf(s: Pool, w: nat): Pool
    requires Enabled(s, LoopTest(w))
  {
    Move(s, w, if s.keepalive then Waiting else Leaving)
  }

  function SemTestOf(s: Pool, w: nat): Pool
    requires Enabled(s, SemTest(w))
  {
    if s.v != 1 then Move(s, w, Sleeping)
    else Move(s, w, Token).(v := 0, tokens := s.tokens + 1)
  }

  function KeepTestOf(s: Pool, w: nat): Pool
    requires Enabled(s, KeepTest(w))
  {
    Move(s, w, if s.keepalive then Counting else Head)
  }

  function CountOf(s: Pool, w: nat): Pool
    requires Enabled(s, Count(w))
  {
    Move(s, w, Pulling).(working := s.working + 1)
  }

  function Late(s: Pool, w: nat): seq<nat> {
    if !s.keepalive && w < |s.latePulls| then s.latePulls[w := s.latePulls[w] + 1] else s.latePulls
  }

  function PullOf(s: Pool, w: nat): Pool
    requires Enabled(s, Pull(w))
  {
    match |s.queue|
    case 0 => Move(s, w, Finishing)
    case 1 =>
      Move(s, w, Running(s.queue[0])).(queue := [], pulled := s.pulled + 1, latePulls := Late(s, w))
    case _ =>
      Move(s, w, Posting(s.queue[0])).(queue := s.queue[1..], pulled := s.pulled + 1, latePulls := Late(s, w))
  }

  function PullPostOf(s: Pool, w: nat, woken: set<nat>): Pool
    requires Enabled(s, PullPost(w, woken))
  {
    s.(v := 1, threads := Wake(s.threads, woken)[w := Running(s.threads[w].job)])
  }

  function RunJobOf(s: Pool, w: nat): Pool
    requires Enabled(s, RunJob(w))
  {
    Move(s, w, Finishing).(finished := s.finished + [s.threads[w].job])
  }

  function SignalIdle(wt: Waiter): Waiter {
    if wt.Blocked? then Signalled else wt
  }

  function UncountOf(s: Pool, w: nat): Pool
    requires Enabled(s, Uncount(w))
  {
    Move(s, w, Head).(working := s.working - 1,
                      waiter := if s.working - 1 == 0 then SignalIdle(s.waiter) else s.waiter)
  }

  function LeaveOf(s: Pool, w: nat): Pool
    requires Enabled(s, Leave(w))
  {
    Move(s, w, Gone).(alive := s.alive - 1)
  }

  function AddOf(s: Pool): Pool
    requires Enabled(s, Add)
  {
    s.(queue := s.queue + [s.added], added := s.added + 1, adderPosting := true)
  }

  function AddPostOf(s: Pool, woken: set<nat>): Pool
    requires Enabled(s, AddPost(woken))
  {
    s.(v := 1, threads := Wake(s.threads, woken), adderPosting := false)
  }

  /** Jobs whose `thpool_add_work` has nothing left to do. */
  function Complete(s: Pool): nat {
    if s.adderPosting && s.added > 0 then s.added - 1 else s.added
  }

  function PostAllOf(s: Pool): Pool
    requires Enabled(s, PostAll)
  {
    s.(v := 1, threads := Wake(s.threads, Sleepers(s.threads)))
  }

  function DiscardOf(s: Pool): Pool
    requires Enabled(s, Discard)
  {
    s.(queue := s.queue[1..], pulled := s.pulled + 1, discarded := s.discarded + [s.queue[0]],
       v := if |s.queue| > 1 then 1 else s.v)
  }

  function Next(s: Pool, st: Step): Pool
    requires Enabled(s, st)
  {
    match st
    case LoopTest(w) => LoopTestOf(s, w)
    case SemTest(w) => SemTestOf(s, w)
    case KeepTest(w) => KeepTestOf(s, w)
    case Count(w) => CountOf(s, w)
    case Pull(w) => PullOf(s, w)
    case PullPost(w, woken) => PullPostOf(s, w, woken)
    case RunJob(w) => RunJobOf(s, w)
    case Uncount(w) => UncountOf(s, w)
    case Leave(w) => LeaveOf(s, w)
    case AddPost(woken) => AddPostOf(s, woken)
    case WaitLock => s.(waiter := Testing)
    case WaitReadLen => if s.queue != [] then s.(waiter := Blocking) else s.(waiter := LenZero, seenAt := s.added)
    case WaitReadWorking => s.(waiter := if s.working != 0 then Blocking else Returned)
    case WaitBlock => s.(waiter := Blocked)
    case Add => AddOf(s)
    case WaitCall => s.(waiter := Calling, calledAt := Complete(s))
    case Destroy => s.(destroyer := Stopping, keepalive := false)
    case PostAll => PostAllOf(s)
    case StartClear => s.(destroyer := Clearing)
    case Discard => DiscardOf(s)
    case EndClear => s.(destroyer := Cleared, v := 0)
    case SpuriousWorker(w) => Move(s, w, Woken)
    case SpuriousWaiter => s.(waiter := Signalled)
  }

  /** `steps` can be taken one after the other from `s`, and lead to `t`. */
  predicate Run(s: Pool, steps: seq<Step>, t: Pool)
    decreases steps
  {
    if steps == [] then s == t
    else Enabled(s, steps[0]) && Run(Next(s, steps[0]), steps[1..], t)
  }

  predicate AllInternal(steps: seq<Step>) {
    forall i | 0 <= i < |steps| :: Internal(steps[i])
  }

  /** Nothing inside the pool can move until somebody calls it again. */
  ghost predicate Quiescent(s: Pool) {
    forall st: Step :: Internal(st) ==> !Enabled(s, st)
  }
}
