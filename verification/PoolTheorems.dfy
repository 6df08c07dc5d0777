/** What the invariant means for callers of the pool: work is drained, `thpool_wait` is right and is woken,
    and shutdown ends with every job run once or discarded once. */
module PoolTheorems {
  import opened Common
  import opened PoolModel
  import opened PoolGauge
  import opened PoolInvariant
  import opened PoolHistory

  // ---------------------------------------------------------------- every internal run is finite

  function WaiterRank(wt: Waiter): nat {
    match wt
    case Calling => 5
    case Signalled => 5
    case Testing => 4
    case LenZero => 3
    case Blocking => 2
    case _ => 0
  }

  /** Posts that can still happen without another add, and the token that is out. */
  function Pending(s: Pool): nat {
    2 * |s.queue| + 2 * Posters(s) + s.v
  }

  /** More than one pending post can add to the ranks of all workers. */
  function PostWeight(s: Pool): nat {
    8 * |s.threads| + 72
  }

  function Fuel(s: Pool): nat {
    PostWeight(s) * Pending(s) + Total(Rank, s.threads) + WaiterRank(s.waiter)
  }

  lemma {:induction false} MulStep(weight: nat, q: nat, p: nat)
    requires q < p
    ensures weight * q + weight <= weight * p
  {
    if q + 1 < p {
      MulStep(weight, q, p - 1);
      assert weight * p == weight * (p - 1) + weight;
    }
  }

  lemma FuelDrop(weight: nat, p: nat, q: nat, r: nat, r': nat)
    requires q <= p
    requires q < p ==> r' < r + weight
    requires q == p ==> r' < r
    ensures weight * q + r' < weight * p + r
  {
    if q < p { MulStep(weight, q, p); }
  }

  lemma RankMove(ts: seq<Phase>, w: nat, p: Phase)
    requires w < |ts|
    ensures Total(Rank, ts[w := p]) == Total(Rank, ts) - Score(Rank, ts[w]) + Score(Rank, p)
    ensures Total(AtPost, ts[w := p]) == Total(AtPost, ts) - Score(AtPost, ts[w]) + Score(AtPost, p)
  {
    TotalMove(Rank, ts, w, p);
    TotalMove(AtPost, ts, w, p);
  }

  lemma PostDrop(s: Pool, st: Step)
    requires Shape(s) && Enabled(s, st) && (st.AddPost? || st.PullPost?)
    ensures Pending(Next(s, st)) < Pending(s)
    ensures Total(Rank, Next(s, st).threads) < Total(Rank, s.threads) + PostWeight(s)
    ensures |Next(s, st).threads| == |s.threads| && Next(s, st).waiter == s.waiter
  {
    var us := Wake(s.threads, st.woken);
    TotalWake(AtPost, s.threads, us);
    RankWake(s.threads, us);
    if st.PullPost? { RankMove(us, st.w, Running(s.threads[st.w].job)); }
  }

  /** Every step either gives up pending posts or leaves them and lowers the rank of some thread. */
  predicate Drops(s: Pool, t: Pool) {
    && PostWeight(t) == PostWeight(s)
    && Pending(t) <= Pending(s)
    && (Pending(t) < Pending(s) ==>
          Total(Rank, t.threads) + WaiterRank(t.waiter) < Total(Rank, s.threads) + WaiterRank(s.waiter) + PostWeight(s))
    && (Pending(t) == Pending(s) ==>
          Total(Rank, t.threads) + WaiterRank(t.waiter) < Total(Rank, s.threads) + WaiterRank(s.waiter))
  }

  lemma PullMoreDrops(s: Pool, w: nat)
    requires Enabled(s, Pull(w)) && |s.queue| > 1
    ensures Drops(s, PullOf(s, w))
  {
    RankMove(s.threads, w, Posting(s.queue[0]));
  }

  lemma PullDrops(s: Pool, w: nat)
    requires Enabled(s, Pull(w))
    ensures Drops(s, PullOf(s, w))
  {
    if |s.queue| > 1 {
      PullMoreDrops(s, w);
    } else {
      RankMove(s.threads, w, PullOf(s, w).threads[w]);
    }
  }

  lemma SemTestDrops(s: Pool, w: nat)
    requires Shape(s) && Enabled(s, SemTest(w))
    ensures Drops(s, SemTestOf(s, w))
  {
    RankMove(s.threads, w, SemTestOf(s, w).threads[w]);
  }

  lemma MoveDrops(s: Pool, t: Pool, w: nat, p: Phase)
    requires w < |s.threads| && t.threads == s.threads[w := p]
    requires t.queue == s.queue && t.v == s.v && t.adderPosting == s.adderPosting
    requires Score(AtPost, p) == Score(AtPost, s.threads[w]) && Score(Rank, p) + 8 <= Score(Rank, s.threads[w])
    requires WaiterRank(t.waiter) <= WaiterRank(s.waiter) + 5
    ensures Drops(s, t)
  {
    RankMove(s.threads, w, p);
  }

  predicate AtWaiter(st: Step) { st.WaitLock? || st.WaitReadLen? || st.WaitReadWorking? || st.WaitBlock? }

  lemma WorkerDrops(s: Pool, st: Step)
    requires Enabled(s, st) && Internal(st) && !AtWaiter(st)
    requires !st.PullPost? && !st.AddPost? && !st.Pull? && !st.SemTest?
    ensures Drops(s, Next(s, st))
  {
    MoveDrops(s, Next(s, st), st.w, Next(s, st).threads[st.w]);
  }

  lemma StepDrops(s: Pool, st: Step)
    requires Shape(s) && Enabled(s, st) && Internal(st)
    ensures Drops(s, Next(s, st))
  {
    if st.PullPost? || st.AddPost? {
      PostDrop(s, st);
    } else if st.Pull? {
      PullDrops(s, st.w);
    } else if st.SemTest? {
      SemTestDrops(s, st.w);
    } else if !AtWaiter(st) {
      WorkerDrops(s, st);
    }
  }

  /** One internal step uses up fuel. */
  lemma StepUsesFuel(s: Pool, st: Step)
    requires Inv(s) && Enabled(s, st) && Internal(st)
    ensures Fuel(Next(s, st)) < Fuel(s)
  {
    var t := Next(s, st);
    StepDrops(s, st);
    FuelDrop(PostWeight(s), Pending(s), Pending(t),
             Total(Rank, s.threads) + WaiterRank(s.waiter), Total(Rank, t.threads) + WaiterRank(t.waiter));
  }

  /** No interleaving of the threads inside the pool is longer than the fuel of the state it starts in. */
  lemma {:induction false} InternalRunsAreFinite(s: Pool, steps: seq<Step>, t: Pool)
    requires Inv(s) && Run(s, steps, t) && AllInternal(steps)
    ensures |steps| + Fuel(t) <= Fuel(s)
    decreases steps
  {
    if steps != [] {
      StepUsesFuel(s, steps[0]);
      StepInv(s, steps[0]);
      InternalRunsAreFinite(Next(s, steps[0]), steps[1..], t);
    }
  }

  // ---------------------------------------------------------------- where internal runs end

  lemma OneMove(s: Pool) returns (st: Step)
    requires Inv(s) && !Quiescent(s)
    ensures Internal(st) && Enabled(s, st) && Inv(Next(s, st)) && Fuel(Next(s, st)) < Fuel(s)
  {
    st :| Internal(st) && Enabled(s, st);
    StepInv(s, st);
    StepUsesFuel(s, st);
  }

  lemma RunCons(s: Pool, st: Step, rest: seq<Step>, t: Pool)
    requires Enabled(s, st) && Internal(st) && AllInternal(rest) && Run(Next(s, st), rest, t)
    ensures Run(s, [st] + rest, t) && AllInternal([st] + rest)
  {
    assert ([st] + rest)[1..] == rest;
  }

  /** Every state comes to rest: taking any enabled internal step again and again ends in a quiescent state. */
  lemma {:induction false} Settles(s: Pool) returns (steps: seq<Step>, t: Pool)
    requires Inv(s)
    ensures AllInternal(steps) && Run(s, steps, t) && Inv(t) && Quiescent(t)
    decreases Fuel(s)
  {
    if Quiescent(s) {
      steps, t := [], s;
    } else {
      var st := OneMove(s);
      var rest;
      rest, t := Settles(Next(s, st));
      RunCons(s, st, rest, t);
      steps := [st] + rest;
    }
  }

  lemma QuiescentCalls(s: Pool)
    requires Quiescent(s)
    ensures QueueFree(s) && CountFree(s)
    ensures s.waiter.Outside? || s.waiter.Returned? || s.waiter.Blocked?
  {
    assert !Enabled(s, WaitLock) && !Enabled(s, WaitReadLen) && !Enabled(s, WaitReadWorking) && !Enabled(s, WaitBlock);
    SleepersLegal(s.threads);
    var all := Sleepers(s.threads);
    assert !Enabled(s, AddPost(all));
    forall i: nat | i < |s.threads| ensures !s.threads[i].Posting? { assert !Enabled(s, PullPost(i, all)); }
  }

  lemma QuiescentWorker(s: Pool, i: nat)
    requires Quiescent(s) && QueueFree(s) && CountFree(s) && i < |s.threads|
    ensures s.threads[i].Sleeping? || s.threads[i].Gone?
  {
    assert !Enabled(s, LoopTest(i)) && !Enabled(s, SemTest(i)) && !Enabled(s, KeepTest(i)) && !Enabled(s, Count(i));
    assert !Enabled(s, Pull(i)) && !Enabled(s, RunJob(i)) && !Enabled(s, Uncount(i)) && !Enabled(s, Leave(i));
  }

  /** Nobody can move by itself only if all workers sleep or have gone, and no half-done call is left. */
  lemma QuiescentShape(s: Pool)
    requires Quiescent(s)
    ensures forall i | 0 <= i < |s.threads| :: s.threads[i].Sleeping? || s.threads[i].Gone?
    ensures !s.adderPosting && (s.waiter.Outside? || s.waiter.Returned? || s.waiter.Blocked?)
    ensures Total(Roused, s.threads) == Total(Carrying, s.threads) == Total(Busy, s.threads) == 0
  {
    QuiescentCalls(s);
    forall i: nat | i < |s.threads| ensures s.threads[i].Sleeping? || s.threads[i].Gone? { QuiescentWorker(s, i); }
    TotalZero(Roused, s.threads);
    TotalZero(Carrying, s.threads);
    TotalZero(Busy, s.threads);
  }

  lemma CountsAsOnce(xs: seq<nat>, bound: nat)
    requires Distinct(xs) && forall j: nat :: j in xs <==> j < bound
    ensures forall j: nat :: multiset(xs)[j] == if j < bound then 1 else 0
  {
    forall j: nat ensures multiset(xs)[j] == if j < bound then 1 else 0 {
      if j in xs { DistinctOnce(xs, j); }
    }
  }

  /** What the invariant and the history fields say at the end of a run from the start. */
  lemma FromStart(n: nat, steps: seq<Step>, s: Pool)
    requires Run(Init(n), steps, s)
    ensures Inv(s) && |s.threads| == n
    ensures s.finished == Ran(Init(n), steps) && s.discarded == Thrown(Init(n), steps)
    ensures s.added == Adds(steps) && s.tokens == Tokens(Init(n), steps)
  {
    hide Inv, Run;
    InitInv(n);
    RunInv(Init(n), steps, s);
    RunKeepsCrew(Init(n), steps, s);
    RunHistory(Init(n), steps, s);
  }

  /** Draining: take any interleaving of any number of workers, adders, waits and spurious wake-ups, and let
      the threads inside the pool move until none can.  Then the queue is empty, every worker sleeps, every
      added job has been run exactly once, and no caller is stuck in `thpool_wait`. */
  lemma DrainedWhenQuiescent(n: nat, steps: seq<Step>, s: Pool)
    requires n > 0 && Run(Init(n), steps, s)
    requires s.keepalive && Quiescent(s)
    ensures s.queue == [] && s.working == 0
    ensures |s.threads| == n && forall i | 0 <= i < n :: s.threads[i].Sleeping?
    ensures forall j: nat :: multiset(Ran(Init(n), steps))[j] == if j < Adds(steps) then 1 else 0
    ensures s.waiter.Outside? || s.waiter.Returned?
  {
    FromStart(n, steps, s);
    DrainedState(s);
    CountsAsOnce(s.finished, s.added);
  }

  lemma DrainedState(s: Pool)
    requires Inv(s) && s.keepalive && Quiescent(s) && s.threads != []
    ensures s.queue == [] && s.working == 0 && (s.waiter.Outside? || s.waiter.Returned?)
    ensures forall i | 0 <= i < |s.threads| :: s.threads[i].Sleeping?
    ensures Distinct(s.finished) && forall j: nat :: j in s.finished <==> j < s.added
  {
    QuiescentShape(s);
    TotalAtLeast(Asleep, s.threads, 0);
    IdleMeansFinished(s);
  }

  /** Jobs leave the queue in the order in which they were added, each once. */
  lemma JobsLeaveInOrder(n: nat, steps: seq<Step>, s: Pool)
    requires Run(Init(n), steps, s)
    ensures |Unlinked(Init(n), steps)| + |s.queue| == Adds(steps)
    ensures forall k | 0 <= k < |Unlinked(Init(n), steps)| :: Unlinked(Init(n), steps)[k] == k
    ensures forall i | 0 <= i < |s.queue| :: s.queue[i] == |Unlinked(Init(n), steps)| + i
  {
    InitInv(n);
    UnlinkedInOrder(Init(n), steps, s);
    FromStart(n, steps, s);
  }

  lemma {:induction false} UnlinkedInOrder(s: Pool, steps: seq<Step>, t: Pool)
    requires Inv(s) && Run(s, steps, t)
    ensures t.pulled == s.pulled + |Unlinked(s, steps)|
    ensures forall k | 0 <= k < |Unlinked(s, steps)| :: Unlinked(s, steps)[k] == s.pulled + k
    decreases steps
  {
    hide Next, Enabled, Shape, Accounted;
    if steps != [] {
      StepInv(s, steps[0]);
      StepHistory(s, steps[0]);
      UnlinkedFirst(s, steps[0]);
      UnlinkedInOrder(Next(s, steps[0]), steps[1..], t);
    }
  }

  lemma UnlinkedFirst(s: Pool, st: Step)
    requires Fifo(s) && Enabled(s, st)
    ensures UnlinkedBy(s, st) == [] || UnlinkedBy(s, st) == [s.pulled]
  {
  }

  lemma {:induction false} RunKeepsCrew(s: Pool, steps: seq<Step>, t: Pool)
    requires Run(s, steps, t)
    ensures |t.threads| == |s.threads|
    decreases steps
  {
    if steps != [] { RunKeepsCrew(Next(s, steps[0]), steps[1..], t); }
  }

  // ---------------------------------------------------------------- while work is waiting

  /** In every reachable state with a job waiting, some thread inside the pool can move. */
  lemma WorkKeepsSomebodyMoving(n: nat, steps: seq<Step>, s: Pool)
    requires n > 0 && Run(Init(n), steps, s)
    requires s.keepalive && s.queue != []
    ensures exists st: Step :: Internal(st) && Enabled(s, st)
  {
    if Quiescent(s) { DrainedWhenQuiescent(n, steps, s); }
  }

  /** The token discipline, in every reachable state before destroy.  Workers have got past the semaphore less than twice
      as often as jobs were added, once there was a job. */
  lemma TokenDiscipline(n: nat, steps: seq<Step>, s: Pool)
    requires Run(Init(n), steps, s)
    ensures s.keepalive && s.queue != [] ==>
              s.v == 1 || s.adderPosting ||
              exists i :: 0 <= i < |s.threads| && Score(Carrying, s.threads[i]) == 1
    ensures s.v == 1 && (exists i :: 0 <= i < |s.threads| && s.threads[i].Sleeping?) ==>
              exists i :: 0 <= i < |s.threads| && s.threads[i].Woken?
    ensures s.keepalive ==>
              Tokens(Init(n), steps) + s.v + |s.queue| <=
              2 * Adds(steps) - if s.queue == [] && Adds(steps) > 0 then 1 else 0
  {
    hide Accounted, WaitOk, Run;
    FromStart(n, steps, s);
    TotalZero(Carrying, s.threads);
    TotalZero(Asleep, s.threads);
    TotalZero(Roused, s.threads);
  }

  // ---------------------------------------------------------------- thpool_wait

  /** Jobs whose `thpool_add_work` has returned, or has nothing left to do. */
  function AddsDone(steps: seq<Step>, s: Pool): int {
    Adds(steps) - if s.adderPosting then 1 else 0
  }

  /** When a call of `thpool_wait` made in state s has returned in state t, every job whose add was complete in s has been
      run, once, whatever else was added or run in between. */
  lemma WaitIsSafe(n: nat, before: seq<Step>, s: Pool, after: seq<Step>, t: Pool)
    requires Run(Init(n), before, s) && Enabled(s, WaitCall)
    requires Run(Next(s, WaitCall), after, t) && NoWaitCall(after) && t.waiter.Returned?
    ensures forall j: nat | j < AddsDone(before, s) ::
              multiset(Ran(Init(n), before) + Ran(Next(s, WaitCall), after))[j] == 1
  {
    hide Inv, Run, Next, Ran, Adds, Enabled;
    var s1 := Next(s, WaitCall);
    FromStart(n, before, s);
    StepInv(s, WaitCall);
    CallRecords(s);
    RunInv(s1, after, t);
    RunHistory(s1, after, t);
    ReturnedState(t);
    assert t.finished == Ran(Init(n), before) + Ran(s1, after);
  }

  lemma CallRecords(s: Pool)
    requires Enabled(s, WaitCall)
    ensures var t := Next(s, WaitCall); t.finished == s.finished && t.calledAt == Complete(s)
  {
  }

  lemma ReturnedState(t: Pool)
    requires Inv(t) && t.waiter.Returned?
    ensures forall j: nat | j < t.calledAt :: multiset(t.finished)[j] == 1
  {
    hide Control;
    forall j: nat | j < t.calledAt ensures multiset(t.finished)[j] == 1 { DistinctOnce(t.finished, j); }
  }

  /** `thpool_wait` is never left blocked on an idle pool, the very step that makes the pool idle signals it, and nothing
      but a worker that leaves nobody working does. */
  lemma WaitMissesNoSignal(n: nat, steps: seq<Step>, s: Pool, st: Step)
    requires Run(Init(n), steps, s) && s.waiter.Blocked?
    ensures !Idle(s)
    ensures Enabled(s, st) && Idle(Next(s, st)) ==> st.Uncount? && Next(s, st).waiter.Signalled?
    ensures Enabled(s, st) && !Next(s, st).waiter.Blocked? ==>
              Next(s, st).waiter.Signalled? && (st.SpuriousWaiter? || (st.Uncount? && Next(s, st).working == 0))
  {
    FromStart(n, steps, s);
    if Enabled(s, st) && Idle(Next(s, st)) { StepInv(s, st); }
  }

  // ---------------------------------------------------------------- shutdown

  predicate Committed(p: Phase) { p.Counting? || p.Pulling? }

  /** With keepalive cleared, a worker that is not already past both tests of it never pulls again. */
  lemma {:induction false} NoNewPulls(s: Pool, steps: seq<Step>, t: Pool, w: nat)
    requires Run(s, steps, t) && !s.keepalive && w < |s.threads| && !Committed(s.threads[w])
    ensures |t.threads| == |s.threads| && !t.keepalive && !Committed(t.threads[w]) && Pull(w) !in steps
    decreases steps
  {
    if steps != [] {
      StaysOut(s, steps[0], w);
      NoNewPulls(Next(s, steps[0]), steps[1..], t, w);
      assert steps == [steps[0]] + steps[1..];
    }
  }

  lemma StaysOut(s: Pool, st: Step, w: nat)
    requires Enabled(s, st) && !s.keepalive && w < |s.threads| && !Committed(s.threads[w])
    ensures var t := Next(s, st);
            |t.threads| == |s.threads| && !t.keepalive && !Committed(t.threads[w]) && st != Pull(w)
  {
  }

  /** From the moment keepalive is cleared a worker unlinks at most one job; the queue is torn down only when
      every worker has left; and a torn-down pool has run or discarded every added job exactly once. */
  lemma ShutdownAccounts(n: nat, steps: seq<Step>, s: Pool)
    requires Run(Init(n), steps, s) && !s.keepalive
    ensures |s.threads| == n && forall w: nat | w < n :: LatePulls(Init(n), steps, w) <= 1
    ensures !Open(s) ==> forall i | 0 <= i < n :: s.threads[i].Gone?
    ensures s.destroyer.Cleared? ==>
              && s.queue == [] && s.v == 0
              && forall j: nat ::
                   multiset(Ran(Init(n), steps) + Thrown(Init(n), steps))[j] == if j < Adds(steps) then 1 else 0
  {
    FromStart(n, steps, s);
    forall w: nat | w < n ensures LatePulls(Init(n), steps, w) <= 1 { RunLate(Init(n), steps, s, w); }
    if s.destroyer.Cleared? { ClearedState(s); }
  }

  lemma ClearedState(s: Pool)
    requires Inv(s) && s.destroyer.Cleared?
    ensures forall j: nat :: multiset(s.finished + s.discarded)[j] == if j < s.added then 1 else 0
  {
    var all := s.finished + s.discarded;
    forall i, k | 0 <= i < k < |all| ensures all[i] != all[k] {
      assert i < |s.finished| ==> all[i] in s.finished;
      assert k >= |s.finished| ==> all[k] in s.discarded;
    }
    forall j: nat ensures j in all <==> j < s.added { assert j in all <==> j in s.finished || j in s.discarded; }
    CountsAsOnce(all, s.added);
  }

  /** Workers that could still fall asleep, or already have. */
  function Stuck(s: Pool): nat { Total(Outer, s.threads) }

  lemma {:induction false} RoundKeeps(s: Pool, steps: seq<Step>, t: Pool, stuck: nat)
    requires Inv(s) && !s.keepalive && Run(s, steps, t) && AllInternal(steps)
    requires Stuck(s) <= stuck && (s.v == 1 || Stuck(s) < stuck)
    ensures Inv(t) && !t.keepalive && Stuck(t) <= stuck && (t.v == 1 || Stuck(t) < stuck)
    decreases steps
  {
    if steps != [] {
      StepInv(s, steps[0]);
      RoundStep(s, steps[0]);
      RoundKeeps(Next(s, steps[0]), steps[1..], t, stuck);
    }
  }

  lemma RoundPost(s: Pool, st: Step)
    requires Enabled(s, st) && (st.AddPost? || st.PullPost?)
    ensures Stuck(Next(s, st)) == Stuck(s) && Next(s, st).v == 1
  {
    var us := Wake(s.threads, st.woken);
    TotalWake(Outer, s.threads, us);
    if st.PullPost? { TotalMove(Outer, us, st.w, Running(s.threads[st.w].job)); }
  }

  lemma RoundMove(s: Pool, t: Pool, w: nat, p: Phase)
    requires w < |s.threads| && t.threads == s.threads[w := p]
    requires Score(Outer, p) <= Score(Outer, s.threads[w])
    requires t.v == s.v || Score(Outer, p) < Score(Outer, s.threads[w])
    ensures Stuck(t) <= Stuck(s) && (s.v == 1 && t.v != 1 ==> Stuck(t) < Stuck(s))
  {
    TotalMove(Outer, s.threads, w, p);
  }

  /** While shutting down nobody returns to the semaphore, and whoever takes the token gets past it. */
  lemma RoundStep(s: Pool, st: Step)
    requires !s.keepalive && Enabled(s, st) && Internal(st)
    ensures var t := Next(s, st);
            !t.keepalive && Stuck(t) <= Stuck(s) && (s.v == 1 && t.v != 1 ==> Stuck(t) < Stuck(s))
  {
    if st.AddPost? || st.PullPost? {
      RoundPost(s, st);
    } else if !AtWaiter(st) {
      RoundMove(s, Next(s, st), st.w, Next(s, st).threads[st.w]);
    }
  }

  /** A broadcast leaves nobody asleep and a token for one of them; it moves nobody else. */
  lemma BroadcastWakesAll(s: Pool)
    requires Enabled(s, PostAll)
    ensures var t := PostAllOf(s);
            && t.v == 1 && |t.threads| == |s.threads|
            && (forall i | 0 <= i < |s.threads| ::
                  t.threads[i] == if s.threads[i].Sleeping? then Woken else s.threads[i])
            && t.queue == s.queue && t.working == s.working && t.alive == s.alive
  {
    forall i | 0 <= i < |s.threads| && s.threads[i].Sleeping? ensures i in Sleepers(s.threads) { }
  }

  /** Every broadcast of `thpool_destroy` that finds workers at the semaphore gets at least one of them out of
      the pool, whatever the interleaving, once the pool has come to rest again. */
  lemma BroadcastLetsOneLeave(s: Pool, steps: seq<Step>, t: Pool)
    requires Inv(s) && Enabled(s, PostAll) && Stuck(s) > 0
    requires Run(PostAllOf(s), steps, t) && AllInternal(steps) && Quiescent(t)
    ensures |t.threads| == |s.threads|
    ensures t.alive < Stuck(s) <= s.alive
    ensures t.alive == Total(Asleep, t.threads)
  {
    hide Accounted, WaitOk;
    var s1 := PostAllOf(s);
    PostAllInv(s);
    TotalWake(Outer, s.threads, s1.threads);
    RoundKeeps(s1, steps, t, Stuck(s));
    RunKeepsCrew(s1, steps, t);
    QuiescentShape(t);
    SameTotals(t.threads);
    OuterAlive(s.threads);
    if t.v == 1 { TotalZero(Outer, t.threads); TotalZero(Asleep, t.threads); }
  }

  /** A broadcast, and then the threads inside the pool until none can move. */
  ghost predicate Round(s: Pool, t: Pool) {
    Enabled(s, PostAll) && exists steps :: Run(PostAllOf(s), steps, t) && AllInternal(steps) && Quiescent(t)
  }

  lemma {:induction false} InternalKeepsStopping(s: Pool, steps: seq<Step>, t: Pool)
    requires s.destroyer.Stopping? && Run(s, steps, t) && AllInternal(steps)
    ensures t.destroyer.Stopping?
    decreases steps
  {
    if steps != [] { InternalKeepsStopping(Next(s, steps[0]), steps[1..], t); }
  }

  /** While shutting down, a round leaves fewer workers alive, or none. */
  lemma RoundShrinks(s: Pool, t: Pool)
    requires Inv(s) && s.destroyer.Stopping? && Round(s, t)
    ensures Inv(t) && t.destroyer.Stopping? && t.alive >= 0 && (t.alive < s.alive || t.alive == 0)
  {
    hide Inv;
    var steps :| Run(PostAllOf(s), steps, t) && AllInternal(steps) && Quiescent(t);
    PostAllInv(s);
    RunInv(PostAllOf(s), steps, t);
    InternalKeepsStopping(PostAllOf(s), steps, t);
    if Stuck(s) > 0 {
      BroadcastLetsOneLeave(s, steps, t);
    } else {
      NobodyStuck(s, steps, t);
    }
  }

  lemma NobodyStuck(s: Pool, steps: seq<Step>, t: Pool)
    requires Inv(s) && s.destroyer.Stopping? && Stuck(s) == 0
    requires Run(PostAllOf(s), steps, t) && AllInternal(steps) && Quiescent(t)
    ensures t.alive == 0
  {
    PostAllInv(s);
    TotalWake(Outer, s.threads, PostAllOf(s).threads);
    RoundKeeps(PostAllOf(s), steps, t, 0);
    QuiescentShape(t);
    SameTotals(t.threads);
  }

  /** Shutdown ends: from any reachable state with keepalive cleared, after as many rounds of broadcast and rest as there
      are workers alive, every worker has left, whatever the interleaving. */
  lemma {:induction false} RoundsEmptyThePool(states: seq<Pool>)
    requires states != [] && Inv(states[0]) && states[0].destroyer.Stopping?
    requires forall i :: 0 <= i < |states| - 1 ==> Round(states[i], states[i + 1])
    requires |states| > 1 && |states| > states[0].alive
    ensures var t := states[|states| - 1]; t.alive == 0 && forall i | 0 <= i < |t.threads| :: t.threads[i].Gone?
    decreases |states|
  {
    hide Round;
    RoundShrinks(states[0], states[1]);
    var rest := states[1..];
    forall i | 0 <= i < |rest| - 1 ensures Round(rest[i], rest[i + 1]) { assert Round(states[i + 1], states[i + 2]); }
    if |rest| > 1 {
      RoundsEmptyThePool(rest);
    } else {
      TotalZero(Living, states[1].threads);
    }
  }

  lemma {:induction false} SameTotals(ts: seq<Phase>)
    requires forall i | 0 <= i < |ts| :: ts[i].Sleeping? || ts[i].Gone?
    ensures Total(Asleep, ts) == Total(Outer, ts) == Total(Living, ts)
  {
    if ts != [] { SameTotals(ts[1..]); }
  }

  lemma {:induction false} OuterAlive(ts: seq<Phase>)
    ensures Total(Outer, ts) <= Total(Living, ts)
  {
    if ts != [] { OuterAlive(ts[1..]); }
  }

  /** At rest no caller is shut out: each call can be made as soon as its own precondition holds. */
  lemma CallsAreOpen(s: Pool)
    requires Quiescent(s)
    ensures Open(s) ==> Enabled(s, Add)
    ensures Open(s) && !s.waiter.Blocked? ==> Enabled(s, WaitCall)
    ensures s.destroyer.Serving? ==> Enabled(s, Destroy)
    ensures s.destroyer.Stopping? ==> Enabled(s, PostAll)
    ensures s.destroyer.Stopping? && s.alive == 0 && !s.waiter.Blocked? ==> Enabled(s, StartClear)
  {
    QuiescentCalls(s);
  }

  ghost function DiscardSteps(n: nat): seq<Step> {
    if n == 0 then [EndClear] else [Discard] + DiscardSteps(n - 1)
  }

  /** One discard per job left in the queue, between the start and the end of the clearing. */
  ghost function ClearSteps(s: Pool): seq<Step> {
    [StartClear] + DiscardSteps(|s.queue|)
  }

  ghost function ClearEnd(s: Pool): Pool {
    s.(v := 0, queue := [], pulled := s.pulled + |s.queue|, discarded := s.discarded + s.queue, destroyer := Cleared)
  }

  /** The whole clearing is a run. */
  lemma ClearAll(s: Pool)
    requires Enabled(s, StartClear)
    ensures Run(s, ClearSteps(s), ClearEnd(s))
  {
    ClearRun(s.(destroyer := Clearing));
    assert ClearSteps(s)[1..] == DiscardSteps(|s.queue|);
  }

  lemma {:induction false} ClearRun(s: Pool)
    requires s.destroyer.Clearing?
    ensures Run(s, DiscardSteps(|s.queue|), ClearEnd(s))
    decreases |s.queue|
  {
    if s.queue != [] {
      var t := DiscardOf(s);
      ClearRun(t);
      assert s.discarded + s.queue == t.discarded + t.queue;
      assert ClearEnd(t) == ClearEnd(s);
      assert DiscardSteps(|s.queue|)[1..] == DiscardSteps(|t.queue|);
    } else {
      assert s.discarded + s.queue == s.discarded;
      assert DiscardSteps(0)[1..] == [];
    }
  }

  predicate NobodyWaits(s: Pool) { s.waiter.Outside? || s.waiter.Returned? }

  lemma {:induction false} InternalKeepsNobody(s: Pool, steps: seq<Step>, t: Pool)
    requires NobodyWaits(s) && Run(s, steps, t) && AllInternal(steps)
    ensures NobodyWaits(t)
    decreases steps
  {
    if steps != [] { InternalKeepsNobody(Next(s, steps[0]), steps[1..], t); }
  }

  /** Destroying a pool can always be completed: broadcasts and what the workers then do lead to a pool in which all have
      left, and the queue is torn down. */
  lemma ShutdownCompletes(s: Pool) returns (steps: seq<Step>, t: Pool)
    requires Inv(s) && s.destroyer.Serving? && NobodyWaits(s)
    ensures Run(s, steps, t) && t.destroyer.Cleared? && t.alive == 0 && t.queue == []
  {
    hide Inv, Run;
    var s1 := Next(s, Destroy);
    StepInv(s, Destroy);
    RunOne(s, Destroy);
    var more, s2 := Emptied(s1);
    RunAppend(s, [Destroy], s1, more, s2);
    ClearAll(s2);
    RunAppend(s, [Destroy] + more, s2, ClearSteps(s2), ClearEnd(s2));
    steps, t := [Destroy] + more + ClearSteps(s2), ClearEnd(s2);
  }

  lemma {:induction false} Emptied(s: Pool) returns (steps: seq<Step>, t: Pool)
    requires Inv(s) && s.destroyer.Stopping? && NobodyWaits(s)
    ensures Run(s, steps, t) && Inv(t) && Enabled(t, StartClear)
    decreases if s.alive >= 0 then s.alive else 0
  {
    hide Inv, Run, Quiescent;
    var s1 := PostAllOf(s);
    PostAllInv(s);
    RunOne(s, PostAll);
    var more, s2 := Settles(s1);
    InternalKeepsNobody(s1, more, s2);
    RunAppend(s, [PostAll], s1, more, s2);
    assert Round(s, s2);
    RoundShrinks(s, s2);
    steps, t := [PostAll] + more, s2;
    if s2.alive == 0 {
      CallsAreOpen(s2);
    } else {
      var rest;
      rest, t := Emptied(s2);
      RunAppend(s, steps, s2, rest, t);
      steps := steps + rest;
    }
  }
}
