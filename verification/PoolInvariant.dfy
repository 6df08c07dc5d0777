/** What every step of the thread pool keeps. */
module PoolInvariant {
  import opened Common
  import opened PoolModel
  import opened PoolGauge

  predicate HasJob(p: Phase) { p.Posting? || p.Running? }

  predicate Holds(p: Phase, j: nat) { HasJob(p) && p.job == j }

  predicate HeldBySome(ts: seq<Phase>, j: nat) {
    exists i :: 0 <= i < |ts| && Holds(ts[i], j)
  }

  /** The counters agree with where the threads are. */
  predicate Shape(s: Pool) {
    && s.v <= 1
    && s.working == Total(Busy, s.threads)
    && s.alive == Total(Living, s.threads)
    && |s.latePulls| == |s.threads|
  }

  /** The queue is the jobs linked and not yet unlinked, in order. */
  predicate Fifo(s: Pool) {
    && s.pulled + |s.queue| == s.added
    && forall i :: 0 <= i < |s.queue| ==> s.queue[i] == s.pulled + i
  }

  /** Every unlinked job is with exactly one worker, or finished once, or discarded once. */
  predicate Accounted(ts: seq<Phase>, pulled: nat, finished: seq<nat>, discarded: seq<nat>) {
    && Distinct(finished)
    && Distinct(discarded)
    && (forall j :: j in finished ==> j < pulled && j !in discarded)
    && (forall j :: j in discarded ==> j < pulled)
    && (forall i :: 0 <= i < |ts| && HasJob(ts[i]) ==>
          ts[i].job < pulled && ts[i].job !in finished && ts[i].job !in discarded)
    && (forall i, k :: 0 <= i < k < |ts| && HasJob(ts[i]) && HasJob(ts[k]) ==> ts[i].job != ts[k].job)
    && (forall j: nat :: j < pulled ==> j in finished || j in discarded || HeldBySome(ts, j))
  }

  function Posters(s: Pool): nat {
    Total(AtPost, s.threads) + if s.adderPosting then 1 else 0
  }

  /** No work is forgotten: a waiting job has a token, or somebody who will pull it or post. */
  predicate NoLostWakeup(s: Pool) {
    s.keepalive && s.queue != [] ==> s.v == 1 || Total(Carrying, s.threads) > 0 || s.adderPosting
  }

  /** A token that nobody has taken has been signalled to a sleeper, if there is one. */
  predicate TokenIsSeen(s: Pool) {
    s.v == 1 && Total(Asleep, s.threads) > 0 ==> Total(Roused, s.threads) > 0
  }

  predicate WakeupBound(s: Pool) {
    s.destroyer.Serving? ==>
      s.tokens + s.v + |s.queue| + Posters(s) <= 2 * s.added - if s.queue == [] && s.added > 0 then 1 else 0
  }

  predicate WaitOk(s: Pool) {
    && (s.waiter.Blocking? || s.waiter.Blocked? ==> s.queue != [] || s.working > 0)
    && (s.waiter.LenZero? ==> s.seenAt <= s.pulled)
    && (s.calledAt <= s.added)
    && (s.waiter.LenZero? ==> s.calledAt <= s.seenAt)
    && (s.waiter.Returned? ==> forall j: nat :: j < s.calledAt ==> j in s.finished)
    && (!Open(s) ==> s.waiter.Outside? || s.waiter.Returned?)
  }

  /** A worker that may have pulled a job after keepalive was cleared will not pull again. */
  predicate PastPull(p: Phase) {
    p.Posting? || p.Running? || p.Finishing? || p.Head? || p.Leaving? || p.Gone?
  }

  predicate ShutdownOk(s: Pool) {
    && s.keepalive == s.destroyer.Serving?
    && (forall i :: 0 <= i < |s.threads| && i < |s.latePulls| ==>
          s.latePulls[i] <= 1 && (s.latePulls[i] == 1 ==> !s.keepalive && PastPull(s.threads[i])))
    && (s.keepalive ==> forall i :: 0 <= i < |s.threads| ==> !s.threads[i].Leaving? && !s.threads[i].Gone?)
    && (!Open(s) ==> !s.adderPosting && forall i :: 0 <= i < |s.threads| ==> s.threads[i].Gone?)
    && (Open(s) ==> s.discarded == [])
    && (s.destroyer.Cleared? ==> s.queue == [] && s.v == 0)
  }

  /** Everything but the accounting of single jobs and what `thpool_wait` relies on. */
  predicate Control(s: Pool) {
    && Shape(s)
    && Fifo(s)
    && Posters(s) <= 1
    && NoLostWakeup(s)
    && TokenIsSeen(s)
    && WakeupBound(s)
    && ShutdownOk(s)
  }

  predicate Inv(s: Pool) {
    && Control(s)
    && WaitOk(s)
    && Accounted(s.threads, s.pulled, s.finished, s.discarded)
  }

  lemma InitInv(n: nat)
    ensures Inv(Init(n))
  {
    TotalInit(Busy, n);
    TotalInit(Living, n);
    TotalInit(AtPost, n);
    TotalInit(Asleep, n);
  }

  /** How one worker's move changes every gauge the invariant mentions. */
  predicate Moved(g: Gauge, ts: seq<Phase>, us: seq<Phase>, from: Phase, to: Phase) {
    Total(g, us) == Total(g, ts) - Score(g, from) + Score(g, to) && Total(g, ts) >= Score(g, from)
  }

  lemma Gauges(ts: seq<Phase>, w: nat, p: Phase)
    requires w < |ts|
    ensures var us := ts[w := p];
            && Moved(Busy, ts, us, ts[w], p) && Moved(Living, ts, us, ts[w], p) && Moved(Carrying, ts, us, ts[w], p)
            && Moved(AtPost, ts, us, ts[w], p) && Moved(Asleep, ts, us, ts[w], p) && Moved(Roused, ts, us, ts[w], p)
  {
    var us, from := ts[w := p], ts[w];
    forall g: Gauge ensures Moved(g, ts, us, from, p) {
      TotalMove(g, ts, w, p);
      TotalAtLeast(g, ts, w);
    }
  }

  /** What held a job before still holds it after a change that leaves job holders alone. */
  lemma HeldStays(ts: seq<Phase>, us: seq<Phase>, j: nat)
    requires |us| == |ts|
    requires forall i | 0 <= i < |ts| && HasJob(ts[i]) :: HasJob(us[i]) && us[i].job == ts[i].job
    requires HeldBySome(ts, j)
    ensures HeldBySome(us, j)
  {
    var i :| 0 <= i < |ts| && Holds(ts[i], j);
    assert Holds(us[i], j);
  }

  /** Changes that leave every worker with the job it has, and hand out none, keep the accounting. */
  lemma AccountedSame(ts: seq<Phase>, us: seq<Phase>, pulled: nat, finished: seq<nat>, discarded: seq<nat>)
    requires Accounted(ts, pulled, finished, discarded)
    requires |us| == |ts|
    requires forall i | 0 <= i < |ts| :: HasJob(ts[i]) == HasJob(us[i])
    requires forall i | 0 <= i < |ts| && HasJob(ts[i]) :: HasJob(us[i]) && us[i].job == ts[i].job
    ensures Accounted(us, pulled, finished, discarded)
  {
    forall j: nat | j < pulled ensures j in finished || j in discarded || HeldBySome(us, j) {
      if HeldBySome(ts, j) { HeldStays(ts, us, j); }
    }
  }

  lemma AccountedPull(ts: seq<Phase>, w: nat, p: Phase, pulled: nat, finished: seq<nat>, discarded: seq<nat>)
    requires Accounted(ts, pulled, finished, discarded)
    requires w < |ts| && !HasJob(ts[w]) && Holds(p, pulled)
    ensures Accounted(ts[w := p], pulled + 1, finished, discarded)
  {
    var us := ts[w := p];
    forall j: nat | j < pulled + 1 ensures j in finished || j in discarded || HeldBySome(us, j) {
      if j == pulled {
        assert Holds(us[w], j);
      } else if HeldBySome(ts, j) {
        HeldStays(ts, us, j);
      }
    }
  }

  lemma AccountedFinish(ts: seq<Phase>, w: nat, pulled: nat, finished: seq<nat>, discarded: seq<nat>)
    requires Accounted(ts, pulled, finished, discarded)
    requires w < |ts| && HasJob(ts[w])
    ensures Accounted(ts[w := Finishing], pulled, finished + [ts[w].job], discarded)
  {
    var us := ts[w := Finishing];
    var done := finished + [ts[w].job];
    forall j: nat | j < pulled ensures j in done || j in discarded || HeldBySome(us, j) {
      if HeldBySome(ts, j) {
        var i :| 0 <= i < |ts| && Holds(ts[i], j);
        if i == w {
          assert done[|finished|] == j;
        } else {
          assert Holds(us[i], j);
        }
      }
    }
  }

  lemma AccountedDiscard(ts: seq<Phase>, pulled: nat, finished: seq<nat>, discarded: seq<nat>)
    requires Accounted(ts, pulled, finished, discarded)
    ensures Accounted(ts, pulled + 1, finished, discarded + [pulled])
  {
    var gone := discarded + [pulled];
    assert forall i | 0 <= i < |discarded| :: discarded[i] in discarded;
    forall j: nat | j < pulled + 1 ensures j in finished || j in gone || HeldBySome(ts, j) {
      if j == pulled {
        assert gone[|discarded|] == j;
      } else if j in discarded {
        assert j in gone;
      }
    }
  }

  predicate Idle(s: Pool) { s.queue == [] && s.working == 0 }

  /** What `thpool_wait` relies on outlives any step of the others that leaves it something to wait for. */
  lemma WaitKept(s: Pool, t: Pool)
    requires WaitOk(s)
    requires t.waiter == s.waiter && t.calledAt == s.calledAt && t.seenAt == s.seenAt && t.destroyer == s.destroyer
    requires t.added == s.added && t.pulled >= s.pulled && (t.adderPosting ==> s.adderPosting)
    requires forall j :: j in s.finished ==> j in t.finished
    requires t.queue != [] || t.working > 0 || Idle(s)
    ensures WaitOk(t)
  {
  }

  lemma LoopTestControl(s: Pool, w: nat)
    requires Control(s) && Enabled(s, LoopTest(w))
    ensures Control(LoopTestOf(s, w))
  {
    Gauges(s.threads, w, if s.keepalive then Waiting else Leaving);
  }

  lemma SemSleepControl(s: Pool, w: nat)
    requires Control(s) && Enabled(s, SemTest(w)) && s.v != 1
    ensures Control(SemTestOf(s, w))
  {
    Gauges(s.threads, w, Sleeping);
  }

  lemma SemTakeControl(s: Pool, w: nat)
    requires Control(s) && Enabled(s, SemTest(w)) && s.v == 1
    ensures Control(SemTestOf(s, w))
  {
    Gauges(s.threads, w, Token);
  }

  lemma KeepTestControl(s: Pool, w: nat)
    requires Control(s) && Enabled(s, KeepTest(w))
    ensures Control(KeepTestOf(s, w))
  {
    Gauges(s.threads, w, if s.keepalive then Counting else Head);
  }

  lemma CountControl(s: Pool, w: nat)
    requires Control(s) && Enabled(s, Count(w))
    ensures Control(CountOf(s, w))
  {
    Gauges(s.threads, w, Pulling);
  }

  lemma LeaveControl(s: Pool, w: nat)
    requires Control(s) && Enabled(s, Leave(w))
    ensures Control(LeaveOf(s, w))
  {
    Gauges(s.threads, w, Gone);
  }

  lemma SpuriousControl(s: Pool, w: nat)
    requires Control(s) && Enabled(s, SpuriousWorker(w))
    ensures Control(Move(s, w, Woken))
  {
    Gauges(s.threads, w, Woken);
  }

  lemma PullNoneControl(s: Pool, w: nat)
    requires Control(s) && Enabled(s, Pull(w)) && s.queue == []
    ensures Control(PullOf(s, w)) && PullOf(s, w).working > 0
  {
    Gauges(s.threads, w, Finishing);
  }

  lemma PullLastControl(s: Pool, w: nat)
    requires Control(s) && Enabled(s, Pull(w)) && |s.queue| == 1
    ensures Control(PullOf(s, w)) && PullOf(s, w).working > 0
  {
    Gauges(s.threads, w, Running(s.queue[0]));
  }

  lemma PullMoreControl(s: Pool, w: nat)
    requires Control(s) && Enabled(s, Pull(w)) && |s.queue| > 1
    ensures Control(PullOf(s, w))
  {
    TotalZero(AtPost, s.threads);
    Gauges(s.threads, w, Posting(s.queue[0]));
  }

  lemma RunJobControl(s: Pool, w: nat)
    requires Control(s) && Enabled(s, RunJob(w))
    ensures Control(RunJobOf(s, w)) && RunJobOf(s, w).working > 0
  {
    Gauges(s.threads, w, Finishing);
  }

  lemma UncountControl(s: Pool, w: nat)
    requires Control(s) && Enabled(s, Uncount(w))
    ensures Control(UncountOf(s, w)) && UncountOf(s, w).working >= 0
  {
    Gauges(s.threads, w, Head);
  }

  /** Steps in which a worker moves without a job. */
  predicate Quiet(st: Step) {
    st.LoopTest? || st.SemTest? || st.KeepTest? || st.Count? || st.Leave? || st.SpuriousWorker?
  }

  lemma QuietControl(s: Pool, st: Step)
    requires Control(s) && Enabled(s, st) && Quiet(st)
    ensures Control(Next(s, st))
  {
    match st
    case LoopTest(w) => LoopTestControl(s, w);
    case SemTest(w) => if s.v != 1 { SemSleepControl(s, w); } else { SemTakeControl(s, w); }
    case KeepTest(w) => KeepTestControl(s, w);
    case Count(w) => CountControl(s, w);
    case Leave(w) => LeaveControl(s, w);
    case SpuriousWorker(w) => SpuriousControl(s, w);
  }

  lemma QuietFrame(s: Pool, st: Step)
    requires Enabled(s, st) && Quiet(st) && s.working >= 0
    requires Accounted(s.threads, s.pulled, s.finished, s.discarded)
    ensures var t := Next(s, st);
            && t == s.(threads := t.threads, v := t.v, tokens := t.tokens, working := t.working, alive := t.alive)
            && t.working >= s.working
            && Accounted(t.threads, t.pulled, t.finished, t.discarded)
  {
    hide Accounted;
    AccountedSame(s.threads, Next(s, st).threads, s.pulled, s.finished, s.discarded);
  }

  lemma QuietInv(s: Pool, st: Step)
    requires Inv(s) && Enabled(s, st) && Quiet(st)
    ensures Inv(Next(s, st))
  {
    QuietControl(s, st);
    QuietFrame(s, st);
    WaitKept(s, Next(s, st));
  }

  lemma PullInv(s: Pool, w: nat)
    requires Inv(s) && Enabled(s, Pull(w))
    ensures Inv(PullOf(s, w))
  {
    var t := PullOf(s, w);
    if s.queue == [] {
      PullNoneControl(s, w);
      AccountedSame(s.threads, t.threads, s.pulled, s.finished, s.discarded);
    } else {
      if |s.queue| == 1 { PullLastControl(s, w); } else { PullMoreControl(s, w); }
      AccountedPull(s.threads, w, t.threads[w], s.pulled, s.finished, s.discarded);
    }
    WaitKept(s, t);
  }

  /** A post leaves all gauges but sleep alone, and rouses somebody if anybody sleeps. */
  lemma WakeGauges(ts: seq<Phase>, us: seq<Phase>, woken: set<nat>)
    requires LegalWake(ts, woken) && us == Wake(ts, woken)
    ensures Total(Busy, us) == Total(Busy, ts) && Total(Living, us) == Total(Living, ts)
    ensures Total(AtPost, us) == Total(AtPost, ts) && Total(Outer, us) == Total(Outer, ts)
    ensures Total(Asleep, us) > 0 ==> Total(Roused, us) > 0
  {
    TotalWake(Busy, ts, us);
    TotalWake(Living, ts, us);
    TotalWake(AtPost, ts, us);
    TotalWake(Outer, ts, us);
    if Total(Asleep, us) > 0 {
      TotalZero(Asleep, us);
      var i :| 0 <= i < |us| && us[i].Sleeping?;
      assert ts[i].Sleeping?;
      var k :| k in woken;
      TotalAtLeast(Roused, us, k);
    }
  }

  lemma AddPostControl(s: Pool, woken: set<nat>)
    requires Control(s) && Enabled(s, AddPost(woken))
    ensures Control(AddPostOf(s, woken))
  {
    WakeGauges(s.threads, Wake(s.threads, woken), woken);
  }

  lemma AddPostInv(s: Pool, woken: set<nat>)
    requires Inv(s) && Enabled(s, AddPost(woken))
    ensures Inv(AddPostOf(s, woken))
  {
    AddPostControl(s, woken);
    WaitKept(s, AddPostOf(s, woken));
    AccountedSame(s.threads, Wake(s.threads, woken), s.pulled, s.finished, s.discarded);
  }

  lemma PullPostCounts(s: Pool, w: nat, woken: set<nat>)
    requires Control(s) && Enabled(s, PullPost(w, woken))
    ensures var t := PullPostOf(s, w, woken);
            Shape(t) && Posters(t) <= 1 && TokenIsSeen(t) && WakeupBound(t)
  {
    var us := Wake(s.threads, woken);
    WakeGauges(s.threads, us, woken);
    Gauges(us, w, Running(s.threads[w].job));
  }

  lemma PullPostShutdown(s: Pool, w: nat, woken: set<nat>)
    requires ShutdownOk(s) && Enabled(s, PullPost(w, woken))
    ensures ShutdownOk(PullPostOf(s, w, woken))
  {
  }

  lemma PullPostInv(s: Pool, w: nat, woken: set<nat>)
    requires Inv(s) && Enabled(s, PullPost(w, woken))
    ensures Inv(PullPostOf(s, w, woken))
  {
    var t := PullPostOf(s, w, woken);
    PullPostCounts(s, w, woken);
    PullPostShutdown(s, w, woken);
    WaitKept(s, t);
    AccountedSame(s.threads, t.threads, s.pulled, s.finished, s.discarded);
  }

  lemma RunJobInv(s: Pool, w: nat)
    requires Inv(s) && Enabled(s, RunJob(w))
    ensures Inv(RunJobOf(s, w))
  {
    RunJobControl(s, w);
    WaitKept(s, RunJobOf(s, w));
    AccountedFinish(s.threads, w, s.pulled, s.finished, s.discarded);
  }

  lemma UncountInv(s: Pool, w: nat)
    requires Inv(s) && Enabled(s, Uncount(w))
    ensures Inv(UncountOf(s, w))
  {
    UncountControl(s, w);
    AccountedSame(s.threads, s.threads[w := Head], s.pulled, s.finished, s.discarded);
  }

  lemma AddControl(s: Pool)
    requires Control(s) && Enabled(s, Add)
    ensures Control(AddOf(s))
  {
    TotalZero(AtPost, s.threads);
  }

  lemma AddInv(s: Pool)
    requires Inv(s) && Enabled(s, Add)
    ensures Inv(AddOf(s))
  {
    AddControl(s);
  }

  /** With nobody counted as working, every unlinked job is finished: the heart of `thpool_wait`. */
  lemma IdleMeansFinished(s: Pool)
    requires Shape(s) && Accounted(s.threads, s.pulled, s.finished, s.discarded)
    requires s.working == 0 && s.discarded == []
    ensures forall j: nat :: j < s.pulled ==> j in s.finished
  {
    TotalZero(Busy, s.threads);
    assert forall i | 0 <= i < |s.threads| :: Score(Busy, s.threads[i]) == 0;
  }

  lemma WaiterInv(s: Pool, st: Step)
    requires Inv(s) && Enabled(s, st)
    requires st.WaitLock? || st.WaitReadLen? || st.WaitReadWorking? || st.WaitBlock? || st.WaitCall? ||
             st.SpuriousWaiter?
    ensures Inv(Next(s, st))
  {
    WaiterControl(s, st);
    if st.WaitReadWorking? && s.working == 0 { IdleMeansFinished(s); }
  }

  lemma WaiterControl(s: Pool, st: Step)
    requires Control(s) && Enabled(s, st)
    requires st.WaitLock? || st.WaitReadLen? || st.WaitReadWorking? || st.WaitBlock? || st.WaitCall? ||
             st.SpuriousWaiter?
    ensures Control(Next(s, st))
  {
  }

  /** A broadcast is one of the wake-ups a signal may give. */
  lemma SleepersLegal(ts: seq<Phase>)
    ensures LegalWake(ts, Sleepers(ts))
  {
    forall i: nat | i < |ts| && ts[i].Sleeping? ensures i in Sleepers(ts) { }
  }

  lemma PostAllControl(s: Pool)
    requires Control(s) && Enabled(s, PostAll)
    ensures Control(PostAllOf(s))
  {
    SleepersLegal(s.threads);
    WakeGauges(s.threads, Wake(s.threads, Sleepers(s.threads)), Sleepers(s.threads));
  }

  lemma PostAllInv(s: Pool)
    requires Inv(s) && Enabled(s, PostAll)
    ensures Inv(PostAllOf(s))
  {
    PostAllControl(s);
    WaitKept(s, PostAllOf(s));
    AccountedSame(s.threads, Wake(s.threads, Sleepers(s.threads)), s.pulled, s.finished, s.discarded);
  }

  predicate Ending(st: Step) { st.Destroy? || st.StartClear? || st.Discard? || st.EndClear? }

  lemma EndingControl(s: Pool, st: Step)
    requires Control(s) && Enabled(s, st) && Ending(st) && !st.Destroy?
    ensures Control(Next(s, st))
  {
    TotalZero(Living, s.threads);
    TotalZero(Asleep, s.threads);
  }

  lemma DestroyControl(s: Pool)
    requires Control(s) && Enabled(s, Destroy)
    ensures Control(Next(s, Destroy))
  {
  }

  lemma DiscardInv(s: Pool)
    requires Inv(s) && Enabled(s, Discard)
    ensures Inv(DiscardOf(s))
  {
    EndingControl(s, Discard);
    AccountedDiscard(s.threads, s.pulled, s.finished, s.discarded);
  }

  lemma EndingInv(s: Pool, st: Step)
    requires Inv(s) && Enabled(s, st) && Ending(st)
    ensures Inv(Next(s, st))
  {
    if st.Destroy? {
      DestroyControl(s);
    } else if st.Discard? {
      DiscardInv(s);
    } else {
      EndingControl(s, st);
    }
  }

  lemma WorkInv(s: Pool, st: Step)
    requires Inv(s) && Enabled(s, st)
    requires st.Pull? || st.PullPost? || st.RunJob? || st.Uncount? || st.AddPost? || st.Add? || st.PostAll?
    ensures Inv(Next(s, st))
  {
    match st
    case Pull(w) => PullInv(s, w);
    case PullPost(w, woken) => PullPostInv(s, w, woken);
    case RunJob(w) => RunJobInv(s, w);
    case Uncount(w) => UncountInv(s, w);
    case AddPost(woken) => AddPostInv(s, woken);
    case Add => AddInv(s);
    case PostAll => PostAllInv(s);
  }

  lemma StepInv(s: Pool, st: Step)
    requires Inv(s) && Enabled(s, st)
    ensures Inv(Next(s, st))
  {
    if Quiet(st) {
      QuietInv(s, st);
    } else if Ending(st) {
      EndingInv(s, st);
    } else if st.WaitLock? || st.WaitReadLen? || st.WaitReadWorking? || st.WaitBlock? || st.WaitCall? || st.SpuriousWaiter? {
      WaiterInv(s, st);
    } else {
      WorkInv(s, st);
    }
  }

  /** Main safety result: the invariant holds in every state any interleaving can reach. */
  lemma {:induction false} RunInv(s: Pool, steps: seq<Step>, t: Pool)
    requires Inv(s) && Run(s, steps, t)
    ensures Inv(t)
    decreases steps
  {
    if steps != [] {
      StepInv(s, steps[0]);
      RunInv(Next(s, steps[0]), steps[1..], t);
    }
  }
}
