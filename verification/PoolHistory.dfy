/** What happened in a run of the pool, read off its steps and the states they were taken in.

    The history fields of a pool are shown to say the same, so that results can be stated of the steps alone. */
module PoolHistory {
  import opened Common
  import opened PoolModel

  /** The job whose function the step calls. */
  function RanBy(s: Pool, st: Step): seq<nat>
    requires Enabled(s, st)
  {
    if st.RunJob? then [s.threads[st.w].job] else []
  }

  /** The job the step frees without running it. */
  function ThrownBy(s: Pool, st: Step): seq<nat>
    requires Enabled(s, st)
  {
    if st.Discard? then [s.queue[0]] else []
  }

  /** The job the step takes out of the queue. */
  function UnlinkedBy(s: Pool, st: Step): seq<nat>
    requires Enabled(s, st)
  {
    if st.Discard? || (st.Pull? && s.queue != []) then [s.queue[0]] else []
  }

  predicate TakesToken(s: Pool, st: Step) { st.SemTest? && s.v == 1 }

  predicate PullsLate(s: Pool, st: Step, w: nat) { st == Pull(w) && !s.keepalive && s.queue != [] }

  /** The jobs run, in order. */
  function Ran(s: Pool, steps: seq<Step>): seq<nat>
    decreases steps
  {
    if steps == [] || !Enabled(s, steps[0]) then []
    else RanBy(s, steps[0]) + Ran(Next(s, steps[0]), steps[1..])
  }

  /** The jobs freed without being run, in order. */
  function Thrown(s: Pool, steps: seq<Step>): seq<nat>
    decreases steps
  {
    if steps == [] || !Enabled(s, steps[0]) then []
    else ThrownBy(s, steps[0]) + Thrown(Next(s, steps[0]), steps[1..])
  }

  /** The jobs taken out of the queue, in order. */
  function Unlinked(s: Pool, steps: seq<Step>): seq<nat>
    decreases steps
  {
    if steps == [] || !Enabled(s, steps[0]) then []
    else UnlinkedBy(s, steps[0]) + Unlinked(Next(s, steps[0]), steps[1..])
  }

  /** How often a worker got past the semaphore. */
  function Tokens(s: Pool, steps: seq<Step>): nat
    decreases steps
  {
    if steps == [] || !Enabled(s, steps[0]) then 0
    else (if TakesToken(s, steps[0]) then 1 else 0) + Tokens(Next(s, steps[0]), steps[1..])
  }

  /** How many jobs worker w took out of the queue with keepalive cleared. */
  function LatePulls(s: Pool, steps: seq<Step>, w: nat): nat
    decreases steps
  {
    if steps == [] || !Enabled(s, steps[0]) then 0
    else (if PullsLate(s, steps[0], w) then 1 else 0) + LatePulls(Next(s, steps[0]), steps[1..], w)
  }

  /** How many jobs were added. */
  function Adds(steps: seq<Step>): nat {
    if steps == [] then 0 else (if steps[0].Add? then 1 else 0) + Adds(steps[1..])
  }

  predicate NoWaitCall(steps: seq<Step>) {
    forall i :: 0 <= i < |steps| ==> !steps[i].WaitCall?
  }

  lemma StepHistory(s: Pool, st: Step)
    requires Enabled(s, st)
    ensures var t := Next(s, st);
            && t.finished == s.finished + RanBy(s, st) && t.discarded == s.discarded + ThrownBy(s, st)
            && t.added == s.added + (if st.Add? then 1 else 0)
            && t.tokens == s.tokens + (if TakesToken(s, st) then 1 else 0)
            && t.pulled == s.pulled + |UnlinkedBy(s, st)|
            && (!st.WaitCall? ==> t.calledAt == s.calledAt)
  {
  }

  lemma StepLate(s: Pool, st: Step, w: nat)
    requires Enabled(s, st) && w < |s.latePulls|
    ensures |Next(s, st).latePulls| == |s.latePulls|
    ensures Next(s, st).latePulls[w] == s.latePulls[w] + if PullsLate(s, st, w) then 1 else 0
  {
  }

  /** The history fields grow by what happened. */
  lemma {:induction false} RunHistory(s: Pool, steps: seq<Step>, t: Pool)
    requires Run(s, steps, t)
    ensures t.finished == s.finished + Ran(s, steps) && t.discarded == s.discarded + Thrown(s, steps)
    ensures t.added == s.added + Adds(steps) && t.tokens == s.tokens + Tokens(s, steps)
    ensures NoWaitCall(steps) ==> t.calledAt == s.calledAt
    decreases steps
  {
    hide Next, Enabled, RanBy, ThrownBy;
    if steps != [] {
      var s1 := Next(s, steps[0]);
      StepHistory(s, steps[0]);
      RunHistory(s1, steps[1..], t);
      Associate(s.finished, RanBy(s, steps[0]), Ran(s1, steps[1..]));
      Associate(s.discarded, ThrownBy(s, steps[0]), Thrown(s1, steps[1..]));
    }
  }

  lemma {:induction false} RunLate(s: Pool, steps: seq<Step>, t: Pool, w: nat)
    requires Run(s, steps, t) && w < |s.latePulls|
    ensures |t.latePulls| == |s.latePulls| && t.latePulls[w] == s.latePulls[w] + LatePulls(s, steps, w)
    decreases steps
  {
    hide Next, Enabled, PullsLate;
    if steps != [] {
      StepLate(s, steps[0], w);
      RunLate(Next(s, steps[0]), steps[1..], t, w);
    }
  }

  lemma {:induction false} RunAppend(s: Pool, a: seq<Step>, t: Pool, b: seq<Step>, u: Pool)
    requires Run(s, a, t) && Run(t, b, u)
    ensures Run(s, a + b, u)
    decreases a
  {
    hide Next, Enabled;
    if a == [] {
      assert a + b == b;
    } else {
      RunAppend(Next(s, a[0]), a[1..], t, b, u);
      assert (a + b)[1..] == a[1..] + b;
    }
  }

  lemma RunOne(s: Pool, st: Step)
    requires Enabled(s, st)
    ensures Run(s, [st], Next(s, st))
  {
    assert [st][1..] == [];
    assert Run(Next(s, st), [], Next(s, st));
  }
}
