/** Counting workers: totals of a per-phase score over all workers, and how a step changes them. */
module PoolGauge {
  import opened PoolModel

  datatype Gauge =
    | Busy      // counted in num_threads_working
    | Living    // counted in num_threads_alive
    | Carrying  // between taking a token and giving the next post, or about to pull
    | AtPost    // holds the queue mutex, about to post
    | Asleep
    | Roused
    | Outer     // has not taken a token since it was last at the loop condition
    | Rank      // steps left before the worker sleeps, weighted

  function Score(g: Gauge, p: Phase): nat {
    match g
    case Busy => if p.Pulling? || p.Posting? || p.Running? || p.Finishing? then 1 else 0
    case Living => if p.Gone? then 0 else 1
    case Carrying => if p.Token? || p.Counting? || p.Pulling? || p.Posting? then 1 else 0
    case AtPost => if p.Posting? then 1 else 0
    case Asleep => if p.Sleeping? then 1 else 0
    case Roused => if p.Woken? then 1 else 0
    case Outer => if p.Waiting? || p.Sleeping? || p.Woken? then 1 else 0
    case Rank =>
      match p
      case Head => 24
      case Waiting => 16
      case Sleeping => 0
      case Woken => 8
      case Token => 72
      case Counting => 64
      case Pulling => 56
      case Posting(_) => 48
      case Running(_) => 40
      case Finishing => 32
      case Leaving => 8
      case Gone => 0
  }

  function Total(g: Gauge, ts: seq<Phase>): nat {
    if ts == [] then 0 else Score(g, ts[0]) + Total(g, ts[1..])
  }

  lemma {:induction false} TotalMove(g: Gauge, ts: seq<Phase>, w: nat, p: Phase)
    requires w < |ts|
    ensures Total(g, ts[w := p]) == Total(g, ts) - Score(g, ts[w]) + Score(g, p)
  {
    if w == 0 {
      assert ts[w := p][1..] == ts[1..];
    } else {
      TotalMove(g, ts[1..], w - 1, p);
      assert ts[w := p][1..] == ts[1..][w - 1 := p];
    }
  }

  lemma {:induction false} TotalAtLeast(g: Gauge, ts: seq<Phase>, w: nat)
    requires w < |ts|
    ensures Total(g, ts) >= Score(g, ts[w])
  {
    if w > 0 { TotalAtLeast(g, ts[1..], w - 1); }
  }

  lemma {:induction false} TotalZero(g: Gauge, ts: seq<Phase>)
    ensures Total(g, ts) == 0 <==> forall i | 0 <= i < |ts| :: Score(g, ts[i]) == 0
  {
    if ts != [] {
      TotalZero(g, ts[1..]);
      assert forall i | 0 <= i < |ts[1..]| :: ts[1..][i] == ts[i + 1];
      assert forall i | 0 < i < |ts| :: ts[i] == ts[1..][i - 1];
    }
  }

  /** A gauge that scores sleepers and woken workers alike does not notice a wake-up. */
  lemma {:induction false} TotalWake(g: Gauge, ts: seq<Phase>, us: seq<Phase>)
    requires |ts| == |us|
    requires forall i | 0 <= i < |ts| :: us[i] == ts[i] || (ts[i].Sleeping? && us[i].Woken?)
    requires Score(g, Sleeping) == Score(g, Woken)
    ensures Total(g, us) == Total(g, ts)
  {
    if ts != [] { TotalWake(g, ts[1..], us[1..]); }
  }

  /** A wake-up adds at most 8 to the rank of each worker. */
  lemma {:induction false} RankWake(ts: seq<Phase>, us: seq<Phase>)
    requires |ts| == |us|
    requires forall i | 0 <= i < |ts| :: us[i] == ts[i] || (ts[i].Sleeping? && us[i].Woken?)
    ensures Total(Rank, us) <= Total(Rank, ts) + 8 * |ts|
  {
    if ts != [] { RankWake(ts[1..], us[1..]); }
  }

  lemma {:induction false} TotalInit(g: Gauge, n: nat)
    ensures Total(g, seq(n, i => Head)) == n * Score(g, Head)
  {
    if n > 0 {
      TotalInit(g, n - 1);
      assert seq(n, i => Head)[1..] == seq(n - 1, i => Head);
      assert n * Score(g, Head) == (n - 1) * Score(g, Head) + Score(g, Head);
    }
  }
}
