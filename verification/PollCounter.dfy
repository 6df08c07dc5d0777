/** The counter that drives poll (driver/stream_dma/streamio-drv.c): interrupts raise it, successful waits lower it
    unless it is zero. */
module PollCounter {
  datatype PollEvent = Interrupt | Reap

  function Bump(count: nat, e: PollEvent): nat {
    if e.Interrupt? then count + 1 else if count > 0 then count - 1 else 0
  }

  /** The counter after these events, in order. */
  function Count(es: seq<PollEvent>): nat {
    if es == [] then 0 else Bump(Count(es[..|es| - 1]), es[|es| - 1])
  }

  /** Interrupts minus successful waits. */
  function Balance(es: seq<PollEvent>): int {
    if es == [] then 0 else Balance(es[..|es| - 1]) + if es[|es| - 1].Interrupt? then 1 else -1
  }

  lemma CountSnoc(es: seq<PollEvent>, e: PollEvent)
    ensures Count(es + [e]) == Bump(Count(es), e)
  {
    assert (es + [e])[..|es|] == es;
  }

  /** `k` starts a suffix with the largest surplus of interrupts. */
  predicate Peak(es: seq<PollEvent>, k: nat) {
    k <= |es| && Balance(es[k..]) == Count(es)
  }

  /** The counter is the maximum, over all suffixes of the history including the empty one, of interrupts minus
      successful waits. */
  lemma {:induction false} CountIsMaxSuffix(es: seq<PollEvent>) returns (peak: nat)
    ensures forall k | 0 <= k <= |es| :: Balance(es[k..]) <= Count(es)
    ensures Peak(es, peak)
  {
    if es == [] {
      peak := 0;
    } else {
      var p, e := es[..|es| - 1], es[|es| - 1];
      peak := CountIsMaxSuffix(p);
      forall k | 0 <= k < |es| ensures Balance(es[k..]) == Balance(p[k..]) + if e.Interrupt? then 1 else -1 {
        assert es[k..][..|es| - k - 1] == p[k..];
      }
      if Balance(es[peak..]) != Count(es) {
        peak := |es|;
        assert es[peak..] == [];
      }
    }
  }

  /** Poll reports data exactly when some stretch of history up to now has more interrupts than reaped transfers. */
  lemma PositiveMeansSurplus(es: seq<PollEvent>)
    ensures Count(es) > 0 <==> exists k :: 0 <= k <= |es| && Balance(es[k..]) > 0
  {
    var peak := CountIsMaxSuffix(es);
    assert Peak(es, peak);
  }
}
