/** What happened in a run of the ring, read off its events, the actions of the engine and the ends of waits inside them,
    and the states they happened in.

    The history fields of a ring are shown to say the same, so that results can be stated of the run alone. */
module RingHistory {
  import opened Common
  import opened RingModel
  import opened RingInvariant
  import opened PollCounter

  // ---------------------------------------------------------------- what a run submitted

  /** What the client submitted in one turn, and how the DMA layer took it. */
  datatype Offer = Offer(contents: seq<byte>, size: nat, sub: Submission)

  function OfferOf(s: Ring, e: Event): seq<Offer>
    requires Allowed(s, e)
  {
    if e.SubmitBuffer? then [Offer(Take(s.buffers[s.held.value].data, e.size), e.size, e.sub)] else []
  }

  /** The offers of a run, in order, read off its events. */
  function Offers(s: Ring, es: seq<Event>): seq<Offer>
    decreases es
  {
    if es == [] || !Allowed(s, es[0]) then [] else OfferOf(s, es[0]) + Offers(Next(s, es[0]), es[1..])
  }

  /** The contents of the accepted ones. */
  function Kept(os: seq<Offer>): seq<seq<byte>> {
    if os == [] then [] else (if os[0].sub.Accepted? then [os[0].contents] else []) + Kept(os[1..])
  }

  /** Their sizes. */
  function KeptSizes(os: seq<Offer>): seq<nat> {
    if os == [] then [] else (if os[0].sub.Accepted? then [os[0].size] else []) + KeptSizes(os[1..])
  }

  /** Their turns, counted from `from`. */
  function KeptTurns(os: seq<Offer>, from: nat): seq<nat> {
    if os == [] then [] else (if os[0].sub.Accepted? then [from] else []) + KeptTurns(os[1..], from + 1)
  }

  predicate TurnsCount(s: Ring) { Turns(s) >= 0 && (s.held.Some? ==> LastTurn(s) == Turns(s)) }

  lemma StepOffers(s: Ring, e: Event)
    requires TurnsCount(s) && Allowed(s, e)
    ensures var t, o := Next(s, e), OfferOf(s, e);
            && TurnsCount(t) && Turns(t) == Turns(s) + |o|
            && t.sent == s.sent + Kept(o) && t.accepted == s.accepted + KeptTurns(o, Turns(s))
  {
  }

  lemma {:induction false} KeptAppend(os: seq<Offer>, ps: seq<Offer>)
    ensures Kept(os + ps) == Kept(os) + Kept(ps)
  {
    if os == [] {
      assert os + ps == ps;
    } else {
      assert (os + ps)[1..] == os[1..] + ps;
      KeptAppend(os[1..], ps);
      if os[0].sub.Accepted? { Associate([os[0].contents], Kept(os[1..]), Kept(ps)); }
    }
  }

  lemma {:induction false} KeptSizesAppend(os: seq<Offer>, ps: seq<Offer>)
    ensures KeptSizes(os + ps) == KeptSizes(os) + KeptSizes(ps)
  {
    if os == [] {
      assert os + ps == ps;
    } else {
      assert (os + ps)[1..] == os[1..] + ps;
      KeptSizesAppend(os[1..], ps);
      if os[0].sub.Accepted? { Associate([os[0].size], KeptSizes(os[1..]), KeptSizes(ps)); }
    }
  }

  lemma {:induction false} KeptTurnsAppend(os: seq<Offer>, ps: seq<Offer>, from: nat)
    ensures KeptTurns(os + ps, from) == KeptTurns(os, from) + KeptTurns(ps, from + |os|)
  {
    if os == [] {
      assert os + ps == ps;
    } else {
      assert (os + ps)[1..] == os[1..] + ps;
      KeptTurnsAppend(os[1..], ps, from + 1);
      if os[0].sub.Accepted? { Associate([from], KeptTurns(os[1..], from + 1), KeptTurns(ps, from + |os|)); }
    }
  }

  /** In every run, harmless or not, the accepted submissions are the accepted offers, in the turns they were made. */
  lemma {:induction false} RunOffers(s: Ring, es: seq<Event>, t: Ring)
    requires TurnsCount(s) && Run(s, es, t)
    ensures TurnsCount(t) && Turns(t) == Turns(s) + |Offers(s, es)|
    ensures t.sent == s.sent + Kept(Offers(s, es)) && t.accepted == s.accepted + KeptTurns(Offers(s, es), Turns(s))
    decreases es
  {
    hide Next, Allowed, OfferOf, Turns;
    if es != [] {
      StepOffers(s, es[0]);
      RunOffers(Next(s, es[0]), es[1..], t);
      KeptAppend(OfferOf(s, es[0]), Offers(Next(s, es[0]), es[1..]));
      KeptTurnsAppend(OfferOf(s, es[0]), Offers(Next(s, es[0]), es[1..]), Turns(s));
    }
  }

  /** An accepted offer is found under the number of accepted ones before it. */
  lemma {:induction false} KeptAt(os: seq<Offer>, from: nat, t: nat)
    requires t < |os| && os[t].sub.Accepted?
    ensures var a := |Kept(os[..t])|;
            && a < |KeptTurns(os, from)| && KeptTurns(os, from)[a] == from + t
            && a < |KeptSizes(os)| && KeptSizes(os)[a] == os[t].size
            && a < |Kept(os)| && Kept(os)[a] == os[t].contents
  {
    if t > 0 {
      KeptAt(os[1..], from + 1, t - 1);
      assert os[..t][1..] == os[1..][..t - 1];
    }
  }

  predicate NoRefusal(os: seq<Offer>) {
    forall t :: 0 <= t < |os| ==> os[t].sub.Accepted?
  }

  lemma {:induction false} AllKept(os: seq<Offer>, from: nat)
    requires NoRefusal(os)
    ensures |Kept(os)| == |os| == |KeptTurns(os, from)|
    ensures forall k | 0 <= k < |os| :: KeptTurns(os, from)[k] == from + k
  {
    if os != [] { AllKept(os[1..], from + 1); }
  }

  lemma {:induction false} SafeIsRun(s: Ring, es: seq<Event>, t: Ring)
    requires SafeRun(s, es, t)
    ensures Run(s, es, t)
    decreases es
  {
    if es != [] { SafeIsRun(Next(s, es[0]), es[1..], t); }
  }

  lemma {:induction false} SafeAppend(s: Ring, a: seq<Event>, t: Ring, b: seq<Event>, u: Ring)
    requires SafeRun(s, a, t) && SafeRun(t, b, u)
    ensures SafeRun(s, a + b, u)
    decreases a
  {
    hide Allowed, Harmless, Next;
    if a == [] {
      assert a + b == b;
    } else {
      assert (a + b)[1..] == a[1..] + b;
      SafeAppend(Next(s, a[0]), a[1..], t, b, u);
    }
  }

  /** The buffers handed out, read off the run. */
  function Gets(s: Ring, es: seq<Event>): seq<nat>
    decreases es
  {
    if es == [] || !Allowed(s, es[0]) then []
    else (if es[0].GetBuffer? && Get(s, es[0].w).1 then [s.cursor] else []) + Gets(Next(s, es[0]), es[1..])
  }

  lemma StepGets(s: Ring, e: Event)
    requires Allowed(s, e)
    ensures Next(s, e).handed == s.handed + if e.GetBuffer? && Get(s, e.w).1 then [s.cursor] else []
  {
  }

  lemma {:induction false} RunGets(s: Ring, es: seq<Event>, t: Ring)
    requires Run(s, es, t)
    ensures t.handed == s.handed + Gets(s, es)
    decreases es
  {
    hide Next, Allowed, Get;
    if es != [] {
      StepGets(s, es[0]);
      RunGets(Next(s, es[0]), es[1..], t);
    }
  }

  // ---------------------------------------------------------------- moments

  /** The engine or the interrupt line acts, or a wait for buffer i ends; and the state it does so in. */
  datatype Moment = Acts(at: Ring, e: EngineEvent) | Ends(at: Ring, i: nat, otherwise: Outcome)

  function EngineMoments(s: Ring, es: seq<EngineEvent>): seq<Moment>
    requires Sane(s)
    decreases es
  {
    if es == [] then [] else [Acts(s, es[0])] + EngineMoments(EngineStep(s, es[0]), es[1..])
  }

  function WaitMoments(s: Ring, i: nat, w: Wait): seq<Moment>
    requires Sane(s) && i < N(s)
  {
    EngineMoments(SetStatus(s, i, Busy), w.during) + [Ends(AtEnd(s, i, w), i, w.otherwise)]
  }

  function SyncStepMoments(s: Ring, i: nat, w: Wait): seq<Moment>
    requires Sane(s) && i < N(s)
  {
    if Idle(s, i) then [] else WaitMoments(s, i, w)
  }

  function SyncMoments(s: Ring, i: nat, waits: seq<Wait>): seq<Moment>
    requires Sane(s) && i <= N(s) == |waits|
    decreases N(s) - i
  {
    if i == N(s) then [] else SyncStepMoments(s, i, waits[i]) + SyncMoments(SyncStep(s, i, waits[i]), i + 1, waits)
  }

  function EventMoments(s: Ring, e: Event): seq<Moment>
    requires Allowed(s, e)
  {
    match e
    case Engine(ev) => [Acts(s, ev)]
    case GetBuffer(w) => SyncStepMoments(s, s.cursor, w)
    case Sync(waits) => SyncMoments(s, 0, waits)
    case _ => []
  }

  /** Everything the engine did and every wait that ended, in order, including what happened during waits. */
  function Moments(s: Ring, es: seq<Event>): seq<Moment>
    decreases es
  {
    if es == [] || !Allowed(s, es[0]) then [] else EventMoments(s, es[0]) + Moments(Next(s, es[0]), es[1..])
  }

  function Collect<T>(f: Moment -> seq<T>, ms: seq<Moment>): seq<T> {
    if ms == [] then [] else f(ms[0]) + Collect(f, ms[1..])
  }

  lemma {:induction false} CollectAppend<T>(f: Moment -> seq<T>, ms: seq<Moment>, ns: seq<Moment>)
    ensures Collect(f, ms + ns) == Collect(f, ms) + Collect(f, ns)
  {
    if ms == [] {
      assert ms + ns == ns;
    } else {
      assert (ms + ns)[1..] == ms[1..] + ns;
      CollectAppend(f, ms[1..], ns);
      Associate(f(ms[0]), Collect(f, ms[1..]), Collect(f, ns));
    }
  }

  lemma CollectOne<T>(f: Moment -> seq<T>, m: Moment)
    ensures Collect(f, [m]) == f(m)
  {
    assert [m][1..] == [];
    assert f(m) + [] == f(m);
  }

  /** The engine runs the oldest transfer. */
  predicate RunsTransfer(m: Moment) {
    m.Acts? && m.e.Execute? && m.at.pending != [] && m.at.pending[0].index < |m.at.buffers|
  }

  /** The packet the device receives: what is in memory at that moment. */
  function PacketOf(m: Moment): seq<seq<byte>> {
    if RunsTransfer(m) && m.at.direction.ToDevice? then
      [Take(m.at.buffers[m.at.pending[0].index].data, m.at.pending[0].length)]
    else []
  }

  /** The segment the device brings. */
  function SegmentOf(m: Moment): seq<seq<byte>> {
    if RunsTransfer(m) && m.at.direction.FromDevice? then [m.e.segment] else []
  }

  /** The wait that ends succeeds: its completion is there, or a signal ended it, and the transfer is complete. */
  predicate Succeeds(at: Ring, i: nat, otherwise: Outcome) {
    i < |at.done| && (at.done[i] > 0 || otherwise.Interrupted?) && Complete(at, i)
  }

  /** Interrupts and successful waits. */
  function PollOf(m: Moment): seq<PollEvent> {
    match m
    case Acts(_, e) => if e.Irq? then [Interrupt] else []
    case Ends(at, i, otherwise) => if Succeeds(at, i, otherwise) then [Reap] else []
  }

  /** The submission whose completion the wait that ends consumes. */
  function ReapOf(m: Moment): seq<nat> {
    if m.Ends? && m.i < |m.at.done| && m.i < |m.at.number| && m.at.done[m.i] > 0 && m.at.number[m.i] >= 0 then
      [m.at.number[m.i]]
    else []
  }

  /** Packets the device received, segments it brought, interrupts and successful waits, completions consumed. */
  function Packets(ms: seq<Moment>): seq<seq<byte>> { Collect(PacketOf, ms) }
  function Segments(ms: seq<Moment>): seq<seq<byte>> { Collect(SegmentOf, ms) }
  function Polls(ms: seq<Moment>): seq<PollEvent> { Collect(PollOf, ms) }
  function Reapings(ms: seq<Moment>): seq<nat> { Collect(ReapOf, ms) }

  /** The history fields of t are those of s, and what happened at the moments `ms`. */
  predicate Grown(s: Ring, t: Ring, ms: seq<Moment>) {
    && t.output == s.output + Packets(ms) && t.polls == s.polls + Polls(ms) && t.reaped == s.reaped + Reapings(ms)
    && |t.arrived| == |s.arrived| + |Segments(ms)|
  }

  lemma GrownNone(s: Ring, t: Ring)
    requires t.output == s.output && t.polls == s.polls && t.reaped == s.reaped && t.arrived == s.arrived
    ensures Grown(s, t, [])
  {
  }

  lemma GrownOne(s: Ring, t: Ring, m: Moment)
    requires t.output == s.output + PacketOf(m) && t.polls == s.polls + PollOf(m) && t.reaped == s.reaped + ReapOf(m)
    requires |t.arrived| == |s.arrived| + |SegmentOf(m)|
    ensures Grown(s, t, [m])
  {
    hide PacketOf, PollOf, ReapOf, SegmentOf;
    CollectOne(PacketOf, m);
    CollectOne(PollOf, m);
    CollectOne(ReapOf, m);
    CollectOne(SegmentOf, m);
  }

  lemma GrownMore(s: Ring, t: Ring, u: Ring, ms: seq<Moment>, ns: seq<Moment>)
    requires Grown(s, t, ms) && Grown(t, u, ns)
    ensures Grown(s, u, ms + ns)
  {
    CollectAppend(PacketOf, ms, ns);
    CollectAppend(PollOf, ms, ns);
    CollectAppend(ReapOf, ms, ns);
    CollectAppend(SegmentOf, ms, ns);
    Associate(s.output, Packets(ms), Packets(ns));
    Associate(s.polls, Polls(ms), Polls(ns));
    Associate(s.reaped, Reapings(ms), Reapings(ns));
  }

  lemma EngineStepGrown(s: Ring, e: EngineEvent)
    requires Sane(s)
    ensures Grown(s, EngineStep(s, e), [Acts(s, e)])
  {
    EngineStepAdds(s, e);
    GrownOne(s, EngineStep(s, e), Acts(s, e));
  }

  lemma EngineStepAdds(s: Ring, e: EngineEvent)
    requires Sane(s)
    ensures var t, m := EngineStep(s, e), Acts(s, e);
            && t.output == s.output + PacketOf(m) && t.polls == s.polls + PollOf(m) && t.reaped == s.reaped + ReapOf(m)
            && |t.arrived| == |s.arrived| + |SegmentOf(m)|
  {
  }

  lemma {:induction false} EngineRunGrown(s: Ring, es: seq<EngineEvent>)
    requires Sane(s)
    ensures Grown(s, EngineRun(s, es), EngineMoments(s, es))
    decreases es
  {
    hide Grown, EngineStep;
    if es == [] {
      GrownNone(s, s);
    } else {
      EngineStepGrown(s, es[0]);
      EngineRunGrown(EngineStep(s, es[0]), es[1..]);
      GrownMore(s, EngineStep(s, es[0]), EngineRun(s, es), [Acts(s, es[0])], EngineMoments(EngineStep(s, es[0]), es[1..]));
    }
  }

  lemma SettleAdds(s: Ring, i: nat, o: Outcome)
    requires Sane(s) && i < N(s)
    ensures var t, m := Settle(s, i, o), Ends(s, i, o);
            && t.output == s.output + PacketOf(m) && t.polls == s.polls + PollOf(m) && t.reaped == s.reaped + ReapOf(m)
            && |t.arrived| == |s.arrived| + |SegmentOf(m)|
  {
    if s.done[i] > 0 { assert Complete(Consume(s, i), i) <==> Complete(s, i); }
  }

  lemma SyncStepGrown(s: Ring, i: nat, w: Wait)
    requires Sane(s) && i < N(s)
    ensures Grown(s, SyncStep(s, i, w), SyncStepMoments(s, i, w))
  {
    hide Grown;
    if Idle(s, i) {
      GrownNone(s, s);
    } else {
      var busy, e := SetStatus(s, i, Busy), AtEnd(s, i, w);
      GrownNone(s, busy);
      EngineRunGrown(busy, w.during);
      GrownMore(s, busy, e, [], EngineMoments(busy, w.during));
      SettleAdds(e, i, w.otherwise);
      GrownOne(e, Settle(e, i, w.otherwise), Ends(e, i, w.otherwise));
      assert [] + EngineMoments(busy, w.during) == EngineMoments(busy, w.during);
      GrownMore(s, e, Settle(e, i, w.otherwise), EngineMoments(busy, w.during), [Ends(e, i, w.otherwise)]);
    }
  }

  lemma {:induction false} SyncGrown(s: Ring, i: nat, waits: seq<Wait>)
    requires Sane(s) && i <= N(s) == |waits|
    ensures Grown(s, SyncFrom(s, i, waits), SyncMoments(s, i, waits))
    decreases N(s) - i
  {
    hide Grown, SyncStep, SyncStepMoments;
    if i == N(s) {
      GrownNone(s, s);
    } else {
      var t := SyncStep(s, i, waits[i]);
      SyncStepGrown(s, i, waits[i]);
      SyncGrown(t, i + 1, waits);
      GrownMore(s, t, SyncFrom(s, i, waits), SyncStepMoments(s, i, waits[i]), SyncMoments(t, i + 1, waits));
    }
  }

  lemma GetGrown(s: Ring, w: Wait)
    requires Sane(s) && s.cursor < N(s)
    ensures Grown(s, Get(s, w).0, SyncStepMoments(s, s.cursor, w))
  {
    SyncStepGrown(s, s.cursor, w);
  }

  lemma EventGrown(s: Ring, e: Event)
    requires Allowed(s, e)
    ensures Grown(s, Next(s, e), EventMoments(s, e))
  {
    match e
    case Engine(ev) => EngineStepGrown(s, ev);
    case GetBuffer(w) => GetGrown(s, w);
    case Sync(waits) => SyncGrown(s, 0, waits);
    case FillBuffer(_, _) => GrownNone(s, Next(s, e));
    case SubmitBuffer(_, _) => GrownNone(s, Next(s, e));
  }

  /** In every run, harmless or not, the history fields are what happened. */
  lemma {:induction false} RunGrown(s: Ring, es: seq<Event>, t: Ring)
    requires Run(s, es, t)
    ensures Grown(s, t, Moments(s, es))
    decreases es
  {
    hide Grown, Next, Allowed, EventMoments;
    if es == [] {
      GrownNone(s, s);
    } else {
      var s1 := Next(s, es[0]);
      EventGrown(s, es[0]);
      RunGrown(s1, es[1..], t);
      GrownMore(s, s1, t, EventMoments(s, es[0]), Moments(s1, es[1..]));
    }
  }

  /** The poll counter: an interrupt adds one; a wait takes one off, if there is one, exactly when it succeeds. */
  lemma CounterMoves(s: Ring, i: nat, w: Wait)
    requires Sane(s) && i < N(s)
    ensures EngineStep(s, Irq).waitCount == s.waitCount + 1
    ensures forall e: EngineEvent | !e.Irq? :: EngineStep(s, e).waitCount == s.waitCount
    ensures var c := AtEnd(s, i, w).waitCount;
            WaitFor(s, i, w).waitCount == if Succeeds(AtEnd(s, i, w), i, w.otherwise) && c > 0 then c - 1 else c
  {
    var e := AtEnd(s, i, w);
    if e.done[i] > 0 { assert Complete(Consume(e, i), i) <==> Complete(e, i); }
  }
}
