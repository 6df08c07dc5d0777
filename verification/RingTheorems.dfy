/** What the DMA ring promises its client: in-place asynchronous transfers look like a FIFO of copied packets
    (towards the device) and like a delay line of N turns (from the device). */
module RingTheorems {
  import opened Common
  import opened RingModel
  import opened RingInvariant
  import opened RingHistory
  import opened PollCounter

  /** What the engine would send for its j-th queued transfer if it ran now. */
  function Queued(s: Ring, j: nat): seq<byte>
    requires j < |s.pending| && s.pending[j].index < N(s)
  {
    Take(s.buffers[s.pending[j].index].data, s.pending[j].length)
  }

  /** Sent packets and queued buffers are the submitted contents, in order. */
  predicate TxOk(s: Ring)
    requires Shape(s) && Arc(s)
  {
    && |s.output| == Executed(s)
    && (forall j :: 0 <= j < |s.output| ==> s.output[j] == s.sent[j])
    && (forall j :: 0 <= j < |s.pending| ==> Queued(s, j) == s.sent[Executed(s) + j])
  }

  /** Until the turn N later is over, a buffer holds what the client left in it, overwritten by segment k, unless the next
      holder has written to it. */
  predicate Stored(s: Ring, k: nat)
    requires N(s) > 0 && k < |s.accepted| == |s.sent|
  {
    k < |s.arrived| && s.accepted[k] + N(s) >= Turns(s) && !(s.touched && s.held == Some(Home(s, k))) ==>
      |s.arrived[k]| <= |s.sent[k]| && Overlay(s.sent[k], 0, s.arrived[k]) <= s.buffers[Home(s, k)].data
  }

  predicate RxOk(s: Ring)
    requires Shape(s) && Arc(s)
  {
    && |s.arrived| == Executed(s)
    && (forall k: nat :: k < |s.arrived| ==> Stored(s, k))
    && (forall j :: 0 <= j < |s.pending| ==> Queued(s, j) == s.sent[Executed(s) + j])
  }

  ghost predicate Good(s: Ring) {
    && RingOk(s)
    && (s.touched ==> s.held.Some?)
    && (if s.direction.ToDevice? then TxOk(s) else RxOk(s))
  }

  /** Statuses, completions and counters are not data. */
  lemma DataFrame(s: Ring, t: Ring)
    requires Good(s) && RingOk(t) && N(t) == N(s)
    requires forall i | 0 <= i < N(s) :: t.buffers[i].data == s.buffers[i].data
    requires t.direction == s.direction && t.pending == s.pending && |t.sent| == |s.sent| && t.sent == s.sent
    requires t.output == s.output && t.arrived == s.arrived && t.accepted == s.accepted && Turns(t) == Turns(s)
    requires (t.held == s.held && t.touched == s.touched) || (s.held.None? && !t.touched)
    ensures Good(t)
  {
    hide Slot, Slots, Cursor, Reaps, Overlay;
    forall j | 0 <= j < |t.pending| ensures Queued(t, j) == t.sent[Executed(t) + j] {
      assert Queued(s, j) == s.sent[Executed(s) + j];
    }
    if s.direction.FromDevice? {
      forall k: nat | k < |t.arrived| ensures Stored(t, k) {
        assert Stored(s, k);
        assert Home(t, k) == Home(s, k);
      }
    }
  }

  lemma ExecuteTx(s: Ring, segment: seq<byte>)
    requires Good(s) && s.direction.ToDevice? && s.pending != [] && RingOk(ExecuteOf(s, segment))
    ensures Good(ExecuteOf(s, segment))
  {
    hide Slot, Slots, Cursor, Reaps;
    var t := ExecuteOf(s, segment);
    assert Queued(s, 0) == s.sent[Executed(s)];
    forall j | 0 <= j < |t.pending| ensures Queued(t, j) == t.sent[Executed(t) + j] {
      assert Queued(s, j + 1) == s.sent[Executed(s) + (j + 1)];
    }
  }

  lemma OverlayPrefix(front: seq<byte>, data: seq<byte>, part: seq<byte>)
    requires |part| <= |front| && front <= data
    ensures Overlay(front, 0, part) <= Overlay(data, 0, part)
  {
  }

  /** What runs is in a buffer of its own. */
  lemma OthersQueued(s: Ring, j: nat)
    requires RingOk(s) && 0 < j < |s.pending|
    ensures s.pending[j].index != s.pending[0].index
  {
    hide Slot;
    assert s.pending[0].index == Home(s, Executed(s) + 0) && s.pending[j].index == Home(s, Executed(s) + j);
    FlightIsRecent(s, Executed(s));
    FlightIsRecent(s, Executed(s) + j);
  }

  /** Two accepted submissions within N turns of the present have different buffers. */
  lemma RecentHomesDiffer(s: Ring, k: nat, e: nat)
    requires Shape(s) && Cursor(s) && k < |s.accepted| && e < |s.accepted| && k != e
    requires s.accepted[k] + N(s) >= Turns(s) && s.accepted[e] + N(s) >= Turns(s)
    ensures Home(s, k) != Home(s, e)
  {
    if k < e {
      SlotInjective(s.accepted[k], s.accepted[e], N(s));
    } else {
      SlotInjective(s.accepted[e], s.accepted[k], N(s));
    }
  }

  /** A transfer in flight was submitted within the last N turns, and its buffer is busy. */
  lemma FlightIsRecent(s: Ring, k: nat)
    requires RingOk(s) && Fired(s) <= k < |s.sent|
    ensures !Idle(s, Home(s, k)) && s.number[Home(s, k)] == k && s.accepted[k] + N(s) >= |s.handed|
  {
    assert SlotOk(s, Home(s, k));
  }

  lemma ExecuteRx(s: Ring, segment: seq<byte>)
    requires Good(s) && s.direction.FromDevice? && s.pending != [] && RingOk(ExecuteOf(s, segment))
    ensures Good(ExecuteOf(s, segment))
  {
    hide Slot, Slots, Reaps, Overlay;
    var t := ExecuteOf(s, segment);
    forall k: nat | k < |t.arrived| ensures Stored(t, k) { ExecuteStores(s, segment, k); }
    forall j | 0 <= j < |t.pending| ensures Queued(t, j) == t.sent[Executed(t) + j] {
      assert Queued(s, j + 1) == s.sent[Executed(s) + (j + 1)];
      OthersQueued(s, j + 1);
    }
  }

  lemma ExecuteStores(s: Ring, segment: seq<byte>, k: nat)
    requires Good(s) && s.direction.FromDevice? && s.pending != [] && Sane(s) && k <= |s.arrived|
    ensures Stored(ExecuteOf(s, segment), k)
  {
    hide Slot, Slots, Reaps, Overlay;
    var t := ExecuteOf(s, segment);
    var e, x := Executed(s), s.pending[0];
    assert x.index == Home(s, e + 0) && Queued(s, 0) == s.sent[e + 0];
    FlightIsRecent(s, e);
    assert Home(t, k) == Home(s, k);
    if k == e {
      OverlayPrefix(s.sent[e], s.buffers[x.index].data, t.arrived[e]);
    } else {
      assert Stored(s, k);
      if s.accepted[k] + N(s) >= Turns(s) { RecentHomesDiffer(s, k, e); }
    }
  }

  lemma EngineStepGood(s: Ring, e: EngineEvent)
    requires Good(s)
    ensures Good(EngineStep(s, e))
  {
    hide Shape, Arc, Slots, Cursor, Reaps, TxOk, RxOk;
    ArcIsSane(s);
    EngineStepOk(s, e);
    if e.Execute? && s.pending != [] {
      if s.direction.ToDevice? { ExecuteTx(s, e.segment); } else { ExecuteRx(s, e.segment); }
    } else {
      DataFrame(s, EngineStep(s, e));
    }
  }

  lemma {:induction false} EngineRunGood(s: Ring, es: seq<EngineEvent>)
    requires Good(s)
    ensures Good(EngineRun(s, es))
    decreases es
  {
    if es != [] {
      EngineStepGood(s, es[0]);
      EngineRunGood(EngineStep(s, es[0]), es[1..]);
    }
  }

  lemma AtEndGood(s: Ring, i: nat, w: Wait)
    requires Good(s) && i < N(s) && !Idle(s, i)
    ensures Good(AtEnd(s, i, w))
  {
    hide Shape, Arc, Slots, Cursor, Reaps, TxOk, RxOk;
    BusyOk(s, i, Busy);
    DataFrame(s, SetStatus(s, i, Busy));
    EngineRunGood(SetStatus(s, i, Busy), w.during);
  }

  lemma SettleData(s: Ring, i: nat, o: Outcome)
    requires Sane(s) && i < N(s)
    ensures var t := Settle(s, i, o);
            && N(t) == N(s) && (forall k | 0 <= k < N(s) :: t.buffers[k].data == s.buffers[k].data)
            && t.direction == s.direction && t.pending == s.pending && t.output == s.output && t.arrived == s.arrived
  {
    hide Complete, Sane, Polled;
  }

  lemma WaitGood(s: Ring, i: nat, w: Wait)
    requires Good(s) && i < N(s) && !Idle(s, i) && HarmlessWait(s, i, w)
    ensures Good(WaitFor(s, i, w)) && SameHold(s, WaitFor(s, i, w))
  {
    hide Shape, Arc, Slots, Cursor, Reaps, TxOk, RxOk;
    ArcIsSane(s);
    WaitOk(s, i, w);
    AtEndGood(s, i, w);
    SettleData(AtEnd(s, i, w), i, w.otherwise);
    DataFrame(AtEnd(s, i, w), WaitFor(s, i, w));
  }

  lemma GetGood(s: Ring, w: Wait)
    requires Good(s) && s.held.None? && Sane(s) && s.cursor < N(s) && HarmlessGet(s, w)
    ensures Good(Get(s, w).0)
  {
    hide Shape, Arc, Slots, Cursor, Reaps, TxOk, RxOk, Got;
    GetOk(s, w);
    if Idle(s, s.cursor) {
      DataFrame(s, Get(s, w).0);
    } else {
      WaitGood(s, s.cursor, w);
      DataFrame(WaitFor(s, s.cursor, w), Get(s, w).0);
    }
  }

  lemma FillGood(s: Ring, at: nat, part: seq<byte>)
    requires Good(s) && s.held.Some?
    ensures Good(Fill(s, at, part))
  {
    hide Slot, Slots, Cursor, Reaps, Overlay;
    HeldIsIdle(s);
    var t := Fill(s, at, part);
    FillOk(s, at, part);
    forall j | 0 <= j < |t.pending| ensures Queued(t, j) == t.sent[Executed(t) + j] {
      assert Queued(s, j) == s.sent[Executed(s) + j];
    }
    if s.direction.FromDevice? {
      forall k: nat | k < |t.arrived| ensures Stored(t, k) {
        assert Stored(s, k);
        assert Home(t, k) == Home(s, k);
      }
    }
  }

  /** Nothing stored within N turns of the one that ends is in the buffer it gives up. */
  lemma HeldIsOld(s: Ring, k: nat)
    requires RingOk(s) && s.held.Some? && k < |s.accepted| && s.accepted[k] + N(s) > Turns(s)
    ensures Home(s, k) != s.held.value
  {
    SlotInjective(s.accepted[k], Turns(s), N(s));
  }

  lemma SubmitRx(s: Ring, size: nat, sub: Submission)
    requires Good(s) && s.held.Some? && s.direction.FromDevice? && RingOk(Submit(s, size, sub))
    ensures Good(Submit(s, size, sub))
  {
    hide Slot, Slots, Cursor, Reaps, Overlay;
    HeldIsIdle(s);
    var t := Submit(s, size, sub);
    assert Turns(t) == Turns(s) + 1;
    SubmitQueued(s, size, sub);
    forall k: nat | k < |t.arrived| ensures Stored(t, k) {
      assert Stored(s, k);
      assert Home(t, k) == Home(s, k) && t.accepted[k] == s.accepted[k];
      if s.accepted[k] + N(s) > Turns(s) { HeldIsOld(s, k); }
    }
  }

  lemma SubmitQueued(s: Ring, size: nat, sub: Submission)
    requires RingOk(s) && s.held.Some? && Sane(s) && s.held.value < N(s)
    requires forall j :: 0 <= j < |s.pending| ==> Queued(s, j) == s.sent[Executed(s) + j]
    requires RingOk(Submit(s, size, sub))
    ensures var t := Submit(s, size, sub);
            forall j :: 0 <= j < |t.pending| ==> Queued(t, j) == t.sent[Executed(t) + j]
  {
    hide Slot, Slots, Cursor, Reaps;
    HeldIsIdle(s);
    var t := Submit(s, size, sub);
    forall j | 0 <= j < |t.pending| ensures Queued(t, j) == t.sent[Executed(t) + j] {
      if j < |s.pending| { assert Queued(s, j) == s.sent[Executed(s) + j]; }
    }
  }

  lemma SubmitTx(s: Ring, size: nat, sub: Submission)
    requires Good(s) && s.held.Some? && s.direction.ToDevice? && RingOk(Submit(s, size, sub))
    ensures Good(Submit(s, size, sub))
  {
    hide Slot, Slots, Cursor, Reaps, Take;
    HeldIsIdle(s);
    SubmitQueued(s, size, sub);
  }

  lemma SubmitGood(s: Ring, size: nat, sub: Submission)
    requires Good(s) && s.held.Some?
    ensures Good(Submit(s, size, sub))
  {
    SubmitOk(s, size, sub);
    if s.direction.FromDevice? { SubmitRx(s, size, sub); } else { SubmitTx(s, size, sub); }
  }

  lemma SyncStepGood(s: Ring, i: nat, w: Wait)
    requires Good(s) && i < N(s) && HarmlessWait(s, i, w)
    ensures Good(SyncStep(s, i, w)) && N(SyncStep(s, i, w)) == N(s)
  {
    if !Idle(s, i) { WaitGood(s, i, w); }
  }

  lemma {:induction false} SyncGood(s: Ring, i: nat, waits: seq<Wait>)
    requires Good(s) && Sane(s) && i <= N(s) == |waits| && HarmlessSync(s, i, waits)
    ensures Good(SyncFrom(s, i, waits))
    decreases N(s) - i
  {
    hide Good, SyncStep, HarmlessWait;
    if i < N(s) {
      SyncStepGood(s, i, waits[i]);
      SyncGood(SyncStep(s, i, waits[i]), i + 1, waits);
    }
  }

  lemma NextGood(s: Ring, e: Event)
    requires Good(s) && Allowed(s, e) && Harmless(s, e)
    ensures Good(Next(s, e))
  {
    match e
    case Engine(ev) => EngineStepGood(s, ev);
    case GetBuffer(w) => GetGood(s, w);
    case FillBuffer(at, part) => FillGood(s, at, part);
    case SubmitBuffer(size, sub) => SubmitGood(s, size, sub);
    case Sync(waits) => SyncGood(s, 0, waits);
  }

  lemma {:induction false} RunGood(s: Ring, es: seq<Event>, t: Ring)
    requires Good(s) && SafeRun(s, es, t)
    ensures Good(t)
    decreases es
  {
    hide Good;
    if es != [] {
      NextGood(s, es[0]);
      RunGood(Next(s, es[0]), es[1..], t);
    }
  }

  lemma InitGood(direction: Direction, n: nat, data: seq<seq<byte>>)
    requires n > 0 && |data| == n
    ensures Good(Init(direction, n, data))
  {
    InitOk(direction, n, data);
  }

  /** What holds of every safe run from the start. */
  lemma FromStart(direction: Direction, n: nat, data: seq<seq<byte>>, es: seq<Event>, s: Ring)
    requires n > 0 && |data| == n && SafeRun(Init(direction, n, data), es, s)
    ensures Good(s) && RingOk(s) && N(s) == n && s.direction == direction && Sane(s) && s.cursor < n
    ensures var os := Offers(Init(direction, n, data), es);
            s.sent == Kept(os) && s.accepted == KeptTurns(os, 0) && Turns(s) == |os|
    ensures var ms := Moments(Init(direction, n, data), es);
            s.output == Packets(ms) && s.reaped == Reapings(ms) && s.handed == Gets(Init(direction, n, data), es)
  {
    hide Offers, Kept, KeptTurns, Good, Shape, Arc, Slots, Reaps, Moments, Gets, Packets, Reapings, Polls, Segments;
    var s0 := Init(direction, n, data);
    InitGood(direction, n, data);
    RunGood(s0, es, s);
    GoodIsSane(s);
    SafeIsRun(s0, es, s);
    RunFrame(s0, es, s);
    RunOffers(s0, es, s);
    RunGrown(s0, es, s);
    RunGets(s0, es, s);
  }

  lemma GoodIsSane(s: Ring)
    requires Good(s)
    ensures RingOk(s) && Sane(s) && s.cursor < N(s)
  {
    ArcIsSane(s);
  }

  // ---------------------------------------------------------------- towards the device

  /** The contents the engine has yet to send. */
  function InFlight(s: Ring): seq<seq<byte>>
    requires Sane(s)
  {
    seq(|s.pending|, j requires 0 <= j < |s.pending| => Queued(s, j))
  }

  /** Refinement of a FIFO of copied packets: although the engine reads memory only when it runs a transfer, what the device
      has received followed by what the engine would send is the list of contents submitted, as they stood at submission,
      in order.  Only the packets that the DMA layer refused are missing. */
  lemma TxRefinesFifo(n: nat, data: seq<seq<byte>>, es: seq<Event>, s: Ring)
    requires n > 0 && |data| == n && SafeRun(Init(ToDevice, n, data), es, s)
    ensures Sane(s)
    ensures Packets(Moments(Init(ToDevice, n, data), es)) + InFlight(s) == Kept(Offers(Init(ToDevice, n, data), es))
  {
    hide Offers, Kept, Moments, Packets, InFlight, Good;
    FromStart(ToDevice, n, data, es, s);
    TxSplit(s);
  }

  lemma TxSplit(s: Ring)
    requires Good(s) && s.direction.ToDevice?
    ensures Sane(s) && s.output + InFlight(s) == s.sent
  {
    ArcIsSane(s);
    forall j | 0 <= j < |s.sent| ensures (s.output + InFlight(s))[j] == s.sent[j] {
      if j >= |s.output| { assert Queued(s, j - |s.output|) == s.sent[Executed(s) + (j - |s.output|)]; }
    }
  }

  lemma {:induction false} RunFrame(s: Ring, es: seq<Event>, t: Ring)
    requires Run(s, es, t)
    ensures N(t) == N(s) && t.direction == s.direction && (Polled(s) ==> Polled(t))
    decreases es
  {
    if es != [] { RunFrame(Next(s, es[0]), es[1..], t); }
  }

  // ---------------------------------------------------------------- from the device

  /** What a transfer of `size` bytes into a buffer with room for `room` stores of a segment. */
  function Cut(segment: seq<byte>, size: nat, room: nat): seq<byte> {
    Take(Take(segment, size), room)
  }

  /** The k-th segment stored is the k-th the device brought, cut to the size of the k-th accepted submission. */
  predicate CutOk(s: Ring, segments: seq<seq<byte>>, sizes: seq<nat>)
    requires Shape(s) && Arc(s)
  {
    && |segments| == |s.arrived| && |s.arrived| == Executed(s) && |sizes| == |s.sent|
    && (forall j :: 0 <= j < |s.pending| ==> s.pending[j].length == sizes[Executed(s) + j])
    && (forall k: nat :: k < |s.arrived| ==> s.arrived[k] == Cut(segments[k], sizes[k], |s.buffers[Home(s, k)].data|))
  }

  predicate SameRoom(s: Ring, t: Ring) {
    N(t) == N(s) && forall i :: 0 <= i < N(s) ==> |t.buffers[i].data| == |s.buffers[i].data|
  }

  lemma CutFrame(s: Ring, t: Ring, segments: seq<seq<byte>>, sizes: seq<nat>)
    requires Shape(s) && Arc(s) && CutOk(s, segments, sizes) && Shape(t) && Arc(t) && SameRoom(s, t)
    requires t.pending == s.pending && |t.sent| == |s.sent| && t.accepted == s.accepted && t.arrived == s.arrived
    ensures CutOk(t, segments, sizes)
  {
    hide Slot, Cut;
    forall k: nat | k < |t.arrived| ensures Home(t, k) == Home(s, k) { }
  }

  lemma ExecuteCut(s: Ring, segment: seq<byte>, segments: seq<seq<byte>>, sizes: seq<nat>)
    requires Good(s) && s.direction.FromDevice? && s.pending != [] && Sane(s) && CutOk(s, segments, sizes)
    requires Good(ExecuteOf(s, segment))
    ensures CutOk(ExecuteOf(s, segment), segments + [segment], sizes)
  {
    hide Slot, Slots, Cursor, Reaps, Overlay;
    var t, x := ExecuteOf(s, segment), s.pending[0];
    assert x.length == sizes[Executed(s) + 0] && x.index == Home(s, Executed(s) + 0);
    forall j | 0 <= j < |t.pending| ensures t.pending[j].length == sizes[Executed(t) + j] {
      assert s.pending[j + 1].length == sizes[Executed(s) + (j + 1)];
    }
    forall k: nat | k < |t.arrived|
      ensures t.arrived[k] == Cut((segments + [segment])[k], sizes[k], |t.buffers[Home(t, k)].data|)
    {
      assert Home(t, k) == Home(s, k);
    }
  }

  lemma EngineStepCut(s: Ring, e: EngineEvent, segments: seq<seq<byte>>, sizes: seq<nat>)
    requires Good(s) && s.direction.FromDevice? && Sane(s) && CutOk(s, segments, sizes)
    ensures Good(EngineStep(s, e)) && CutOk(EngineStep(s, e), segments + SegmentOf(Acts(s, e)), sizes)
    ensures SameRoom(s, EngineStep(s, e))
  {
    hide Slot, Slots, Cursor, Reaps, Cut, TxOk, RxOk;
    EngineStepGood(s, e);
    if e.Execute? && s.pending != [] {
      ExecuteCut(s, e.segment, segments, sizes);
    } else {
      assert segments + SegmentOf(Acts(s, e)) == segments;
      CutFrame(s, EngineStep(s, e), segments, sizes);
    }
  }

  lemma {:induction false} EngineRunCut(s: Ring, es: seq<EngineEvent>, segments: seq<seq<byte>>, sizes: seq<nat>)
    requires Good(s) && s.direction.FromDevice? && Sane(s) && CutOk(s, segments, sizes)
    ensures Good(EngineRun(s, es)) && CutOk(EngineRun(s, es), segments + Segments(EngineMoments(s, es)), sizes)
    ensures SameRoom(s, EngineRun(s, es))
    decreases es
  {
    hide RingOk, TxOk, RxOk, CutOk, EngineStep, SegmentOf;
    GoodIsSane(s);
    if es == [] {
      assert segments + Segments([]) == segments;
    } else {
      var s1, first, rest := EngineStep(s, es[0]), SegmentOf(Acts(s, es[0])), EngineMoments(EngineStep(s, es[0]), es[1..]);
      EngineStepCut(s, es[0], segments, sizes);
      EngineRunCut(s1, es[1..], segments + first, sizes);
      assert ([Acts(s, es[0])] + rest)[1..] == rest;
      Associate(segments, first, Segments(rest));
    }
  }

  lemma WaitCut(s: Ring, i: nat, w: Wait, segments: seq<seq<byte>>, sizes: seq<nat>)
    requires Good(s) && s.direction.FromDevice? && Sane(s) && CutOk(s, segments, sizes)
    requires i < N(s) && !Idle(s, i) && HarmlessWait(s, i, w)
    ensures Good(WaitFor(s, i, w)) && CutOk(WaitFor(s, i, w), segments + Segments(WaitMoments(s, i, w)), sizes)
    ensures SameRoom(s, WaitFor(s, i, w))
  {
    hide Slot, Slots, Cursor, Reaps, Cut, TxOk, RxOk, Settle;
    var busy, e := SetStatus(s, i, Busy), AtEnd(s, i, w);
    var ms := EngineMoments(busy, w.during);
    BusyOk(s, i, Busy);
    DataFrame(s, busy);
    CutFrame(s, busy, segments, sizes);
    EngineRunCut(busy, w.during, segments, sizes);
    WaitGood(s, i, w);
    SettleData(e, i, w.otherwise);
    CutFrame(e, WaitFor(s, i, w), segments + Segments(ms), sizes);
    CollectAppend(SegmentOf, ms, [Ends(e, i, w.otherwise)]);
    CollectOne(SegmentOf, Ends(e, i, w.otherwise));
    assert Segments(WaitMoments(s, i, w)) == Segments(ms);
  }

  lemma SyncStepCut(s: Ring, i: nat, w: Wait, segments: seq<seq<byte>>, sizes: seq<nat>)
    requires Good(s) && s.direction.FromDevice? && Sane(s) && CutOk(s, segments, sizes)
    requires i < N(s) && HarmlessWait(s, i, w)
    ensures Good(SyncStep(s, i, w)) && CutOk(SyncStep(s, i, w), segments + Segments(SyncStepMoments(s, i, w)), sizes)
    ensures SameRoom(s, SyncStep(s, i, w))
  {
    hide RingOk, TxOk, RxOk, CutOk, WaitMoments;
    if Idle(s, i) {
      assert segments + Segments([]) == segments;
    } else {
      WaitCut(s, i, w, segments, sizes);
    }
  }

  lemma {:induction false} SyncCut(s: Ring, i: nat, waits: seq<Wait>, segments: seq<seq<byte>>, sizes: seq<nat>)
    requires Good(s) && s.direction.FromDevice? && Sane(s) && CutOk(s, segments, sizes)
    requires i <= N(s) == |waits| && HarmlessSync(s, i, waits)
    ensures Good(SyncFrom(s, i, waits)) && CutOk(SyncFrom(s, i, waits), segments + Segments(SyncMoments(s, i, waits)), sizes)
    decreases N(s) - i
  {
    hide RingOk, TxOk, RxOk, CutOk, SyncStep, SyncStepMoments, HarmlessWait;
    if i == N(s) {
      assert segments + Segments([]) == segments;
    } else {
      var t, first := SyncStep(s, i, waits[i]), SyncStepMoments(s, i, waits[i]);
      SyncStepCut(s, i, waits[i], segments, sizes);
      SyncCut(t, i + 1, waits, segments + Segments(first), sizes);
      CollectAppend(SegmentOf, first, SyncMoments(t, i + 1, waits));
      Associate(segments, Segments(first), Segments(SyncMoments(t, i + 1, waits)));
    }
  }

  lemma GetCut(s: Ring, w: Wait, segments: seq<seq<byte>>, sizes: seq<nat>)
    requires Good(s) && s.direction.FromDevice? && Sane(s) && CutOk(s, segments, sizes)
    requires s.held.None? && s.cursor < N(s) && HarmlessGet(s, w)
    ensures Good(Get(s, w).0)
    ensures CutOk(Get(s, w).0, segments + Segments(SyncStepMoments(s, s.cursor, w)), sizes)
  {
    hide Slot, Slots, Cursor, Reaps, Cut, TxOk, RxOk, WaitFor, WaitMoments;
    GetGood(s, w);
    SyncStepCut(s, s.cursor, w, segments, sizes);
    CutFrame(SyncStep(s, s.cursor, w), Get(s, w).0, segments + Segments(SyncStepMoments(s, s.cursor, w)), sizes);
  }

  lemma FillCut(s: Ring, at: nat, part: seq<byte>, segments: seq<seq<byte>>, sizes: seq<nat>)
    requires Good(s) && s.held.Some? && Sane(s) && s.held.value < N(s) && CutOk(s, segments, sizes)
    ensures Good(Fill(s, at, part)) && CutOk(Fill(s, at, part), segments, sizes)
  {
    hide Slot, Slots, Cursor, Reaps, Cut, TxOk, RxOk, Overlay;
    FillGood(s, at, part);
    CutFrame(s, Fill(s, at, part), segments, sizes);
  }

  lemma SubmitCut(s: Ring, size: nat, sub: Submission, segments: seq<seq<byte>>, sizes: seq<nat>)
    requires Good(s) && s.held.Some? && Sane(s) && s.held.value < N(s) && CutOk(s, segments, sizes)
    ensures Good(Submit(s, size, sub))
    ensures CutOk(Submit(s, size, sub), segments, sizes + if sub.Accepted? then [size] else [])
  {
    hide Slot, Slots, Cursor, Reaps, Cut, TxOk, RxOk;
    SubmitGood(s, size, sub);
    var t := Submit(s, size, sub);
    forall k: nat | k < |t.arrived| ensures Home(t, k) == Home(s, k) && SameRoom(s, t) { }
  }

  lemma NextCut(s: Ring, e: Event, segments: seq<seq<byte>>, sizes: seq<nat>)
    requires Good(s) && s.direction.FromDevice? && Allowed(s, e) && Harmless(s, e) && CutOk(s, segments, sizes)
    ensures Good(Next(s, e))
    ensures CutOk(Next(s, e), segments + Segments(EventMoments(s, e)), sizes + KeptSizes(OfferOf(s, e)))
  {
    hide RingOk, TxOk, RxOk, CutOk, EngineStep, Get, SyncFrom, Fill, Submit, SegmentOf, SyncStepMoments, SyncMoments;
    GoodIsSane(s);
    assert sizes + [] == sizes && segments + Segments([]) == segments;
    match e
    case Engine(ev) =>
      EngineStepCut(s, ev, segments, sizes);
      CollectOne(SegmentOf, Acts(s, ev));
    case GetBuffer(w) => GetCut(s, w, segments, sizes);
    case FillBuffer(at, part) => FillCut(s, at, part, segments, sizes);
    case SubmitBuffer(size, sub) =>
      SubmitCut(s, size, sub, segments, sizes);
      assert KeptSizes(OfferOf(s, e)) == if sub.Accepted? then [size] else [];
    case Sync(waits) => SyncCut(s, 0, waits, segments, sizes);
  }

  lemma {:induction false} RunCut(s: Ring, es: seq<Event>, t: Ring, segments: seq<seq<byte>>, sizes: seq<nat>)
    requires Good(s) && s.direction.FromDevice? && SafeRun(s, es, t) && CutOk(s, segments, sizes)
    ensures Good(t) && CutOk(t, segments + Segments(Moments(s, es)), sizes + KeptSizes(Offers(s, es)))
    decreases es
  {
    hide RingOk, TxOk, RxOk, CutOk, Next, Allowed, Harmless, EventMoments, OfferOf;
    GoodIsSane(s);
    if es == [] {
      assert segments + Segments([]) == segments && sizes + [] == sizes;
    } else {
      var s1 := Next(s, es[0]);
      var first, offer := EventMoments(s, es[0]), OfferOf(s, es[0]);
      NextCut(s, es[0], segments, sizes);
      KeepsDirection(s, es[0]);
      RunCut(s1, es[1..], t, segments + Segments(first), sizes + KeptSizes(offer));
      CollectAppend(SegmentOf, first, Moments(s1, es[1..]));
      KeptSizesAppend(offer, Offers(s1, es[1..]));
      Associate(segments, Segments(first), Segments(Moments(s1, es[1..])));
      Associate(sizes, KeptSizes(offer), KeptSizes(Offers(s1, es[1..])));
    }
  }

  lemma KeepsDirection(s: Ring, e: Event)
    requires Allowed(s, e)
    ensures Next(s, e).direction == s.direction
  {
  }

  /** Delay line: if the submission of turn T - N was accepted, then turn T's get hands out a buffer that starts with what
      was submitted then, overwritten by its segment, cut to the size submitted: the segment that the device brought as
      number a, where a counts the submissions accepted before that turn.  A refused submission gives no segment and
      shifts no other turn. */
  lemma RxDelaysByN(n: nat, data: seq<seq<byte>>, es: seq<Event>, s: Ring, w: Wait)
    requires n > 0 && |data| == n && SafeRun(Init(FromDevice, n, data), es, s)
    requires s.held.None? && s.cursor < N(s) && Sane(s) && HarmlessGet(s, w)
    requires Get(s, w).1
    ensures var t, os := Get(s, w).0, Offers(Init(FromDevice, n, data), es); var T := |os|;
            var segments := Segments(Moments(Init(FromDevice, n, data), es) + SyncStepMoments(s, s.cursor, w));
            && t.held == Some(Slot(T, n)) && N(t) == n
            && (T >= n && os[T - n].sub.Accepted? ==>
                  var a, held := |Kept(os[..T - n])|, t.buffers[Slot(T, n)].data;
                  a < |segments| && Overlay(os[T - n].contents, 0, Cut(segments[a], os[T - n].size, |held|)) <= held)
  {
    hide Overlay, Offers, Kept, KeptTurns, KeptSizes, Good, Get, Moments, SyncStepMoments, Collect;
    var s0 := Init(FromDevice, n, data);
    FromStart(FromDevice, n, data, es, s);
    StartCut(n, data, es, s);
    GetCut(s, w, Segments(Moments(s0, es)), KeptSizes(Offers(s0, es)));
    CollectAppend(SegmentOf, Moments(s0, es), SyncStepMoments(s, s.cursor, w));
    DelayAt(s, Offers(s0, es), w, Segments(Moments(s0, es) + SyncStepMoments(s, s.cursor, w)));
  }

  lemma StartCut(n: nat, data: seq<seq<byte>>, es: seq<Event>, s: Ring)
    requires n > 0 && |data| == n && SafeRun(Init(FromDevice, n, data), es, s)
    ensures Good(s)
    ensures CutOk(s, Segments(Moments(Init(FromDevice, n, data), es)), KeptSizes(Offers(Init(FromDevice, n, data), es)))
  {
    hide SafeRun, Moments, Offers;
    var s0 := Init(FromDevice, n, data);
    InitGood(FromDevice, n, data);
    RunCut(s0, es, s, [], []);
    assert [] + Segments(Moments(s0, es)) == Segments(Moments(s0, es));
    assert [] + KeptSizes(Offers(s0, es)) == KeptSizes(Offers(s0, es));
  }

  /** The same of one state, with the offers and segments that led to it. */
  lemma DelayAt(s: Ring, os: seq<Offer>, w: Wait, segments: seq<seq<byte>>)
    requires Good(s) && s.direction.FromDevice? && s.held.None? && Sane(s) && s.cursor < N(s) && HarmlessGet(s, w)
    requires s.accepted == KeptTurns(os, 0) && s.sent == Kept(os) && Turns(s) == |os| && Get(s, w).1
    requires Good(Get(s, w).0) && CutOk(Get(s, w).0, segments, KeptSizes(os))
    ensures var t, T := Get(s, w).0, |os|;
            && t.held == Some(Slot(T, N(s))) && N(t) == N(s)
            && (T >= N(s) && os[T - N(s)].sub.Accepted? ==>
                  var a, held := |Kept(os[..T - N(s)])|, t.buffers[Slot(T, N(s))].data;
                  a < |segments| && Overlay(os[T - N(s)].contents, 0, Cut(segments[a], os[T - N(s)].size, |held|)) <= held)
  {
    hide Overlay, Kept, KeptTurns, KeptSizes, Slots, Reaps, TxOk, Cut;
    GetOk(s, w);
    var t := Get(s, w).0;
    if |os| >= N(s) && os[|os| - N(s)].sub.Accepted? {
      var a := |Kept(os[..|os| - N(s)])|;
      KeptAt(os, 0, |os| - N(s));
      HeldHoldsOldest(t, a);
      SlotPeriod(t.accepted[a], N(t));
      assert Home(t, a) == t.held.value;
    }
  }

  lemma KeptBefore(os: seq<Offer>, k: nat)
    requires NoRefusal(os) && k <= |os|
    ensures |Kept(os[..k])| == k
  {
    AllKept(os[..k], 0);
  }

  /** Without refusals: the k-th buffer handed out, k >= N, starts with what was submitted in
      turn k - N, overwritten by segment k - N, cut to the size submitted.  So every segment is seen once, in arrival
      order, with a lag of exactly N. */
  lemma RxLagsByN(n: nat, data: seq<seq<byte>>, es: seq<Event>, s: Ring, w: Wait)
    requires n > 0 && |data| == n && SafeRun(Init(FromDevice, n, data), es, s)
    requires NoRefusal(Offers(Init(FromDevice, n, data), es))
    requires s.held.None? && s.cursor < N(s) && Sane(s) && HarmlessGet(s, w)
    requires Get(s, w).1
    ensures var t, os := Get(s, w).0, Offers(Init(FromDevice, n, data), es); var k := |os|;
            var segments := Segments(Moments(Init(FromDevice, n, data), es) + SyncStepMoments(s, s.cursor, w));
            && t.held == Some(Slot(k, n)) && N(t) == n
            && (k >= n ==>
                  var held := t.buffers[Slot(k, n)].data;
                  && k - n < |segments|
                  && Overlay(os[k - n].contents, 0, Cut(segments[k - n], os[k - n].size, |held|)) <= held)
  {
    hide Overlay, Offers, Kept, KeptTurns, Get, Moments, SyncStepMoments, Segments, Cut;
    var os := Offers(Init(FromDevice, n, data), es);
    RxDelaysByN(n, data, es, s, w);
    if |os| >= n { KeptBefore(os, |os| - n); }
  }

  /** A freshly handed-out buffer still holds what was in it N turns ago, overwritten by the segment stored then. */
  lemma HeldHoldsOldest(t: Ring, a: nat)
    requires Good(t) && t.direction.FromDevice? && t.held.Some? && !t.touched
    requires a < |t.accepted| && t.accepted[a] + N(t) == Turns(t)
    ensures t.held.value < N(t) && t.held.value == Home(t, a) && a < |t.arrived| && |t.arrived[a]| <= |t.sent[a]|
    ensures Overlay(t.sent[a], 0, t.arrived[a]) <= t.buffers[t.held.value].data
  {
    HeldIsIdle(t);
    SlotPeriod(t.accepted[a], N(t));
    assert Home(t, a) == t.held.value;
    if a >= Executed(t) { FlightIsRecent(t, a); }
    assert Stored(t, a);
  }

  /** No submission has been refused so far. */
  predicate Regular(s: Ring) { |s.sent| == Turns(s) }

  lemma {:induction false} FullIsIdentity(xs: seq<nat>)
    requires forall a, b :: 0 <= a < b < |xs| ==> xs[a] < xs[b]
    requires forall a :: 0 <= a < |xs| ==> xs[a] < |xs|
    ensures forall a :: 0 <= a < |xs| ==> xs[a] == a
  {
    if xs != [] {
      var n := |xs| - 1;
      forall a | 0 <= a < n ensures xs[..n][a] < n { assert xs[a] < xs[n]; }
      FullIsIdentity(xs[..n]);
      if n > 0 { assert xs[..n][n - 1] == n - 1; }
    }
  }

  /** Without refusals that is the submission numbered N less than the turn. */
  lemma RegularHold(t: Ring)
    requires Good(t) && t.direction.FromDevice? && t.held.Some? && !t.touched && Regular(t)
    ensures t.held.value < N(t)
    ensures |t.sent| >= N(t) ==>
              var a := |t.sent| - N(t);
              && a < |t.arrived| && |t.arrived[a]| <= |t.sent[a]|
              && Overlay(t.sent[a], 0, t.arrived[a]) <= t.buffers[t.held.value].data
  {
    hide Overlay;
    HeldIsIdle(t);
    FullIsIdentity(t.accepted);
    if |t.sent| >= N(t) { HeldHoldsOldest(t, |t.sent| - N(t)); }
  }

  // ------------------------------------------------------------ the first N turns

  /** Buffers whose first turn is not over hold what they held at first, unless their holder has written to them. */
  predicate Fresh(s: Ring, data: seq<seq<byte>>) {
    forall i :: 0 <= i < |s.buffers| && i < |data| && i >= Turns(s) && !(s.touched && s.held == Some(i)) ==>
      s.buffers[i].data == data[i]
  }

  lemma FreshFrame(s: Ring, t: Ring, data: seq<seq<byte>>)
    requires Fresh(s, data) && N(t) == N(s) && forall i | 0 <= i < N(s) :: t.buffers[i].data == s.buffers[i].data
    requires Turns(t) == Turns(s)
    requires (t.held == s.held && t.touched == s.touched) || (s.held.None? && !t.touched)
    requires s.touched ==> s.held.Some?
    ensures Fresh(t, data)
  {
    forall i | 0 <= i < N(t) && i < |data| && i >= Turns(t) && !(t.touched && t.held == Some(i))
      ensures t.buffers[i].data == data[i]
    {
      assert s.buffers[i].data == data[i];
    }
  }

  lemma EngineStepFresh(s: Ring, e: EngineEvent, data: seq<seq<byte>>)
    requires Good(s) && Fresh(s, data) && Sane(s)
    ensures Fresh(EngineStep(s, e), data)
  {
    hide Slots, Reaps, Overlay, TxOk, RxOk;
    if e.Execute? && s.pending != [] {
      var a := Executed(s);
      assert s.pending[0].index == Home(s, a + 0);
      if Turns(s) < N(s) { SlotSmall(s.accepted[a], N(s)); }
    } else {
      FreshFrame(s, EngineStep(s, e), data);
    }
  }

  lemma {:induction false} EngineRunFresh(s: Ring, es: seq<EngineEvent>, data: seq<seq<byte>>)
    requires Good(s) && Fresh(s, data) && Sane(s)
    ensures Fresh(EngineRun(s, es), data)
    decreases es
  {
    hide RingOk, TxOk, RxOk, Fresh, EngineStep;
    if es != [] {
      EngineStepFresh(s, es[0], data);
      EngineStepGood(s, es[0]);
      EngineRunFresh(EngineStep(s, es[0]), es[1..], data);
    }
  }

  lemma SyncStepFresh(s: Ring, i: nat, w: Wait, data: seq<seq<byte>>)
    requires Good(s) && Fresh(s, data) && Sane(s) && i < N(s) && HarmlessWait(s, i, w)
    ensures Good(SyncStep(s, i, w)) && Fresh(SyncStep(s, i, w), data)
  {
    hide Shape, Arc, Slots, Cursor, Reaps, TxOk, RxOk, Fresh, Settle;
    SyncStepGood(s, i, w);
    if !Idle(s, i) {
      var busy := SetStatus(s, i, Busy);
      BusyOk(s, i, Busy);
      DataFrame(s, busy);
      FreshFrame(s, busy, data);
      EngineRunFresh(busy, w.during, data);
      EngineRunGood(busy, w.during);
      SettleData(AtEnd(s, i, w), i, w.otherwise);
      FreshFrame(AtEnd(s, i, w), WaitFor(s, i, w), data);
    }
  }

  lemma {:induction false} SyncFresh(s: Ring, i: nat, waits: seq<Wait>, data: seq<seq<byte>>)
    requires Good(s) && Fresh(s, data) && Sane(s) && i <= N(s) == |waits| && HarmlessSync(s, i, waits)
    ensures Fresh(SyncFrom(s, i, waits), data)
    decreases N(s) - i
  {
    hide Good, Fresh, SyncStep, HarmlessWait;
    if i < N(s) {
      SyncStepFresh(s, i, waits[i], data);
      SyncFresh(SyncStep(s, i, waits[i]), i + 1, waits, data);
    }
  }

  lemma GetFresh(s: Ring, w: Wait, data: seq<seq<byte>>)
    requires Good(s) && Fresh(s, data) && Sane(s) && s.held.None? && s.cursor < N(s) && HarmlessGet(s, w)
    ensures Fresh(Get(s, w).0, data)
  {
    hide RingOk, TxOk, RxOk, Fresh, WaitFor;
    SyncStepFresh(s, s.cursor, w, data);
    FreshFrame(SyncStep(s, s.cursor, w), Get(s, w).0, data);
  }

  lemma ClientFresh(s: Ring, e: Event, data: seq<seq<byte>>)
    requires Good(s) && Fresh(s, data) && Allowed(s, e) && (e.FillBuffer? || e.SubmitBuffer?)
    ensures Fresh(Next(s, e), data)
  {
    hide Slots, Reaps, Overlay, TxOk, RxOk, Arc;
    if |s.handed| <= N(s) { SlotSmall(Turns(s), N(s)); }
  }

  lemma NextFresh(s: Ring, e: Event, data: seq<seq<byte>>)
    requires Good(s) && Fresh(s, data) && Allowed(s, e) && Harmless(s, e)
    ensures Fresh(Next(s, e), data)
  {
    match e
    case Engine(ev) => EngineStepFresh(s, ev, data);
    case GetBuffer(w) => GetFresh(s, w, data);
    case Sync(waits) => SyncFresh(s, 0, waits, data);
    case _ => ClientFresh(s, e, data);
  }

  lemma {:induction false} RunFresh(s: Ring, es: seq<Event>, t: Ring, data: seq<seq<byte>>)
    requires Good(s) && Fresh(s, data) && SafeRun(s, es, t)
    ensures Fresh(t, data)
    decreases es
  {
    hide Good, Fresh, Next, Allowed, Harmless;
    if es != [] {
      NextFresh(s, es[0], data);
      NextGood(s, es[0]);
      RunFresh(Next(s, es[0]), es[1..], t, data);
    }
  }

  /** In the first N turns a get hands out a buffer as it was at first. */
  lemma FirstTurns(direction: Direction, n: nat, data: seq<seq<byte>>, es: seq<Event>, s: Ring)
    requires n > 0 && |data| == n && SafeRun(Init(direction, n, data), es, s)
    requires s.held.Some? && !s.touched && Turns(s) < n
    ensures Turns(s) == |Offers(Init(direction, n, data), es)| && s.held == Some(Turns(s)) && N(s) == n
    ensures s.buffers[s.held.value].data == data[Turns(s)]
  {
    hide Offers, Kept, KeptTurns, Good, Moments, Gets, Packets, Reapings;
    var s0 := Init(direction, n, data);
    FromStart(direction, n, data, es, s);
    InitGood(direction, n, data);
    RunFresh(s0, es, s, data);
    HeldIsIdle(s);
    SlotSmall(Turns(s), n);
  }

  // ---------------------------------------------------------------- order, timeouts and sync

  /** Buffers with a transfer the engine has not called back, oldest first. */
  function Flight(s: Ring): (r: seq<nat>)
    ensures |r| == |s.landed| + |s.pending|
  {
    s.landed + seq(|s.pending|, j requires 0 <= j < |s.pending| => s.pending[j].index)
  }

  /** The turn of the j-th transfer in flight. */
  function FlightTurn(s: Ring, j: nat): nat
    requires Shape(s) && |Flight(s)| <= |s.sent| && j < |Flight(s)|
  {
    s.accepted[|s.sent| - |Flight(s)| + j]
  }

  lemma FlightShape(s: Ring)
    requires RingOk(s)
    ensures |Flight(s)| <= |s.sent|
    ensures forall j | 0 <= j < |Flight(s)| ::
              && Flight(s)[j] == Slot(FlightTurn(s, j), N(s)) && !Idle(s, Flight(s)[j])
              && FlightTurn(s, j) + N(s) >= |s.handed| && FlightTurn(s, j) < Turns(s)
    ensures forall j, k | 0 <= j < k < |Flight(s)| :: FlightTurn(s, j) < FlightTurn(s, k) && Flight(s)[j] != Flight(s)[k]
  {
    hide Slot, Slots, Reaps;
    forall j | 0 <= j < |Flight(s)|
      ensures Flight(s)[j] == Slot(FlightTurn(s, j), N(s)) && !Idle(s, Flight(s)[j])
      ensures FlightTurn(s, j) + N(s) >= |s.handed| && FlightTurn(s, j) < Turns(s)
    {
      FlightAt(s, j);
    }
    forall j, k | 0 <= j < k < |Flight(s)| ensures FlightTurn(s, j) < FlightTurn(s, k) && Flight(s)[j] != Flight(s)[k] {
      FlightAt(s, j);
      FlightAt(s, k);
      RecentHomesDiffer(s, Fired(s) + j, Fired(s) + k);
    }
  }

  lemma FlightAt(s: Ring, j: nat)
    requires RingOk(s) && j < |Flight(s)|
    ensures |Flight(s)| <= |s.sent| && Fired(s) >= 0 && Flight(s)[j] == Home(s, Fired(s) + j) && !Idle(s, Flight(s)[j])
    ensures FlightTurn(s, j) + N(s) >= |s.handed| && FlightTurn(s, j) < Turns(s)
  {
    hide Slot;
    if j >= |s.landed| { assert s.pending[j - |s.landed|].index == Home(s, Executed(s) + (j - |s.landed|)); }
    FlightIsRecent(s, Fired(s) + j);
  }

  lemma HeldNotInFlight(s: Ring)
    requires RingOk(s) && s.held.Some?
    ensures s.held.value < N(s) == |s.done| && s.held.value == Slot(Turns(s), N(s))
    ensures s.held.value !in Flight(s) && s.done[s.held.value] == 0
  {
    HeldIsIdle(s);
    FlightShape(s);
  }

  /** For every safe run: the transfers in flight belong to increasing turns among the last N, so their buffers are
      distinct and in cyclic order, and each is marked busy; without refusals they are one arc that ends just before the
      next buffer to be submitted.  The buffer a client holds is not among them and holds no unreaped completion, so
      starting it erases none. */
  lemma FlightIsAnArc(direction: Direction, n: nat, data: seq<seq<byte>>, es: seq<Event>, s: Ring)
    requires n > 0 && |data| == n && SafeRun(Init(direction, n, data), es, s)
    ensures Shape(s) && N(s) == n && |Flight(s)| <= |s.sent|
    ensures forall j | 0 <= j < |Flight(s)| ::
              && Flight(s)[j] == Slot(FlightTurn(s, j), n) && !Idle(s, Flight(s)[j])
              && |s.handed| - n <= FlightTurn(s, j) < Turns(s)
    ensures forall j, k | 0 <= j < k < |Flight(s)| :: FlightTurn(s, j) < FlightTurn(s, k) && Flight(s)[j] != Flight(s)[k]
    ensures s.accepted == KeptTurns(Offers(Init(direction, n, data), es), 0)
    ensures NoRefusal(Offers(Init(direction, n, data), es)) ==>
              forall j | 0 <= j < |Flight(s)| :: FlightTurn(s, j) == Turns(s) - |Flight(s)| + j
    ensures s.held.Some? ==> s.held.value == Slot(Turns(s), n) && s.held.value !in Flight(s) && s.done[s.held.value] == 0
  {
    FromStart(direction, n, data, es, s);
    FlightShape(s);
    if s.held.Some? { HeldNotInFlight(s); }
    var os := Offers(Init(direction, n, data), es);
    if NoRefusal(os) { AllKept(os, 0); }
  }

  /** Every submission made more than N turns before the next get has been reaped. */
  lemma OldIsReaped(s: Ring, a: nat)
    requires RingOk(s) && a < |s.sent| && s.accepted[a] + N(s) < |s.handed|
    ensures a in s.reaped
  {
    if a >= Fired(s) { FlightIsRecent(s, a); } else { assert SlotOk(s, Home(s, a)); }
  }

  /** The submission whose completion a get waits for is that of N turns ago. */
  lemma CursorTurn(s: Ring)
    requires RingOk(s) && s.held.None? && s.cursor < N(s) && !Idle(s, s.cursor)
    ensures 0 <= s.number[s.cursor] < |s.sent|
    ensures s.accepted[s.number[s.cursor]] == |s.handed| - N(s) && s.number[s.cursor] !in s.reaped
  {
    var a := s.number[s.cursor];
    assert SlotOk(s, s.cursor);
    if s.accepted[a] + N(s) > |s.handed| { SlotInjective(s.accepted[a], |s.handed|, N(s)); }
  }

  /** For every safe run, with timeouts anywhere: buffers are handed out 0, 1, ..., N-1, 0, ...; and no completion is
      consumed twice, and every one older than N turns has been. */
  lemma TimeoutsKeepOrder(direction: Direction, n: nat, data: seq<seq<byte>>, es: seq<Event>, s: Ring)
    requires n > 0 && |data| == n && SafeRun(Init(direction, n, data), es, s) && s.held.None?
    ensures var handed := Gets(Init(direction, n, data), es);
            && |handed| == |Offers(Init(direction, n, data), es)| && s.cursor == Slot(|handed|, n)
            && (forall k | 0 <= k < |handed| :: handed[k] == Slot(k, n))
    ensures var reaped := Reapings(Moments(Init(direction, n, data), es));
            var turns := KeptTurns(Offers(Init(direction, n, data), es), 0);
            && (forall k: nat | k in reaped :: k < |turns| && multiset(reaped)[k] == 1)
            && (forall k: nat | k < |turns| && turns[k] + n < |Gets(Init(direction, n, data), es)| :: k in reaped)
  {
    hide Offers, Kept, KeptTurns, Moments, Gets, Good, Reapings;
    FromStart(direction, n, data, es, s);
    OrderAt(s);
  }

  /** A get hands out a buffer exactly when it is idle or its completion comes while the get waits.  A get that returns null
      has neither moved on nor consumed a completion; and once the transfer it gave up on does complete, the next get
      reaps it, which is the submission of N turns ago and was not reaped before, and hands the buffer out. */
  lemma LateIsReapedOnce(direction: Direction, n: nat, data: seq<seq<byte>>, es: seq<Event>, s: Ring, w: Wait)
    requires n > 0 && |data| == n && SafeRun(Init(direction, n, data), es, s)
    requires s.held.None? && Sane(s) && s.cursor < N(s) && HarmlessGet(s, w)
    ensures Get(s, w).1 <==> Idle(s, s.cursor) || AtEnd(s, s.cursor, w).done[s.cursor] > 0
    ensures var t := Get(s, w).0;
            if Get(s, w).1 then t.held == Some(s.cursor) && t.cursor == Slot(|s.handed| + 1, n)
            else t.cursor == s.cursor && t.held == None
    ensures |s.number| == N(s) && |s.handed| == |Gets(Init(direction, n, data), es)|
    ensures Reapings(SyncStepMoments(s, s.cursor, w)) ==
            if !Get(s, w).1 || Idle(s, s.cursor) then [] else [s.number[s.cursor]]
    ensures !Idle(s, s.cursor) ==>
              var turns, a := KeptTurns(Offers(Init(direction, n, data), es), 0), s.number[s.cursor];
              && 0 <= a < |turns| && turns[a] == |s.handed| - n
              && a !in Reapings(Moments(Init(direction, n, data), es))
  {
    hide Offers, Kept, KeptTurns, Moments, Gets, Good, Get, Reapings, SyncStepMoments, AtEnd;
    FromStart(direction, n, data, es, s);
    GetAt(s, w);
  }

  /** The same of one state. */
  lemma OrderAt(s: Ring)
    requires RingOk(s) && s.held.None?
    ensures |s.handed| == Turns(s) && |s.accepted| == |s.sent| && s.cursor == Slot(|s.handed|, N(s))
    ensures forall k | 0 <= k < |s.handed| :: s.handed[k] == Slot(k, N(s))
    ensures forall k: nat | k in s.reaped :: k < |s.sent| && multiset(s.reaped)[k] == 1
    ensures forall k: nat | k < |s.sent| && s.accepted[k] + N(s) < |s.handed| :: k in s.reaped
  {
    forall k: nat | k in s.reaped ensures multiset(s.reaped)[k] == 1 { DistinctOnce(s.reaped, k); }
    forall k: nat | k < |s.sent| && s.accepted[k] + N(s) < |s.handed| ensures k in s.reaped { OldIsReaped(s, k); }
  }

  lemma GetAt(s: Ring, w: Wait)
    requires RingOk(s) && s.held.None? && Sane(s) && s.cursor < N(s) && HarmlessGet(s, w)
    ensures Get(s, w).1 <==> Idle(s, s.cursor) || AtEnd(s, s.cursor, w).done[s.cursor] > 0
    ensures var t := Get(s, w).0;
            if Get(s, w).1 then t.held == Some(s.cursor) && t.cursor == Slot(|s.handed| + 1, N(s))
            else t.cursor == s.cursor && t.held == None
    ensures |s.number| == N(s) && |s.accepted| == |s.sent|
    ensures !Idle(s, s.cursor) ==>
              && 0 <= s.number[s.cursor] < |s.sent| && s.accepted[s.number[s.cursor]] == |s.handed| - N(s)
              && s.number[s.cursor] !in s.reaped
    ensures Reapings(SyncStepMoments(s, s.cursor, w)) ==
            if !Get(s, w).1 || Idle(s, s.cursor) then [] else [s.number[s.cursor]]
  {
    hide Get, SyncStepMoments, Reapings, AtEnd;
    GetOk(s, w);
    GetMoves(s, w);
    GetGrown(s, w);
    if !Idle(s, s.cursor) { CursorTurn(s); }
    SameTail(s.reaped, Reapings(SyncStepMoments(s, s.cursor, w)),
             if !Get(s, w).1 || Idle(s, s.cursor) then [] else [s.number[s.cursor] as nat]);
  }

  lemma GetMoves(s: Ring, w: Wait)
    requires RingOk(s) && s.held.None? && Sane(s) && s.cursor < N(s) && HarmlessGet(s, w)
    ensures Get(s, w).1 ==> Get(s, w).0.cursor == Slot(|s.handed| + 1, N(s))
  {
    hide Shape, Arc, Slots, Reaps;
    GetOk(s, w);
  }

  lemma SameTail<T>(a: seq<T>, b: seq<T>, c: seq<T>)
    requires a + b == a + c
    ensures b == c
  {
    assert (a + b)[|a|..] == b && (a + c)[|a|..] == c;
  }

  /** Every wait that the sync loop makes from index i on ends with the completion there. */
  predicate AllFinish(s: Ring, i: nat, waits: seq<Wait>)
    requires Sane(s) && i <= N(s) == |waits|
    decreases N(s) - i
  {
    i == N(s) ||
    ((Idle(s, i) || AtEnd(s, i, waits[i]).done[i] > 0) && AllFinish(SyncStep(s, i, waits[i]), i + 1, waits))
  }

  lemma FinishStep(s: Ring, i: nat, w: Wait)
    requires RingOk(s) && i < N(s) && (Idle(s, i) || AtEnd(s, i, w).done[i] > 0)
    ensures HarmlessWait(s, i, w) && Idle(SyncStep(s, i, w), i)
  {
    hide Shape, Arc, Slots, Cursor, Reaps;
    ArcIsSane(s);
    if !Idle(s, i) { WaitOk(s, i, w); }
  }

  lemma {:induction false} SyncClears(s: Ring, i: nat, waits: seq<Wait>)
    requires RingOk(s) && Sane(s) && i <= N(s) == |waits| && AllFinish(s, i, waits)
    requires forall k | 0 <= k < i :: Idle(s, k)
    ensures HarmlessSync(s, i, waits)
    ensures var t := SyncFrom(s, i, waits);
            RingOk(t) && N(t) == N(s) && t.sent == s.sent && forall k | 0 <= k < N(t) :: Idle(t, k)
    decreases N(s) - i
  {
    hide RingOk, SyncStep, HarmlessWait, AtEnd;
    if i < N(s) {
      var t := SyncStep(s, i, waits[i]);
      FinishStep(s, i, waits[i]);
      SyncStepOk(s, i, waits[i]);
      forall k | 0 <= k < i + 1 ensures Idle(t, k) { assert k < i ==> Idle(s, k); }
      SyncClears(t, i + 1, waits);
    }
  }

  lemma FlightIsBusy(s: Ring)
    requires RingOk(s) && Flight(s) != []
    ensures exists i :: 0 <= i < N(s) && !Idle(s, i)
  {
    FlightShape(s);
    assert !Idle(s, Flight(s)[0]);
  }

  /** With every buffer idle, nothing is in flight, no completion is left, and all submissions have been reaped. */
  lemma AllIdle(t: Ring)
    requires RingOk(t) && forall k | 0 <= k < N(t) :: Idle(t, k)
    ensures t.pending == [] && t.landed == []
    ensures forall i | 0 <= i < N(t) :: t.done[i] == 0
    ensures forall k: nat :: multiset(t.reaped)[k] == if k < |t.sent| then 1 else 0
  {
    if Flight(t) != [] { FlightIsBusy(t); }
    forall i: nat | i < N(t) ensures t.done[i] == 0 { IdleIsFree(t, i); }
    assert Fired(t) == |t.sent|;
    forall k: nat ensures multiset(t.reaped)[k] == if k < |t.sent| then 1 else 0 {
      assert k in t.reaped <==> k < |t.sent|;
      if k in t.reaped { DistinctOnce(t.reaped, k); }
    }
  }

  /** Sync barrier: from any reachable state, if every wait of the sync loop ends with its completion, then afterwards
      nothing is in flight, every buffer is idle, and every submission has been reaped, although the loop waits in index
      order. */
  lemma SyncIsABarrier(direction: Direction, n: nat, data: seq<seq<byte>>, es: seq<Event>, s: Ring, waits: seq<Wait>)
    requires n > 0 && |data| == n && SafeRun(Init(direction, n, data), es, s)
    requires Allowed(s, Sync(waits)) && AllFinish(s, 0, waits)
    ensures Harmless(s, Sync(waits))
    ensures var t, s0 := Next(s, Sync(waits)), Init(direction, n, data);
            && t.pending == [] && t.landed == []
            && (forall i | 0 <= i < |t.buffers| :: t.buffers[i].status == NoError)
            && (forall i | 0 <= i < |t.done| :: t.done[i] == 0)
            && (forall k: nat ::
                  multiset(Reapings(Moments(s0, es) + SyncMoments(s, 0, waits)))[k] ==
                  if k < |Kept(Offers(s0, es))| then 1 else 0)
  {
    hide Good, Shape, Arc, Slots, Cursor, Reaps, Offers, Kept, KeptTurns, Moments, SyncMoments, Reapings, Gets;
    FromStart(direction, n, data, es, s);
    SyncClears(s, 0, waits);
    var t := Next(s, Sync(waits));
    AllIdle(t);
    forall i | 0 <= i < N(t) ensures t.buffers[i].status == NoError { assert Idle(t, i); }
    assert Shape(t);
    DoneForAll(t);
    SyncReaps(s, waits, Moments(Init(direction, n, data), es));
  }

  lemma SyncReaps(s: Ring, waits: seq<Wait>, ms: seq<Moment>)
    requires Sane(s) && |waits| == N(s) && s.reaped == Reapings(ms)
    ensures SyncFrom(s, 0, waits).reaped == Reapings(ms + SyncMoments(s, 0, waits))
  {
    SyncGrown(s, 0, waits);
    CollectAppend(ReapOf, ms, SyncMoments(s, 0, waits));
  }

  lemma DoneForAll(t: Ring)
    requires Shape(t)
    ensures |t.done| == N(t)
  {
  }

  /** What a start does to the driver's tables: it wipes the descriptor's completion as soon as the transfer is prepared,
      queues the transfer last, with the buffer's length, if it is accepted, marks the buffer only then, and touches
      nothing else. */
  lemma StartTouches(s: Ring, i: nat, sub: Submission)
    requires Sane(s) && i < N(s)
    ensures var t := Start(s, i, sub);
            && t.done == (if sub.PrepFailed? then s.done else s.done[i := 0])
            && t.pending[..|s.pending|] == s.pending && t.landed == s.landed
            && t.pending[|s.pending|..] == (if sub.Accepted? then [Transfer(i, s.buffers[i].length)] else [])
            && |t.buffers| == |s.buffers| && t.buffers[i].data == s.buffers[i].data
            && t.buffers[i].status == (if sub.Accepted? then RingModel.Queued else s.buffers[i].status)
            && (forall k | 0 <= k < N(s) && k != i :: t.buffers[k] == s.buffers[k])
            && t.waitCount == s.waitCount && t.cursor == s.cursor
  {
  }

  // ---------------------------------------------------------------- every transfer ends

  /** The engine runs everything queued, and then all callbacks fire. */
  function Flush(s: Ring): seq<EngineEvent> {
    Repeat(Execute([]), |s.pending|) + Repeat(Callback, |s.landed| + |s.pending|)
  }

  function Repeat(e: EngineEvent, n: nat): seq<EngineEvent> {
    if n == 0 then [] else [e] + Repeat(e, n - 1)
  }

  lemma {:induction false} EngineRunSplit(s: Ring, a: seq<EngineEvent>, b: seq<EngineEvent>)
    requires Sane(s)
    ensures EngineRun(s, a + b) == EngineRun(EngineRun(s, a), b)
    decreases a
  {
    hide EngineStep;
    if a == [] {
      assert a + b == b;
    } else {
      assert (a + b)[1..] == a[1..] + b;
      EngineRunSplit(EngineStep(s, a[0]), a[1..], b);
    }
  }

  lemma {:induction false} RunsAll(s: Ring)
    requires Sane(s)
    ensures var t := EngineRun(s, Repeat(Execute([]), |s.pending|));
            t.pending == [] && |t.landed| == |s.landed| + |s.pending|
    decreases |s.pending|
  {
    if s.pending != [] {
      var t := EngineStep(s, Execute([]));
      RunsAll(t);
      assert Repeat(Execute([]), |s.pending|)[1..] == Repeat(Execute([]), |t.pending|);
    }
  }

  lemma {:induction false} FiresAll(s: Ring)
    requires Sane(s) && s.pending == []
    ensures var t := EngineRun(s, Repeat(Callback, |s.landed|)); t.pending == [] && t.landed == []
    decreases |s.landed|
  {
    if s.landed != [] {
      var t := EngineStep(s, Callback);
      FiresAll(t);
      assert Repeat(Callback, |s.landed|)[1..] == Repeat(Callback, |t.landed|);
    }
  }

  lemma FlushEmpties(s: Ring)
    requires Sane(s)
    ensures var t := EngineRun(s, Flush(s)); t.pending == [] && t.landed == []
  {
    hide EngineRun, Repeat;
    var runs := Repeat(Execute([]), |s.pending|);
    EngineRunSplit(s, runs, Repeat(Callback, |s.landed| + |s.pending|));
    RunsAll(s);
    FiresAll(EngineRun(s, runs));
  }

  /** A get, or any wait, that lasts long enough for the engine to do its work finds the completion. */
  lemma EveryTransferEnds(s: Ring, i: nat, o: Outcome)
    requires RingOk(s) && i < N(s) && !Idle(s, i)
    ensures AtEnd(s, i, Wait(Flush(s), o)).done[i] > 0
    ensures s.cursor == i && s.held.None? ==> Sane(s) && Get(s, Wait(Flush(s), o)).1
  {
    hide Shape, Arc, Slots, Cursor, Reaps;
    ArcIsSane(s);
    var e := AtEnd(s, i, Wait(Flush(s), o));
    AtEndOk(s, i, Wait(Flush(s), o));
    FlushEmpties(SetStatus(s, i, Busy));
    if e.done[i] == 0 { BusyIsInFlight(e, i); }
    if s.cursor == i && s.held.None? { GetOk(s, Wait(Flush(s), o)); }
  }

  /** Once the engine has done its work, the device has received everything that was accepted. */
  lemma EverythingIsSent(n: nat, data: seq<seq<byte>>, es: seq<Event>, s: Ring)
    requires n > 0 && |data| == n && SafeRun(Init(ToDevice, n, data), es, s)
    ensures Sane(s)
    ensures Packets(Moments(Init(ToDevice, n, data), es) + EngineMoments(s, Flush(s))) ==
            Kept(Offers(Init(ToDevice, n, data), es))
  {
    hide Offers, Kept, Moments, EngineMoments, Good, Flush, EngineRun, RingOk;
    FromStart(ToDevice, n, data, es, s);
    var t := EngineRun(s, Flush(s));
    FlushEmpties(s);
    EngineRunGood(s, Flush(s));
    EngineRunGrown(s, Flush(s));
    TxSplit(t);
    CollectAppend(PacketOf, Moments(Init(ToDevice, n, data), es), EngineMoments(s, Flush(s)));
  }

  // ---------------------------------------------------------------- poll

  /** In every run, harmless or not, the poll counter is the largest surplus of interrupts over successful waits in any
      suffix of what happened, so poll reports data exactly when some suffix has a surplus. */
  lemma PollFollowsHistory(direction: Direction, n: nat, data: seq<seq<byte>>, es: seq<Event>, s: Ring)
    requires |data| == n && Run(Init(direction, n, data), es, s)
    ensures var polls := Polls(Moments(Init(direction, n, data), es));
            && (forall k | 0 <= k <= |polls| :: Balance(polls[k..]) <= s.waitCount)
            && (exists k: nat :: Peak(polls, k) && Balance(polls[k..]) == s.waitCount)
            && (s.waitCount > 0 <==> exists k :: 0 <= k <= |polls| && Balance(polls[k..]) > 0)
  {
    hide Moments, Polls, Balance;
    RunFrame(Init(direction, n, data), es, s);
    RunGrown(Init(direction, n, data), es, s);
    var polls := Polls(Moments(Init(direction, n, data), es));
    assert s.polls == polls;
    var peak := CountIsMaxSuffix(polls);
    PositiveMeansSurplus(polls);
  }

  // ---------------------------------------------------------------- what harmful waits do

  /** A byte that differs from the first one of a packet. */
  function Other(packet: seq<byte>): byte {
    if packet != [] && packet[0] == 0 then 1 else 0
  }

  /** While the transfer is still queued, the client of a get that was cut short can change the packet: the FIFO
      refinement fails with its next write. */
  lemma HarmfulGetLosesData(s: Ring, w: Wait, j: nat)
    requires Good(s) && s.direction.ToDevice? && s.held.None? && Sane(s) && s.cursor < N(s) && !HarmlessGet(s, w)
    requires var t := Get(s, w).0;
             j < |t.pending| && t.pending[j].index == s.cursor && Executed(t) + j >= 0 && t.sent[Executed(t) + j] != []
    ensures var t := Get(s, w).0; var b := Other(t.sent[Executed(t) + j]);
            Allowed(t, FillBuffer(0, [b])) && Sane(Fill(t, 0, [b])) &&
            Fill(t, 0, [b]).output + InFlight(Fill(t, 0, [b])) != t.sent
  {
    hide Shape, Arc, Slots, Cursor, Reaps, TxOk, RxOk;
    var e, t := AtEnd(s, s.cursor, w), Get(s, w).0;
    HarmfulGet(s, w);
    AtEndGood(s, s.cursor, w);
    SettleData(e, s.cursor, w.otherwise);
    QueuedThere(e, j);
    OverwriteShows(t, j, t.sent[Executed(t) + j]);
  }

  lemma QueuedThere(e: Ring, j: nat)
    requires Good(e) && e.direction.ToDevice? && j < |e.pending|
    ensures e.pending[j].index < N(e) && |e.output| == Executed(e) && Queued(e, j) == e.sent[Executed(e) + j]
  {
    ArcIsSane(e);
  }

  lemma OverwriteShows(t: Ring, j: nat, packet: seq<byte>)
    requires Sane(t) && t.held.Some? && j < |t.pending| && t.pending[j].index == t.held.value
    requires |t.output| == Executed(t) && packet != [] && Queued(t, j) == packet == t.sent[Executed(t) + j]
    ensures Fill(t, 0, [Other(packet)]).output + InFlight(Fill(t, 0, [Other(packet)])) != t.sent
  {
    var u := Fill(t, 0, [Other(packet)]);
    assert Queued(u, j)[0] == Other(packet);
    assert (u.output + InFlight(u))[|u.output| + j] == Queued(u, j);
  }
}
