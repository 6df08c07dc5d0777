/** The read loop of userspace/io_backend/src/io_backend_call.c, each turn of which sends the head of the next DMA buffer to
    the client as one frame and gives the buffer back to the engine; and the remote reader of
    lib/bbio/src/bbio_backend_net.c behind it. */
module ReadServer {
  import opened Common
  import opened Wire
  import opened Rechunk
  import opened RingModel
  import opened RingInvariant
  import opened RingHistory
  import opened RingTheorems
  import opened RingSizes
  import opened DmaStream
  import opened NetStream

  /** send_size: 1024 * 2 * sizeof(iq_buffer). */
  const SEND_SIZE: nat := 8192

  /** stream_size: 32 * 1024 * sizeof(iq_buffer). */
  const READ_SIZE: nat := 131072

  /** What the wipe writes. */
  function Wipe(): seq<byte> { seq(READ_SIZE, i => 255) }

  /** What the buffer of turn k holds when its frame is sent: at first what it held before the session, and from turn n on
      what the wipe of turn k - n left, overwritten by segment k - n. */
  function Content(k: nat, segments: seq<seq<byte>>, first: seq<seq<byte>>): seq<byte>
    requires k >= |first| ==> k - |first| < |segments|
  {
    if k < |first| then first[k] else Overlay(Wipe(), 0, segments[k - |first|])
  }

  /** Frame k is the head of that. */
  predicate Lags(k: nat, frame: seq<byte>, segments: seq<seq<byte>>, first: seq<seq<byte>>) {
    && (k >= |first| ==> k - |first| < |segments|)
    && |frame| == SEND_SIZE && frame <= Content(k, segments, first)
  }

  predicate Lagging(frames: seq<seq<byte>>, segments: seq<seq<byte>>, first: seq<seq<byte>>) {
    forall k :: 0 <= k < |frames| ==> Lags(k, frames[k], segments, first)
  }

  lemma LaggingGrows(frames: seq<seq<byte>>, segments: seq<seq<byte>>, more: seq<seq<byte>>, first: seq<seq<byte>>)
    requires Lagging(frames, segments, first) && segments <= more
    ensures Lagging(frames, more, first)
  {
    forall k | 0 <= k < |frames| ensures Lags(k, frames[k], more, first) {
      assert Lags(k, frames[k], segments, first);
      if k >= |first| { assert segments[k - |first|] == more[k - |first|]; }
    }
  }

  lemma LaggingAdds(frames: seq<seq<byte>>, segments: seq<seq<byte>>, first: seq<seq<byte>>, frame: seq<byte>)
    requires Lagging(frames, segments, first) && Lags(|frames|, frame, segments, first)
    ensures Lagging(frames + [frame], segments, first)
  {
    var all := frames + [frame];
    forall k | 0 <= k < |all| ensures Lags(k, all[k], segments, first) {
      if k < |frames| { assert Lags(k, frames[k], segments, first); }
    }
  }

  lemma FramesAreSmall(frames: seq<seq<byte>>, segments: seq<seq<byte>>, first: seq<seq<byte>>)
    requires Lagging(frames, segments, first)
    ensures Sendable(frames) && forall k | 0 <= k < |frames| :: |frames[k]| == SEND_SIZE
  {
    forall k | 0 <= k < |frames| ensures |frames[k]| == SEND_SIZE { assert Lags(k, frames[k], segments, first); }
  }

  // ---------------------------------------------------------------- the ring between the actions of a turn

  /** No refusals so far, all buffers have room for what the loop asks for, and all were wiped when submitted. */
  ghost predicate Fine(r: Ring) {
    && Good(r) && r.direction.FromDevice? && Sized(r, READ_SIZE) && Regular(r)
    && forall k :: 0 <= k < |r.sent| ==> r.sent[k] == Wipe()
  }

  /** Between turns. */
  ghost predicate Ready(r: Ring) { Fine(r) && r.held.None? }

  /** With a buffer handed out that the server has not written to. */
  ghost predicate Holding(r: Ring) { Fine(r) && r.held.Some? && !r.touched && r.held.value < N(r) }

  /** With a buffer handed out and wiped. */
  ghost predicate Wiped(r: Ring) { Fine(r) && r.held.Some? && r.held.value < N(r) && r.buffers[r.held.value].data == Wipe() }

  /** The engine keeps its hands off the buffer held. */
  lemma {:induction false} EngineKeepsHeld(r: Ring, es: seq<EngineEvent>)
    requires Good(r) && Sane(r) && r.held.Some? && r.held.value < N(r)
    ensures EngineRun(r, es).buffers[r.held.value].data == r.buffers[r.held.value].data
    decreases es
  {
    hide Shape, Arc, Slots, Cursor, Reaps, TxOk, RxOk;
    if es != [] {
      HeldIsIdle(r);
      EngineStepGood(r, es[0]);
      assert EngineStep(r, es[0]).buffers[r.held.value].data == r.buffers[r.held.value].data;
      EngineKeepsHeld(EngineStep(r, es[0]), es[1..]);
    }
  }

  /** The engine disturbs nothing. */
  lemma EngineKeepsFine(r: Ring, es: seq<EngineEvent>)
    requires Fine(r) && Sane(r)
    ensures Fine(EngineRun(r, es)) && (Ready(r) ==> Ready(EngineRun(r, es))) && (Holding(r) ==> Holding(EngineRun(r, es)))
    ensures Wiped(r) ==> Wiped(EngineRun(r, es))
  {
    if Wiped(r) { EngineKeepsHeld(r, es); }
    EngineRunGood(r, es);
    EngineRunSized(r, es, READ_SIZE);
  }

  /** The get of a turn hands out a buffer: it is idle, or its completion comes while the get waits. */
  predicate GetComes(r: Ring, w: Wait)
    requires Sane(r) && r.cursor < N(r)
  {
    Idle(r, r.cursor) || AtEnd(r, r.cursor, w).done[r.cursor] > 0
  }

  lemma GetHolds(r: Ring, w: Wait)
    requires Ready(r) && Sane(r) && r.cursor < N(r) && HarmlessGet(r, w)
    ensures var (t, handed) := Get(r, w);
            && t.sent == r.sent && r.arrived <= t.arrived && handed == GetComes(r, w)
            && if handed then Holding(t) && t.held == Some(r.cursor) else Ready(t)
  {
    hide Good, RingOk;
    GoodIsSane(r);
    GetGood(r, w);
    GetOk(r, w);
    GetSized(r, w, READ_SIZE);
  }

  lemma SyncHolds(r: Ring, waits: seq<Wait>)
    requires Holding(r) && Sane(r) && |waits| == N(r) && HarmlessSync(r, 0, waits)
    ensures Holding(SyncFrom(r, 0, waits))
  {
    hide Good;
    SyncGood(r, 0, waits);
    SyncSized(r, 0, waits, READ_SIZE);
  }

  predicate AllExpire(waits: seq<Wait>) {
    forall i :: 0 <= i < |waits| ==> waits[i].otherwise.Expires?
  }

  /** Waits that no signal interrupts do no harm. */
  lemma {:induction false} ExpiringIsHarmless(r: Ring, i: nat, waits: seq<Wait>)
    requires Sane(r) && i <= N(r) == |waits| && AllExpire(waits)
    ensures HarmlessSync(r, i, waits)
    decreases N(r) - i
  {
    if i < N(r) { ExpiringIsHarmless(SyncStep(r, i, waits[i]), i + 1, waits); }
  }

  lemma WipeWipes(r: Ring)
    requires Holding(r)
    ensures Wiped(Fill(r, 0, Wipe()))
  {
    hide RingOk;
    FillGood(r, 0, Wipe());
    assert Overlay(r.buffers[r.held.value].data, 0, Wipe()) == Wipe();
  }

  lemma SubmitReadies(r: Ring)
    requires Wiped(r) && Sane(r)
    ensures Ready(Submit(r, READ_SIZE, Accepted)) && |Submit(r, READ_SIZE, Accepted).sent| == |r.sent| + 1
  {
    SubmitGood(r, READ_SIZE, Accepted);
    SubmitSized(r, READ_SIZE, Accepted, READ_SIZE);
    GoodIsSane(r);
  }

  /** The head of the buffer held is what the next frame has to carry. */
  lemma HeadLags(r: Ring, first: seq<seq<byte>>)
    requires Holding(r) && Fresh(r, first) && |first| == N(r)
    ensures Lags(|r.sent|, r.buffers[r.held.value].data[..SEND_SIZE], r.arrived, first)
  {
    hide Overlay, Shape, Arc, Slots, Reaps, TxOk, RxOk;
    RegularHold(r);
    var a, held := |r.sent| - N(r), r.buffers[r.held.value].data;
    if a >= 0 {
      assert |Overlay(r.sent[a], 0, r.arrived[a])| == |held|;
      assert Overlay(Wipe(), 0, r.arrived[a]) == held;
    } else {
      SlotSmall(|r.sent|, N(r));
    }
  }

  lemma FreshNow(data: seq<seq<byte>>, steps: seq<Event>, s: Ring)
    requires |data| > 0 && SafeRun(Init(FromDevice, |data|, data), steps, s)
    ensures Fresh(s, data)
  {
    hide SafeRun;
    InitGood(FromDevice, |data|, data);
    RunFresh(Init(FromDevice, |data|, data), steps, s, data);
  }

  /** No buffer is busy before it has been handed out once. */
  lemma FirstTurnsGo(r: Ring, w: Wait)
    requires RingOk(r) && Sane(r) && r.held.None? && |r.handed| < N(r) && r.cursor < N(r)
    ensures GetComes(r, w)
  {
    assert SlotOk(r, r.cursor);
    if r.number[r.cursor] >= 0 { SlotInjective(r.accepted[r.number[r.cursor]], |r.handed|, N(r)); }
  }

  // ---------------------------------------------------------------- the events of a session

  function Engines(es: seq<EngineEvent>): seq<Event> {
    seq(|es|, i requires 0 <= i < |es| => Engine(es[i]))
  }

  /** Everything that happens to the ring in a turn that sends a frame. */
  function TurnEvents(get: Wait, sync: seq<Wait>, gaps: Gaps): seq<Event> {
    FullEvents(get, sync, gaps) + Engines(gaps.sent) + ReturnEvents(gaps)
  }

  function FullEvents(get: Wait, sync: seq<Wait>, gaps: Gaps): seq<Event> {
    [GetBuffer(get)] + Engines(gaps.got) + [Sync(sync)] + Engines(gaps.synced)
  }

  function ReturnEvents(gaps: Gaps): seq<Event> {
    [FillBuffer(0, Wipe())] + Engines(gaps.wiped) + [SubmitBuffer(READ_SIZE, Accepted)] + Engines(gaps.returned)
  }

  function TurnsEvents(k: nat, gets: nat -> Wait, syncs: nat -> seq<Wait>, gaps: nat -> Gaps): seq<Event> {
    if k == 0 then []
    else TurnsEvents(k - 1, gets, syncs, gaps) + TurnEvents(gets(k - 1), syncs(k - 1), gaps(k - 1))
  }

  predicate OneSize(es: seq<Event>) {
    forall i :: 0 <= i < |es| && es[i].SubmitBuffer? ==> es[i].size == READ_SIZE
  }

  lemma {:induction false} TurnsHaveOneSize(k: nat, gets: nat -> Wait, syncs: nat -> seq<Wait>, gaps: nat -> Gaps)
    ensures OneSize(TurnsEvents(k, gets, syncs, gaps))
  {
    if k > 0 { TurnsHaveOneSize(k - 1, gets, syncs, gaps); }
  }

  lemma {:induction false} OneSizeKept(s: Ring, es: seq<Event>)
    requires OneSize(es)
    ensures forall k :: 0 <= k < |KeptSizes(Offers(s, es))| ==> KeptSizes(Offers(s, es))[k] == READ_SIZE
    decreases es
  {
    hide Allowed, RingModel.Next;
    if es != [] && Allowed(s, es[0]) {
      OneSizeKept(RingModel.Next(s, es[0]), es[1..]);
      KeptSizesAppend(OfferOf(s, es[0]), Offers(RingModel.Next(s, es[0]), es[1..]));
    }
  }

  lemma SafeMore(s0: Ring, es: seq<Event>, s: Ring, e: Event)
    requires SafeRun(s0, es, s) && Allowed(s, e) && Harmless(s, e)
    ensures SafeRun(s0, es + [e], RingModel.Next(s, e))
  {
    hide Allowed, Harmless, RingModel.Next;
    assert [e][1..] == [];
    assert SafeRun(RingModel.Next(s, e), [], RingModel.Next(s, e));
    SafeAppend(s0, es, s, [e], RingModel.Next(s, e));
  }

  lemma {:induction false} SafeEngines(s0: Ring, es: seq<Event>, s: Ring, evs: seq<EngineEvent>)
    requires SafeRun(s0, es, s) && Fine(s) && Sane(s)
    ensures SafeRun(s0, es + Engines(evs), EngineRun(s, evs))
    decreases evs
  {
    hide Good, SafeRun, EngineStep;
    if evs == [] {
      assert es + Engines(evs) == es;
    } else {
      MayAct(s, evs[0]);
      SafeMore(s0, es, s, Engine(evs[0]));
      EngineKeepsFine(s, [evs[0]]);
      assert EngineRun(s, [evs[0]]) == EngineStep(s, evs[0]) by { assert [evs[0]][1..] == []; }
      SafeEngines(s0, es + [Engine(evs[0])], EngineStep(s, evs[0]), evs[1..]);
      assert (es + [Engine(evs[0])]) + Engines(evs[1..]) == es + Engines(evs);
    }
  }

  lemma MayAct(s: Ring, e: EngineEvent)
    requires Good(s)
    ensures Allowed(s, Engine(e)) && RingModel.Next(s, Engine(e)) == EngineStep(s, e)
  {
    GoodIsSane(s);
  }

  /** The segments the device brought, as the buffers take them. */
  function Brought(data: seq<seq<byte>>, steps: seq<Event>): seq<seq<byte>> {
    var segments := Segments(Moments(Init(FromDevice, |data|, data), steps));
    seq(|segments|, k requires 0 <= k < |segments| => Cut(segments[k], READ_SIZE, READ_SIZE))
  }

  lemma BroughtIsArrived(data: seq<seq<byte>>, steps: seq<Event>, s: Ring)
    requires |data| > 0 && SafeRun(Init(FromDevice, |data|, data), steps, s) && OneSize(steps) && Sized(s, READ_SIZE)
    ensures s.arrived == Brought(data, steps)
  {
    hide SafeRun, Moments, Segments, Offers, KeptSizes, Cut, Cursor, Reaps, Slots;
    StartCut(|data|, data, steps, s);
    OneSizeKept(Init(FromDevice, |data|, data), steps);
    assert |s.arrived| == |Brought(data, steps)|;
    forall k: nat | k < |s.arrived| ensures s.arrived[k] == Brought(data, steps)[k] {
      assert |s.buffers[Home(s, k)].data| == READ_SIZE;
    }
  }

  // ---------------------------------------------------------------- the server

  /** What the engine does in the gaps between the actions of one turn. */
  datatype Gaps = Gaps(got: seq<EngineEvent>, synced: seq<EngineEvent>, sent: seq<EngineEvent>, wiped: seq<EngineEvent>,
                       returned: seq<EngineEvent>)

  /** client_cmd_read_stream_inf. */
  class ReadLoop {
    const d: LocalStream
    const sock: Socket
    ghost const data: seq<seq<byte>>   // what the buffers held at first
    ghost var steps: seq<Event>        // what has happened to the ring

    constructor (d: LocalStream, sock: Socket, ghost data: seq<seq<byte>>)
      requires d.Valid() && |data| > 0 && d.State() == Init(FromDevice, |data|, data)
      requires forall i :: 0 <= i < |data| ==> |data[i]| == READ_SIZE
      ensures this.d == d && this.sock == sock && this.data == data && steps == [] && At([])
    {
      this.d, this.sock, this.data, steps := d, sock, data, [];
      InitGood(FromDevice, |data|, data);
    }

    ghost predicate Valid()
      reads this, d, d.channel, d.channel.buffers, d.channel.done
    {
      && d.Valid() && |data| == d.channel.buffers.Length > 0 && Fine(d.State())
      && SafeRun(Init(FromDevice, |data|, data), steps, d.State())
    }

    /** Between turns, `frames` having been sent. */
    ghost predicate At(frames: seq<seq<byte>>)
      reads this, d, d.channel, d.channel.buffers, d.channel.done
    {
      && Valid() && Ready(d.State()) && |frames| == |d.State().sent|
      && Lagging(frames, d.State().arrived, data)
    }

    /** The engine acts in a gap. */
    method Meanwhile(es: seq<EngineEvent>)
      requires Valid()
      modifies this`steps, d.channel, d.channel.buffers, d.channel.done
      ensures Valid() && steps == old(steps) + Engines(es)
      ensures SameHold(old(d.State()), d.State()) && Extends(old(d.State()), d.State())
      ensures Ready(old(d.State())) ==> Ready(d.State())
      ensures Holding(old(d.State())) ==> Holding(d.State())
      ensures Wiped(old(d.State())) ==> Wiped(d.State())
    {
      hide Good, SafeRun, Sized, Regular, Wipe;
      EngineKeepsFine(d.State(), es);
      SafeEngines(Init(FromDevice, |data|, data), steps, d.State(), es);
      d.channel.EngineRuns(es);
      steps := steps + Engines(es);
    }

    /** The get of a turn. */
    method TryGet(get: Wait) returns (buffer: Option<nat>)
      requires Valid() && Ready(d.State()) && get.otherwise.Expires?
      modifies this`steps, d, d.channel, d.channel.buffers, d.channel.done
      ensures Valid() && steps == old(steps) + [GetBuffer(get)]
      ensures old(d.State()).arrived <= d.State().arrived && d.State().sent == old(d.State()).sent
      ensures buffer.Some? == GetComes(old(d.State()), get)
      ensures buffer.None? ==> Ready(d.State())
      ensures buffer.Some? ==>
                Holding(d.State()) && buffer.value == d.start + BUFFER_STRIDE * d.State().held.value
    {
      hide SafeRun, Sized, Regular, GetComes, RingOk, TxOk, RxOk;
      GetHolds(d.State(), get);
      SafeMore(Init(FromDevice, |data|, data), steps, d.State(), GetBuffer(get));
      buffer := d.GetBuffer(get);
      steps := steps + [GetBuffer(get)];
    }

    /** The sync of a turn. */
    method SyncAll(sync: seq<Wait>)
      requires Valid() && Holding(d.State()) && |sync| == |data| && AllExpire(sync)
      modifies this`steps, d, d.channel, d.channel.buffers, d.channel.done
      ensures Valid() && Holding(d.State()) && steps == old(steps) + [Sync(sync)]
      ensures SameHold(old(d.State()), d.State()) && Extends(old(d.State()), d.State())
    {
      hide SafeRun, Sized, Regular, Good, SyncFrom, HarmlessSync;
      ExpiringIsHarmless(d.State(), 0, sync);
      SyncHolds(d.State(), sync);
      SafeMore(Init(FromDevice, |data|, data), steps, d.State(), Sync(sync));
      d.FinishStream(sync);
      steps := steps + [Sync(sync)];
    }

    /** The first half of a turn: a buffer, and all other transfers waited for. */
    method NextFull(get: Wait, sync: seq<Wait>, gaps: Gaps) returns (buffer: Option<nat>)
      requires Valid() && Ready(d.State()) && get.otherwise.Expires? && |sync| == |data| && AllExpire(sync)
      modifies this`steps, d, d.channel, d.channel.buffers, d.channel.done
      ensures Valid() && old(d.State()).arrived <= d.State().arrived && d.State().sent == old(d.State()).sent
      ensures buffer.Some? == GetComes(old(d.State()), get)
      ensures buffer.None? ==> Ready(d.State()) && steps == old(steps) + [GetBuffer(get)]
      ensures buffer.Some? ==>
                && Holding(d.State()) && buffer.value == d.start + BUFFER_STRIDE * d.State().held.value
                && steps == old(steps) + FullEvents(get, sync, gaps)
    {
      hide SafeRun, Fine, GetComes;
      buffer := TryGet(get);
      if buffer.Some? {
        Meanwhile(gaps.got);
        SyncAll(sync);
        Meanwhile(gaps.synced);
      }
    }

    /** Sends the head of the buffer as one frame. */
    method SendHead(buffer: nat) returns (ghost frame: seq<byte>)
      requires Valid() && Holding(d.State()) && buffer == d.start + BUFFER_STRIDE * d.State().held.value
      modifies sock
      ensures |frame| == SEND_SIZE && Lags(|d.State().sent|, frame, d.State().arrived, data)
      ensures sock.outgoing == old(sock.outgoing) + Wire.Frame(READ_FRAME, frame)
      ensures sock.incoming == old(sock.incoming)
    {
      hide SafeRun, Good, Regular, Lags, Fresh;
      FreshNow(data, steps, d.State());
      HeadLags(d.State(), data);
      BufferAtAddress(d.start, d.State().held.value);
      var id := BufferAt(d.start, buffer);
      var head := d.channel.buffers[id].data[..SEND_SIZE];
      frame := head;
      sock.Send([READ_FRAME] + Encode32(SEND_SIZE) + head);
    }

    /** The memset. */
    method WipeBuffer(buffer: nat)
      requires Valid() && Holding(d.State()) && buffer == d.start + BUFFER_STRIDE * d.State().held.value
      modifies this`steps, d.channel, d.channel.buffers
      ensures Valid() && Wiped(d.State()) && steps == old(steps) + [FillBuffer(0, Wipe())]
      ensures d.State().held == old(d.State()).held && d.State().sent == old(d.State()).sent
      ensures d.State().arrived == old(d.State()).arrived
    {
      hide SafeRun, Good, Regular;
      WipeWipes(d.State());
      SafeMore(Init(FromDevice, |data|, data), steps, d.State(), FillBuffer(0, Wipe()));
      d.FillBuffer(buffer, 0, Wipe());
      steps := steps + [FillBuffer(0, Wipe())];
    }

    /** The resubmission. */
    method Resubmit(buffer: nat)
      requires Valid() && Wiped(d.State()) && buffer == d.start + BUFFER_STRIDE * d.State().held.value
      modifies this`steps, d, d.channel, d.channel.buffers, d.channel.done
      ensures Valid() && Ready(d.State()) && steps == old(steps) + [SubmitBuffer(READ_SIZE, Accepted)]
      ensures d.State().arrived == old(d.State()).arrived && |d.State().sent| == |old(d.State()).sent| + 1
    {
      hide SafeRun, Good, Regular;
      SubmitReadies(d.State());
      SafeMore(Init(FromDevice, |data|, data), steps, d.State(), SubmitBuffer(READ_SIZE, Accepted));
      var _ := d.WriteStream(buffer, READ_SIZE, Accepted);
      steps := steps + [SubmitBuffer(READ_SIZE, Accepted)];
    }

    /** Wipes the buffer and gives it back to the engine. */
    method Return(buffer: nat, gaps: Gaps)
      requires Valid() && Holding(d.State()) && buffer == d.start + BUFFER_STRIDE * d.State().held.value
      modifies this`steps, d, d.channel, d.channel.buffers, d.channel.done
      ensures Valid() && Ready(d.State()) && old(d.State()).arrived <= d.State().arrived
      ensures |d.State().sent| == |old(d.State()).sent| + 1 && steps == old(steps) + ReturnEvents(gaps)
    {
      hide SafeRun, Fine;
      WipeBuffer(buffer);
      Meanwhile(gaps.wiped);
      Resubmit(buffer);
      Meanwhile(gaps.returned);
    }

    /** One turn of the loop, with the engine active between any two of its actions.  It goes exactly when the get finds a
        buffer; null ends the loop. */
    method Turn(get: Wait, sync: seq<Wait>, gaps: Gaps, ghost frames: seq<seq<byte>>)
        returns (going: bool, ghost grown: seq<seq<byte>>)
      requires At(frames) && get.otherwise.Expires? && |sync| == |data| && AllExpire(sync)
      modifies this`steps, sock, d, d.channel, d.channel.buffers, d.channel.done
      ensures At(grown) && |grown| == |frames| + (if going then 1 else 0) && frames <= grown
      ensures going == GetComes(old(d.State()), get)
      ensures steps == old(steps) + if going then TurnEvents(get, sync, gaps) else [GetBuffer(get)]
      ensures sock.incoming == old(sock.incoming)
      ensures going ==> |grown[|frames|]| == SEND_SIZE
      ensures sock.outgoing == old(sock.outgoing) + if going then Wire.Frame(READ_FRAME, grown[|frames|]) else []
    {
      hide SafeRun, Fine, GetComes, Lags, Lagging, FullEvents, ReturnEvents, Engines;
      ghost var segments := d.State().arrived;
      grown := frames;
      var buffer := NextFull(get, sync, gaps);
      going := buffer.Some?;
      if going {
        LaggingGrows(frames, segments, d.State().arrived, data);
        ghost var frame := SendHead(buffer.value);
        LaggingAdds(frames, d.State().arrived, data, frame);
        grown := frames + [frame];
        segments := d.State().arrived;
        Meanwhile(gaps.sent);
        Return(buffer.value, gaps);
      }
      LaggingGrows(grown, segments, d.State().arrived, data);
    }
  }

  // ---------------------------------------------------------------- server and remote reader together

  /** The next frame in the channel is read back whole. */
  lemma NextFrame(frames: seq<seq<byte>>)
    requires frames != [] && forall k | 0 <= k < |frames| :: |frames[k]| == SEND_SIZE
    ensures Sendable(frames) && Sendable(frames[1..])
    ensures var w := Frames(READ_FRAME, frames);
            && w != [] && w[0] == READ_FRAME && WholeFrame(w)
            && ReadBack(w) == (frames[0], Frames(READ_FRAME, frames[1..]))
  {
    var rest := Frames(READ_FRAME, frames[1..]);
    FrameHead(READ_FRAME, frames[0], rest);
    ReadBackIff(frames[0], rest);
  }

  /** A connection with the server's read loop at one end and a remote reader at the other, and `turns` turns of the loop
      on the one and up to `counts(i)` reads after turn i on the other.  Whatever times out, whatever the engine does in
      between and however the network splits what it carries, the reader's k-th read, k >= N, returns the head of the
      (k - N)-th segment that the device brought, and of the wipe behind it: each segment once, in arrival order, with a
      lag of exactly N, the number of buffers.  The first N reads return what the buffers held before.
      Every turn sends a frame unless its get finds no buffer, which ends the loop and cannot happen in the first N turns;
      a reader that reads as often as it can misses no frame. */
  method Session(loop: ReadLoop, dev: NetDevice, turns: nat, counts: nat -> nat, split: Splitter,
                 gets: nat -> Wait, syncs: nat -> seq<Wait>, gaps: nat -> Gaps)
      returns (data: seq<seq<byte>>, done: nat, ghost last: Ring)
    requires loop.At([]) && loop.steps == []
    requires dev.fd != loop.sock && dev.fd.incoming == loop.sock.outgoing == []
    requires forall i :: gets(i).otherwise.Expires?
    requires forall i :: |syncs(i)| == |loop.data| && AllExpire(syncs(i))
    modifies loop, loop.sock, loop.d, loop.d.channel, loop.d.channel.buffers, loop.d.channel.done, dev, dev.fd
    ensures Lagging(data, Brought(loop.data, loop.steps), loop.data)
    ensures |data| <= done && ((forall j :: counts(j) >= turns) ==> |data| == done)
    ensures done <= turns && (done == turns || done >= |loop.data|)
    ensures loop.steps == TurnsEvents(done, gets, syncs, gaps) + if done == turns then [] else [GetBuffer(gets(done))]
    ensures done < turns ==>
              && SafeRun(Init(FromDevice, |loop.data|, loop.data), TurnsEvents(done, gets, syncs, gaps), last)
              && Sane(last) && last.cursor < N(last) && !GetComes(last, gets(done))
  {
    hide Lagging, Fine, SafeRun, TurnsEvents, GetComes, Stopped, AllExpire;
    data, done := [], 0;
    ghost var frames := [];
    var going := true;
    last := loop.d.State();
    NoTurns(gets, syncs, gaps);
    while done < turns && going
      invariant loop.At(frames) && Between(loop.sock, dev.fd, data, frames) && |frames| == done <= turns
      invariant (forall j :: counts(j) >= turns) ==> data == frames
      invariant going ==> loop.steps == TurnsEvents(done, gets, syncs, gaps)
      invariant !going ==> done < turns && loop.steps == TurnsEvents(done, gets, syncs, gaps) + [GetBuffer(gets(done))]
      invariant !going ==> done >= |loop.data| && Stopped(loop.data, TurnsEvents(done, gets, syncs, gaps), last, gets(done))
      decreases turns - done, going
    {
      going, data, frames, last := SessionTurn(loop, dev, done, counts(done), split, gets, syncs, gaps, data, frames);
      if going { done := done + 1; }
    }
    LaggingPrefix(data, frames, loop.d.State().arrived, loop.data);
    if going { Plain(loop.steps); } else { StoppedMeans(loop.data, TurnsEvents(done, gets, syncs, gaps), last, gets(done)); }
    SessionSegments(loop.data, loop.steps, loop.d.State(), done, gets, syncs, gaps);
  }

  lemma Plain<T>(xs: seq<T>)
    ensures xs + [] == xs
  {
  }

  /** Turn `done` of the loop, and the reader's reads after it. */
  method SessionTurn(loop: ReadLoop, dev: NetDevice, done: nat, count: nat, split: Splitter, gets: nat -> Wait,
                     syncs: nat -> seq<Wait>, gaps: nat -> Gaps, data: seq<seq<byte>>, ghost frames: seq<seq<byte>>)
      returns (going: bool, more: seq<seq<byte>>, ghost grown: seq<seq<byte>>, ghost last: Ring)
    requires loop.At(frames) && Between(loop.sock, dev.fd, data, frames) && |frames| == done
    requires loop.steps == TurnsEvents(done, gets, syncs, gaps)
    requires gets(done).otherwise.Expires? && |syncs(done)| == |loop.data| && AllExpire(syncs(done))
    modifies loop, loop.sock, loop.d, loop.d.channel, loop.d.channel.buffers, loop.d.channel.done, dev, dev.fd
    ensures loop.At(grown) && Between(loop.sock, dev.fd, more, grown) && |grown| == if going then done + 1 else done
    ensures more == grown || |more| == |data| + count
    ensures going ==> loop.steps == TurnsEvents(done + 1, gets, syncs, gaps)
    ensures !going ==> loop.steps == TurnsEvents(done, gets, syncs, gaps) + [GetBuffer(gets(done))]
    ensures !going ==> done >= |loop.data| && Stopped(loop.data, TurnsEvents(done, gets, syncs, gaps), last, gets(done))
  {
    hide Lagging, Fine, SafeRun, TurnsEvents, TurnEvents, GetComes, Stopped, AllExpire, Between;
    last := loop.d.State();
    TurnMayStop(loop.data, loop.steps, last, gets(done));
    OneMoreTurn(done, gets, syncs, gaps);
    going, grown := TurnAndCarry(loop, dev.fd, gets(done), syncs(done), gaps(done), data, frames);
    more := ReadSome(loop.sock, dev, count, split, data, grown);
  }

  /** A get that finds no buffer, in the state that some events lead to. */
  ghost predicate Stopped(data: seq<seq<byte>>, steps: seq<Event>, last: Ring, get: Wait) {
    && |data| > 0 && SafeRun(Init(FromDevice, |data|, data), steps, last) && Sane(last) && last.cursor < N(last)
    && !GetComes(last, get) && |last.sent| >= |data|
  }

  lemma StoppedMeans(data: seq<seq<byte>>, steps: seq<Event>, last: Ring, get: Wait)
    requires Stopped(data, steps, last, get)
    ensures SafeRun(Init(FromDevice, |data|, data), steps, last) && Sane(last) && last.cursor < N(last)
    ensures !GetComes(last, get) && |last.sent| >= |data|
  {
  }

  lemma TurnMayStop(data: seq<seq<byte>>, steps: seq<Event>, last: Ring, get: Wait)
    requires |data| > 0 && SafeRun(Init(FromDevice, |data|, data), steps, last) && Ready(last) && N(last) == |data|
    requires Sane(last) && last.cursor < N(last)
    ensures !GetComes(last, get) ==> Stopped(data, steps, last, get) && |last.sent| >= |data|
  {
    hide SafeRun, GetComes, Sized;
    if |last.handed| < N(last) { FirstTurnsGo(last, get); }
  }

  lemma NoTurns(gets: nat -> Wait, syncs: nat -> seq<Wait>, gaps: nat -> Gaps)
    ensures TurnsEvents(0, gets, syncs, gaps) == []
  {
  }

  lemma OneMoreTurn(k: nat, gets: nat -> Wait, syncs: nat -> seq<Wait>, gaps: nat -> Gaps)
    ensures TurnsEvents(k + 1, gets, syncs, gaps) ==
            TurnsEvents(k, gets, syncs, gaps) + TurnEvents(gets(k), syncs(k), gaps(k))
  {
  }

  lemma SessionSegments(data: seq<seq<byte>>, steps: seq<Event>, s: Ring, k: nat,
                        gets: nat -> Wait, syncs: nat -> seq<Wait>, gaps: nat -> Gaps)
    requires |data| > 0 && SafeRun(Init(FromDevice, |data|, data), steps, s) && Fine(s)
    requires steps == TurnsEvents(k, gets, syncs, gaps) || steps == TurnsEvents(k, gets, syncs, gaps) + [GetBuffer(gets(k))]
    ensures s.arrived == Brought(data, steps)
  {
    hide SafeRun, TurnsEvents, Good;
    TurnsHaveOneSize(k, gets, syncs, gaps);
    BroughtIsArrived(data, steps, s);
  }

  /** The frames sent and not read are in the channel. */
  ghost predicate Between(from: Socket, to: Socket, data: seq<seq<byte>>, frames: seq<seq<byte>>)
    reads from, to
  {
    && data <= frames && Sendable(frames) && (forall k :: 0 <= k < |frames| ==> |frames[k]| == SEND_SIZE)
    && from != to && from.outgoing == [] && to.incoming == Frames(READ_FRAME, frames[|data|..])
  }

  method TurnAndCarry(loop: ReadLoop, fd: Socket, get: Wait, sync: seq<Wait>, gaps: Gaps, ghost data: seq<seq<byte>>,
                      ghost frames: seq<seq<byte>>) returns (going: bool, ghost grown: seq<seq<byte>>)
    requires loop.At(frames) && Between(loop.sock, fd, data, frames) && get.otherwise.Expires?
    requires |sync| == |loop.data| && AllExpire(sync)
    modifies loop, loop.sock, fd, loop.d, loop.d.channel, loop.d.channel.buffers, loop.d.channel.done
    ensures loop.At(grown) && Between(loop.sock, fd, data, grown) && |grown| == |frames| + if going then 1 else 0
    ensures going == GetComes(old(loop.d.State()), get)
    ensures loop.steps == old(loop.steps) + if going then TurnEvents(get, sync, gaps) else [GetBuffer(get)]
  {
    hide Fine, Lagging, Frames, SafeRun, GetComes, TurnEvents;
    going, grown := loop.Turn(get, sync, gaps, frames);
    FramesAreSmall(grown, loop.d.State().arrived, loop.data);
    if going {
      FramesGrow(frames, grown, |data|);
      Carry(loop.sock, fd);
    } else {
      assert grown == frames;
    }
  }

  lemma LaggingPrefix(data: seq<seq<byte>>, frames: seq<seq<byte>>, segments: seq<seq<byte>>, first: seq<seq<byte>>)
    requires data <= frames && Lagging(frames, segments, first)
    ensures Lagging(data, segments, first)
  {
    forall k | 0 <= k < |data| ensures Lags(k, data[k], segments, first) { assert Lags(k, frames[k], segments, first); }
  }

  lemma FramesGrow(was: seq<seq<byte>>, now: seq<seq<byte>>, k: nat)
    requires Sendable(now) && |now| == |was| + 1 && was <= now && k <= |was|
    ensures Sendable(was[k..]) && Sendable(now[k..])
    ensures Frames(READ_FRAME, now[k..]) == Frames(READ_FRAME, was[k..]) + Wire.Frame(READ_FRAME, now[|was|])
  {
    assert now[k..] == was[k..] + [now[|was|]];
    FramesAppend(READ_FRAME, was[k..], now[|was|]);
  }

  /** Up to `count` reads: as many as there are frames in the channel, since the next one would block. */
  method ReadSome(sock: Socket, dev: NetDevice, count: nat, split: Splitter, data: seq<seq<byte>>,
                  ghost frames: seq<seq<byte>>) returns (more: seq<seq<byte>>)
    requires Between(sock, dev.fd, data, frames)
    modifies dev, dev.fd
    ensures Between(sock, dev.fd, more, frames)
    ensures more == frames || |more| == |data| + count
  {
    more := data;
    var i := 0;
    while i < count && dev.fd.incoming != []
      invariant Between(sock, dev.fd, more, frames)
      invariant i <= count && |more| == |data| + i
    {
      NextFrame(frames[|more|..]);
      assert frames[|more|..][1..] == frames[|more| + 1..];
      var _, part := dev.ReadStreamBasic(split);
      more := more + [part];
      i := i + 1;
    }
  }
}
