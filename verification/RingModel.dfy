/** The zero-copy DMA ring: the buffers shared by the user-space library (lib/bbio/src/bbio_backend_local.c) and
    the driver (driver/stream_dma/streamio-drv.c), and the asynchronous DMA engine behind the driver.

    The engine is a queue of submitted transfers.  It executes them first come, first served, and reads or
    writes buffer memory only then; the driver's completion callback for a transfer fires some time later, in
    the same order.  A blocking wait is one event: what the engine does while it lasts is an argument. */
module RingModel {
  import opened Common
  import opened PollCounter

  datatype Status = NoError | Busy | Timeout | Error | Queued

  datatype Direction = ToDevice | FromDevice

  /** struct channel_buffer */
  datatype Buffer = Buffer(data: seq<byte>, status: Status, length: nat)

  /** A submitted descriptor: the buffer it points to and the length captured at submission. */
  datatype Transfer = Transfer(index: nat, length: nat)

  datatype Ring = Ring(
    direction: Direction,
    buffers: seq<Buffer>,
    done: seq<nat>,           // bdtable[].cmp.done
    pending: seq<Transfer>,   // submitted, not executed
    landed: seq<nat>,         // executed, callback not fired
    waitCount: nat,           // wait_transfer_count
    cursor: nat,              // current_buffer_id
    // history, read by no operation
    held: Option<nat>,        // handed out by a get and not yet submitted
    touched: bool,            // the client has written to the held buffer
    handed: seq<nat>,         // buffers handed out, in order
    sent: seq<seq<byte>>,     // contents of each accepted submission, as they were at that moment
    accepted: seq<nat>,       // the turn of each accepted submission, counting buffers handed out
    output: seq<seq<byte>>,   // packets the engine has sent to the device
    arrived: seq<seq<byte>>,  // segments the engine has stored from the device
    number: seq<int>,         // per buffer, which accepted submission used it last; -1 for none
    reaped: seq<nat>,         // submissions whose completion a wait has consumed, in order
    polls: seq<PollEvent>     // interrupts and successful waits, in order
  )

  function Init(direction: Direction, n: nat, data: seq<seq<byte>>): Ring
    requires |data| == n
  {
    Ring(direction, seq(n, i requires 0 <= i < n => Buffer(data[i], NoError, 0)), seq(n, i => 0), [], [], 0, 0,
         None, false, [], [], [], [], [], seq(n, i => -1), [], [])
  }

  // ---------------------------------------------------------------- the engine

  datatype EngineEvent = Execute(segment: seq<byte>) | Callback | Irq

  function Take(s: seq<byte>, n: nat): seq<byte> {
    if n <= |s| then s[..n] else s
  }

  /** `part` written over `data` from position `at`; what does not fit is cut off. */
  function Overlay(data: seq<byte>, at: nat, part: seq<byte>): (r: seq<byte>)
    ensures |r| == |data|
  {
    if at >= |data| then data
    else var p := Take(part, |data| - at); data[..at] + p + data[at + |p|..]
  }

  function SetStatus(s: Ring, i: nat, st: Status): Ring
    requires i < |s.buffers|
  {
    s.(buffers := s.buffers[i := s.buffers[i].(status := st)])
  }

  /** Executes the oldest submitted transfer. */
  function ExecuteOf(s: Ring, segment: seq<byte>): Ring
    requires s.pending != [] ==> s.pending[0].index < |s.buffers|
  {
    if s.pending == [] then s
    else
      var x := s.pending[0];
      var b := s.buffers[x.index];
      var t := s.(pending := s.pending[1..], landed := s.landed + [x.index]);
      if s.direction.ToDevice? then t.(output := s.output + [Take(b.data, x.length)])
      else
        var part := Take(Take(segment, x.length), |b.data|);
        t.(buffers := s.buffers[x.index := b.(data := Overlay(b.data, 0, part))], arrived := s.arrived + [part])
  }

  /** sync_callback for the oldest executed transfer. */
  function CallbackOf(s: Ring): Ring
    requires s.landed != [] ==> s.landed[0] < |s.done|
  {
    if s.landed == [] then s
    else s.(landed := s.landed[1..], done := s.done[s.landed[0] := s.done[s.landed[0]] + 1])
  }

  predicate Sane(s: Ring) {
    && |s.done| == |s.number| == |s.buffers|
    && (forall j :: 0 <= j < |s.pending| ==> s.pending[j].index < |s.buffers|)
    && (forall j :: 0 <= j < |s.landed| ==> s.landed[j] < |s.buffers|)
  }

  /** The poll counter agrees with the history of interrupts and waits. */
  predicate Polled(s: Ring) { s.waitCount == Count(s.polls) }

  /** What every operation leaves alone or only adds to. */
  predicate Extends(s: Ring, t: Ring) {
    && |t.buffers| == |s.buffers| && t.direction == s.direction
    && s.output <= t.output && s.arrived <= t.arrived
    && (Polled(s) ==> Polled(t))
  }

  /** What only the client's own calls change. */
  predicate SameHold(s: Ring, t: Ring) {
    t.held == s.held && t.touched == s.touched && t.handed == s.handed && t.sent == s.sent && t.accepted == s.accepted
  }

  function EngineStep(s: Ring, e: EngineEvent): (t: Ring)
    requires Sane(s)
    ensures Sane(t) && Extends(s, t) && SameHold(s, t)
  {
    match e
    case Execute(segment) => ExecuteOf(s, segment)
    case Callback => CallbackOf(s)
    case Irq =>
      CountSnoc(s.polls, Interrupt);
      s.(waitCount := s.waitCount + 1, polls := s.polls + [Interrupt])
  }

  function EngineRun(s: Ring, es: seq<EngineEvent>): (t: Ring)
    requires Sane(s)
    ensures Sane(t) && Extends(s, t) && SameHold(s, t)
    decreases es
  {
    if es == [] then s else EngineRun(EngineStep(s, es[0]), es[1..])
  }

  // ---------------------------------------------------------------- the driver

  /** What becomes of a wait whose completion does not come. */
  datatype Outcome = Expires | Interrupted

  datatype Wait = Wait(during: seq<EngineEvent>, otherwise: Outcome)

  /** dma_async_is_tx_complete for the buffer's last submission. */
  predicate Complete(s: Ring, i: nat) {
    forall j :: 0 <= j < |s.pending| ==> s.pending[j].index != i
  }

  /** The branch of wait_for_transfer that declares success; the poll counter never goes below zero. */
  function Succeed(s: Ring, i: nat): (t: Ring)
    requires i < |s.buffers|
    ensures Polled(s) ==> Polled(t)
  {
    CountSnoc(s.polls, Reap);
    SetStatus(s, i, NoError).(waitCount := if s.waitCount > 0 then s.waitCount - 1 else 0, polls := s.polls + [Reap])
  }

  function Consume(s: Ring, i: nat): Ring
    requires i < |s.done| && i < |s.number| && s.done[i] > 0
  {
    s.(done := s.done[i := s.done[i] - 1],
       reaped := if s.number[i] >= 0 then s.reaped + [s.number[i] as nat] else s.reaped)
  }

  /** wait_for_transfer after its blocking wait: FINISH_XFER. */
  function Settle(s: Ring, i: nat, otherwise: Outcome): (t: Ring)
    requires Sane(s) && i < |s.buffers|
    ensures Sane(t) && Extends(s, t) && SameHold(s, t)
  {
    if s.done[i] > 0 then
      var t := Consume(s, i);
      if Complete(t, i) then Succeed(t, i) else SetStatus(t, i, Error)
    else if otherwise.Expires? then SetStatus(s, i, Timeout)
    else if Complete(s, i) then Succeed(s, i)
    else SetStatus(s, i, Error)
  }

  function WaitFor(s: Ring, i: nat, w: Wait): (t: Ring)
    requires Sane(s) && i < |s.buffers|
    ensures Sane(t) && Extends(s, t) && SameHold(s, t)
  {
    Settle(EngineRun(SetStatus(s, i, Busy), w.during), i, w.otherwise)
  }

  /** How the DMA layer takes a submission. */
  datatype Submission = Accepted | PrepFailed | SubmitFailed

  /** The turn of the buffer handed out last. */
  function LastTurn(s: Ring): nat {
    if s.handed == [] then 0 else |s.handed| - 1
  }

  /** start_transfer: START_XFER. */
  function Start(s: Ring, i: nat, sub: Submission): (t: Ring)
    requires Sane(s) && i < |s.buffers|
    ensures Sane(t) && Extends(s, t)
  {
    match sub
    case PrepFailed => s
    case SubmitFailed => s.(done := s.done[i := 0])
    case Accepted =>
      var len := s.buffers[i].length;
      SetStatus(s, i, Queued).(done := s.done[i := 0],
                               pending := s.pending + [Transfer(i, len)],
                               sent := s.sent + [Take(s.buffers[i].data, len)],
                               accepted := s.accepted + [LastTurn(s)],
                               number := s.number[i := |s.sent|])
  }

  // ---------------------------------------------------------------- the user-space library

  /** io_stream_zc_buffer_local: the new state, and whether a buffer was handed out (else null). */
  function Get(s: Ring, w: Wait): (r: (Ring, bool))
    requires Sane(s) && s.cursor < |s.buffers|
    ensures Sane(r.0) && Extends(s, r.0)
  {
    var i := s.cursor;
    var t := if s.buffers[i].status != NoError then WaitFor(s, i, w) else s;
    if t.buffers[i].status == Timeout then (t, false)
    else (t.(cursor := (i + 1) % |s.buffers|, held := Some(i), touched := false, handed := s.handed + [i]), true)
  }

  /** The client writes into the buffer it holds. */
  function Fill(s: Ring, at: nat, part: seq<byte>): Ring
    requires s.held.Some? && s.held.value < |s.buffers|
  {
    var b := s.buffers[s.held.value];
    s.(buffers := s.buffers[s.held.value := b.(data := Overlay(b.data, at, part))], touched := true)
  }

  /** io_write_stream_local (also installed as read_stream) on the buffer the client holds. */
  function Submit(s: Ring, size: nat, sub: Submission): (t: Ring)
    requires Sane(s) && s.held.Some? && s.held.value < |s.buffers|
    ensures Sane(t) && Extends(s, t)
  {
    var i := s.held.value;
    Start(s.(buffers := s.buffers[i := s.buffers[i].(length := size)], held := None, touched := false), i, sub)
  }

  /** One turn of the loop of io_finish_stream_local. */
  function SyncStep(s: Ring, i: nat, w: Wait): (t: Ring)
    requires Sane(s) && i < |s.buffers|
    ensures Sane(t) && Extends(s, t) && SameHold(s, t)
  {
    if s.buffers[i].status != NoError then WaitFor(s, i, w) else s
  }

  /** io_finish_stream_local from index i on; `waits` says how each wait goes. */
  function SyncFrom(s: Ring, i: nat, waits: seq<Wait>): (t: Ring)
    requires Sane(s) && i <= |s.buffers| == |waits|
    ensures Sane(t) && Extends(s, t) && SameHold(s, t)
    decreases |s.buffers| - i
  {
    if i == |s.buffers| then s
    else SyncFrom(SyncStep(s, i, waits[i]), i + 1, waits)
  }

  // ---------------------------------------------------------------- runs

  datatype Event =
    | Engine(e: EngineEvent)
    | GetBuffer(w: Wait)
    | FillBuffer(at: nat, part: seq<byte>)
    | SubmitBuffer(size: nat, sub: Submission)
    | Sync(waits: seq<Wait>)

  /** The discipline of the channel's one client: it gets a buffer, may write to it, submits it, and so on. */
  predicate Allowed(s: Ring, e: Event) {
    && Sane(s) && s.cursor < |s.buffers|
    && (s.held.Some? ==> s.held.value < |s.buffers|)
    && match e
       case Engine(_) => true
       case GetBuffer(_) => s.held.None?
       case FillBuffer(at, part) => s.held.Some? && at + |part| <= |s.buffers[s.held.value].data|
       case SubmitBuffer(size, _) => s.held.Some? && size <= |s.buffers[s.held.value].data|
       case Sync(waits) => |waits| == |s.buffers|
  }

  function Next(s: Ring, e: Event): Ring
    requires Allowed(s, e)
  {
    match e
    case Engine(ev) => EngineStep(s, ev)
    case GetBuffer(w) => Get(s, w).0
    case FillBuffer(at, part) => Fill(s, at, part)
    case SubmitBuffer(size, sub) => Submit(s, size, sub)
    case Sync(waits) => SyncFrom(s, 0, waits)
  }

  predicate Run(s: Ring, es: seq<Event>, t: Ring)
    decreases es
  {
    if es == [] then s == t else Allowed(s, es[0]) && Run(Next(s, es[0]), es[1..], t)
  }

  // ---------------------------------------------------------------- waits cut short by a signal

  /** The state in which a wait for buffer i ends. */
  function AtEnd(s: Ring, i: nat, w: Wait): (t: Ring)
    requires Sane(s) && i < |s.buffers|
    ensures Sane(t) && |t.buffers| == |s.buffers|
  {
    EngineRun(SetStatus(s, i, Busy), w.during)
  }

  /** A signal ends the wait before the completion has come. */
  predicate CutShort(s: Ring, i: nat, w: Wait)
    requires Sane(s) && i < |s.buffers|
  {
    w.otherwise.Interrupted? && AtEnd(s, i, w).done[i] == 0
  }

  /** A get does no harm unless it had to wait and the wait was cut short. */
  predicate HarmlessGet(s: Ring, w: Wait)
    requires Sane(s) && s.cursor < |s.buffers|
  {
    s.buffers[s.cursor].status == NoError || !CutShort(s, s.cursor, w)
  }

  /** A wait of a sync does no harm unless it was cut short between the transfer and its callback. */
  predicate HarmlessWait(s: Ring, i: nat, w: Wait)
    requires Sane(s) && i < |s.buffers|
  {
    s.buffers[i].status == NoError || !(CutShort(s, i, w) && Complete(AtEnd(s, i, w), i))
  }

  predicate HarmlessSync(s: Ring, i: nat, waits: seq<Wait>)
    requires Sane(s) && i <= |s.buffers| == |waits|
    decreases |s.buffers| - i
  {
    i == |s.buffers| || (HarmlessWait(s, i, waits[i]) && HarmlessSync(SyncStep(s, i, waits[i]), i + 1, waits))
  }

  /** The guard of the harmful branches: only waits cut short by a signal can do harm, refused submissions cannot. */
  predicate Harmless(s: Ring, e: Event)
    requires Allowed(s, e)
  {
    match e
    case GetBuffer(w) => HarmlessGet(s, w)
    case Sync(waits) => HarmlessSync(s, 0, waits)
    case _ => true
  }

  /** A run without harmful waits.  A run in which no signal interrupts a wait is one. */
  predicate SafeRun(s: Ring, es: seq<Event>, t: Ring)
    decreases es
  {
    if es == [] then s == t
    else Allowed(s, es[0]) && Harmless(s, es[0]) && SafeRun(Next(s, es[0]), es[1..], t)
  }
}
