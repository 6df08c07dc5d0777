/** A remote writer, the byte channel, the write-stream server and the DMA ring, composed: what io_write_stream_net
    (lib/bbio/src/bbio_backend_net.c) sends, client_cmd_write_stream_inf (userspace/io_backend/src/io_backend_call.c)
    receives into the zero-copy ring. */
module Pipeline {
  import opened Common
  import opened Wire
  import opened Rechunk
  import opened RingModel
  import opened RingInvariant
  import opened RingTheorems
  import opened RingHistory
  import opened RingSizes

  /** The server's side of the connection: before the first command, in the write loop, or stopped because the
      library gave it no buffer. */
  datatype Role = Idle | Writing | Stopped

  datatype Pipe = Pipe(
    ring: Ring,
    wire: seq<byte>,            // sent by the client and not yet received
    greeted: bool,              // handshaked, at the client
    role: Role,
    frameLeft: nat,             // recv_size: payload bytes of the current frame still to come
    ptr: nat,                   // buffer_ptr
    accuSize: nat,
    streamN: nat,
    // history
    payloads: seq<seq<byte>>,   // everything the client has written
    queued: seq<seq<byte>>,     // written, and not yet begun by the server
    desyncs: nat                // frames that did not start with the expected tag
  )

  function PipeInit(n: nat, data: seq<seq<byte>>): Pipe
    requires |data| == n
  {
    Pipe(RingModel.Init(ToDevice, n, data), [], false, Idle, 0, 0, 0, 0, [], [], 0)
  }

  datatype PipeEvent =
    | ClientWrite(payload: seq<byte>)   // io_write_stream_net
    | ServerStart                       // client_stream_cmd_handle reads the command
    | ServerGet(w: Wait)                // io_stream_get_buffer
    | ServerHeader                      // tag and size of a frame
    | ServerRecv(k: nat)                // one recv of k bytes, and the submission when the buffer is full
    | Device(e: EngineEvent)

  predicate Enabled(p: Pipe, e: PipeEvent) {
    && Sane(p.ring) && p.ring.cursor < |p.ring.buffers|
    && (p.ring.held.Some? ==> p.ring.held.value < |p.ring.buffers|)
    && match e
       case ClientWrite(payload) => |payload| < WORD && Fits(|Flatten(p.payloads)| % STREAM_SIZE, payload)
       case ServerStart => p.role.Idle? && p.wire != []
       case ServerGet(w) => p.role.Writing? && p.ring.held.None? && HarmlessGet(p.ring, w)
       case ServerHeader => p.role.Writing? && p.ring.held.Some? && p.frameLeft == 0 && p.wire != [] &&
                            (p.wire[0] == CALL_WRITE_STREAM ==> |p.wire| >= 5)
       case ServerRecv(k) => p.role.Writing? && p.ring.held.Some? && 1 <= k <= p.frameLeft && k <= |p.wire|
       case Device(_) => true
  }

  function ClientWriteOf(p: Pipe, payload: seq<byte>): Pipe
    requires |payload| < WORD
  {
    var hello := if p.greeted then [] else [CALL_WRITE_STREAM];
    p.(wire := p.wire + hello + Frame(CALL_WRITE_STREAM, payload), greeted := true,
       payloads := p.payloads + [payload], queued := p.queued + [payload])
  }

  function ServerStartOf(p: Pipe): Pipe
    requires p.wire != []
  {
    p.(wire := p.wire[1..], role := if p.wire[0] == CALL_WRITE_STREAM then Writing else Stopped)
  }

  function ServerGetOf(p: Pipe, w: Wait): Pipe
    requires Sane(p.ring) && p.ring.cursor < |p.ring.buffers|
  {
    var (r, handed) := Get(p.ring, w);
    p.(ring := r, role := if handed then p.role else Stopped)
  }

  function ServerHeaderOf(p: Pipe): Pipe
    requires Enabled(p, ServerHeader)
  {
    if p.wire[0] == CALL_WRITE_STREAM then
      p.(wire := p.wire[5..], frameLeft := Decode32(p.wire[1..5]),
         queued := if p.queued == [] then [] else p.queued[1..])
    else p.(wire := p.wire[1..], desyncs := p.desyncs + 1)
  }

  function ServerRecvOf(p: Pipe, k: nat): Pipe
    requires Enabled(p, ServerRecv(k))
  {
    var r := Fill(p.ring, p.ptr, p.wire[..k]);
    var q := p.(wire := p.wire[k..], frameLeft := p.frameLeft - k, accuSize := p.accuSize + k);
    if p.ptr + k >= STREAM_SIZE then
      q.(ring := Submit(r, STREAM_SIZE, Accepted), ptr := 0, streamN := p.streamN + 1)
    else q.(ring := r, ptr := p.ptr + k)
  }

  function NextPipe(p: Pipe, e: PipeEvent): Pipe
    requires Enabled(p, e)
  {
    match e
    case ClientWrite(payload) => ClientWriteOf(p, payload)
    case ServerStart => ServerStartOf(p)
    case ServerGet(w) => ServerGetOf(p, w)
    case ServerHeader => ServerHeaderOf(p)
    case ServerRecv(k) => ServerRecvOf(p, k)
    case Device(ev) => p.(ring := EngineStep(p.ring, ev))
  }

  predicate PipeRun(p: Pipe, es: seq<PipeEvent>, q: Pipe)
    decreases es
  {
    if es == [] then p == q else Enabled(p, es[0]) && PipeRun(NextPipe(p, es[0]), es[1..], q)
  }

  // ---------------------------------------------------------------- what every step keeps

  /** Received bytes in the buffer being filled. */
  function Partial(p: Pipe): seq<byte> {
    if p.ring.held.Some? && p.ring.held.value < |p.ring.buffers| then
      Take(p.ring.buffers[p.ring.held.value].data, p.ptr)
    else []
  }

  /** The channel without the client's one-byte greeting. */
  function Body(p: Pipe): seq<byte> {
    if p.role.Idle? && p.wire != [] then p.wire[1..] else p.wire
  }

  /** The channel holds the rest of the current frame and then whole frames. */
  predicate InStep(p: Pipe) {
    && p.desyncs == 0
    && Sendable(p.queued)
    && p.frameLeft <= |Body(p)|
    && Body(p)[p.frameLeft..] == Frames(CALL_WRITE_STREAM, p.queued)
    && (p.role.Idle? ==> p.ring.held.None? && p.frameLeft == 0)
    && (p.role.Idle? && p.greeted ==> p.wire != [] && p.wire[0] == CALL_WRITE_STREAM)
    && (p.role.Idle? && !p.greeted ==> p.wire == [] && p.queued == [])
    && (!p.role.Idle? ==> p.greeted)
  }

  /** Full buffers have STREAM_SIZE bytes, the counters count, and no remaining frame straddles. */
  predicate Counted(p: Pipe) {
    && p.ptr < STREAM_SIZE && (p.ring.held.None? ==> p.ptr == 0)
    && p.accuSize == p.streamN * STREAM_SIZE + p.ptr
    && |p.ring.sent| == p.streamN
    && (forall j :: 0 <= j < |p.ring.sent| ==> |p.ring.sent[j]| == STREAM_SIZE)
    && p.ptr + p.frameLeft <= STREAM_SIZE
    && NoStraddle((p.ptr + p.frameLeft) % STREAM_SIZE, p.queued)
  }

  function Rest(p: Pipe): seq<byte>
    requires p.frameLeft <= |Body(p)|
  {
    Body(p)[..p.frameLeft] + Flatten(p.queued)
  }

  predicate Conserved(p: Pipe)
    requires p.frameLeft <= |Body(p)|
  {
    Flatten(p.ring.sent) + Partial(p) + Rest(p) == Flatten(p.payloads)
  }

  /** What does not look inside the ring's protocol. */
  predicate Flow(p: Pipe) {
    InStep(p) && Counted(p) && Conserved(p)
  }

  ghost predicate PipeOk(p: Pipe) {
    && Good(p.ring) && p.ring.direction.ToDevice? && Sized(p.ring, STREAM_SIZE)
    && Flow(p)
  }

  lemma PipeInitOk(n: nat, data: seq<seq<byte>>)
    requires n > 0 && |data| == n && forall i :: 0 <= i < n ==> |data[i]| == STREAM_SIZE
    ensures PipeOk(PipeInit(n, data))
  {
    InitGood(ToDevice, n, data);
  }

  lemma AddRemainder(a: nat, b: nat)
    ensures (a % STREAM_SIZE + b) % STREAM_SIZE == (a + b) % STREAM_SIZE
  {
  }

  lemma DropTurns(n: nat, a: nat)
    ensures (n * STREAM_SIZE + a) % STREAM_SIZE == a % STREAM_SIZE
  {
  }

  lemma {:induction false} NoStraddleAppend(at: nat, ps: seq<seq<byte>>, q: seq<byte>)
    requires NoStraddle(at, ps) && at < STREAM_SIZE && Fits((at + |Flatten(ps)|) % STREAM_SIZE, q)
    ensures NoStraddle(at, ps + [q])
    decreases ps
  {
    if ps == [] {
      assert ps + [q] == [q];
    } else {
      assert (ps + [q])[1..] == ps[1..] + [q];
      AddRemainder(at + |ps[0]|, |Flatten(ps[1..])|);
      NoStraddleAppend(After(at, ps[0]), ps[1..], q);
    }
  }

  lemma ClientWriteInStep(p: Pipe, payload: seq<byte>)
    requires InStep(p) && |payload| < WORD
    ensures var q := ClientWriteOf(p, payload); InStep(q) && Rest(q) == Rest(p) + payload
  {
    hide Wire.Frame, Flatten, Frames;
    var q := ClientWriteOf(p, payload);
    FramesAppend(CALL_WRITE_STREAM, p.queued, payload);
    FlattenSnoc(p.queued, payload);
    var f := Wire.Frame(CALL_WRITE_STREAM, payload);
    assert Body(q) == Body(p) + f;
    assert Body(q)[..q.frameLeft] == Body(p)[..p.frameLeft];
    assert Body(q)[q.frameLeft..] == Body(p)[p.frameLeft..] + f;
    assert Body(p)[..p.frameLeft] + (Flatten(p.queued) + payload) == Rest(p) + payload;
  }

  /** Everything written is received or still to come. */
  lemma TotalLength(p: Pipe)
    requires Flow(p) && |Partial(p)| == p.ptr
    ensures |Flatten(p.payloads)| == p.streamN * STREAM_SIZE + p.ptr + p.frameLeft + |Flatten(p.queued)|
  {
    FlattenLength(p.ring.sent);
    assert |Rest(p)| == p.frameLeft + |Flatten(p.queued)|;
  }

  lemma WriteKeepsFit(p: Pipe, payload: seq<byte>)
    requires Flow(p) && Fits(|Flatten(p.payloads)| % STREAM_SIZE, payload) && |payload| < WORD
    requires |Partial(p)| == p.ptr
    ensures NoStraddle((p.ptr + p.frameLeft) % STREAM_SIZE, p.queued + [payload])
  {
    TotalLength(p);
    DropTurns(p.streamN, p.ptr + p.frameLeft + |Flatten(p.queued)|);
    AddRemainder(p.ptr + p.frameLeft, |Flatten(p.queued)|);
    NoStraddleAppend((p.ptr + p.frameLeft) % STREAM_SIZE, p.queued, payload);
  }

  lemma PartialSize(p: Pipe)
    requires Counted(p) && Sized(p.ring, STREAM_SIZE) && (p.ring.held.Some? ==> p.ring.held.value < N(p.ring))
    ensures |Partial(p)| == p.ptr
  {
  }

  lemma ClientWriteOk(p: Pipe, payload: seq<byte>)
    requires PipeOk(p) && Enabled(p, ClientWrite(payload))
    ensures PipeOk(ClientWriteOf(p, payload))
  {
    PartialSize(p);
    ClientWriteFlow(p, payload);
  }

  lemma ClientWriteConserves(p: Pipe, payload: seq<byte>)
    requires InStep(p) && Conserved(p) && |payload| < WORD
    ensures InStep(ClientWriteOf(p, payload)) && Conserved(ClientWriteOf(p, payload))
  {
    ClientWriteInStep(p, payload);
    FlattenSnoc(p.payloads, payload);
    assert Partial(ClientWriteOf(p, payload)) == Partial(p);
    Associate(Flatten(p.ring.sent) + Partial(p), Rest(p), payload);
  }

  lemma FlattenSnoc(ps: seq<seq<byte>>, q: seq<byte>)
    ensures Flatten(ps + [q]) == Flatten(ps) + q
  {
    FlattenAppend(ps, [q]);
    FlattenOne(q);
  }

  lemma ClientWriteFlow(p: Pipe, payload: seq<byte>)
    requires Flow(p) && Fits(|Flatten(p.payloads)| % STREAM_SIZE, payload) && |payload| < WORD
    requires |Partial(p)| == p.ptr
    ensures Flow(ClientWriteOf(p, payload))
  {
    WriteKeepsFit(p, payload);
    ClientWriteCounted(p, payload);
    ClientWriteConserves(p, payload);
  }

  lemma ClientWriteCounted(p: Pipe, payload: seq<byte>)
    requires Counted(p) && |payload| < WORD
    requires NoStraddle((p.ptr + p.frameLeft) % STREAM_SIZE, p.queued + [payload])
    ensures Counted(ClientWriteOf(p, payload))
  {
  }

  lemma ServerStartOk(p: Pipe)
    requires PipeOk(p) && Enabled(p, ServerStart)
    ensures PipeOk(ServerStartOf(p))
  {
    assert Body(ServerStartOf(p)) == Body(p);
  }

  /** In step, the header the server reads next is the one the client wrote next. */
  lemma HeaderInStep(p: Pipe)
    requires InStep(p) && p.role.Writing? && p.frameLeft == 0 && p.queued != []
    ensures |p.wire| >= 5 && p.wire[0] == CALL_WRITE_STREAM && Decode32(p.wire[1..5]) == |p.queued[0]|
    ensures p.wire[5..] == p.queued[0] + Frames(CALL_WRITE_STREAM, p.queued[1..])
    ensures var q := p.(wire := p.wire[5..], frameLeft := Decode32(p.wire[1..5]), queued := p.queued[1..]);
            InStep(q) && Rest(q) == Rest(p)
  {
    assert p.wire == Frames(CALL_WRITE_STREAM, p.queued);
    var f, rest := p.queued[0], Frames(CALL_WRITE_STREAM, p.queued[1..]);
    FrameHead(CALL_WRITE_STREAM, f, rest);
    assert (f + rest)[..|f|] == f && (f + rest)[|f|..] == rest;
    assert Rest(p) == [] + Flatten(p.queued) == Flatten(p.queued);
  }

  /** In step, reading a header is enabled and leaves the server in step. */
  lemma HeaderStep(p: Pipe)
    requires InStep(p) && p.role.Writing? && p.frameLeft == 0 && p.queued != [] && p.ring.held.Some?
    requires Sane(p.ring) && p.ring.cursor < N(p.ring) && p.ring.held.value < N(p.ring)
    ensures Enabled(p, ServerHeader) && InStep(ServerHeaderOf(p)) && p.wire[0] == CALL_WRITE_STREAM
    ensures ServerHeaderOf(p) ==
            p.(wire := p.wire[5..], frameLeft := Decode32(p.wire[1..5]), queued := p.queued[1..])
  {
    HeaderInStep(p);
  }

  lemma ServerHeaderFlow(p: Pipe)
    requires Flow(p) && Enabled(p, ServerHeader)
    ensures Flow(ServerHeaderOf(p))
  {
    assert p.wire == Frames(CALL_WRITE_STREAM, p.queued);
    HeaderInStep(p);
    AddRemainder(p.ptr, |p.queued[0]|);
  }

  lemma ServerHeaderOk(p: Pipe)
    requires PipeOk(p) && Enabled(p, ServerHeader)
    ensures PipeOk(ServerHeaderOf(p))
  {
    ServerHeaderFlow(p);
  }

  lemma DeviceOk(p: Pipe, e: EngineEvent)
    requires PipeOk(p) && Enabled(p, Device(e))
    ensures PipeOk(NextPipe(p, Device(e)))
  {
    EngineStepGood(p.ring, e);
    EngineStepOk(p.ring, e);
    var q := p.(ring := EngineStep(p.ring, e));
    assert q.ring.buffers == p.ring.buffers;
    assert Partial(q) == Partial(p) && Body(q) == Body(p);
  }

  lemma ServerGetFlow(p: Pipe, q: Pipe)
    requires Flow(p) && p.role.Writing? && p.ring.held.None?
    requires q == p.(ring := q.ring, role := q.role) && !q.role.Idle? && q.ring.sent == p.ring.sent
    ensures Flow(q)
  {
    assert Partial(p) == Partial(q) == [];
    assert Body(p) == Body(q);
  }

  lemma ServerGetOk(p: Pipe, w: Wait)
    requires PipeOk(p) && Enabled(p, ServerGet(w))
    ensures PipeOk(ServerGetOf(p, w))
  {
    GetGood(p.ring, w);
    GetOk(p.ring, w);
    GetSized(p.ring, w, STREAM_SIZE);
    ServerGetFlow(p, ServerGetOf(p, w));
  }

  lemma DropTwice(w: seq<byte>, k: nat, m: nat)
    requires k <= m <= |w|
    ensures w[k..][m - k..] == w[m..] && w[..m] == w[..k] + w[k..][..m - k]
  {
  }

  lemma RecvFrame(p: Pipe, k: nat)
    requires Enabled(p, ServerRecv(k))
    ensures var q := ServerRecvOf(p, k);
            && q.wire == p.wire[k..] && q.frameLeft == p.frameLeft - k && q.queued == p.queued
            && q.role == p.role && q.greeted == p.greeted && q.desyncs == p.desyncs
  {
  }

  /** Bytes leave the front of the current frame. */
  lemma FrameShrinks(p: Pipe, q: Pipe, k: nat)
    requires InStep(p) && p.role.Writing? && k <= p.frameLeft
    requires q.wire == p.wire[k..] && q.frameLeft == p.frameLeft - k && q.queued == p.queued
    requires q.role == p.role && q.greeted == p.greeted && q.desyncs == p.desyncs
    ensures InStep(q) && Rest(p) == p.wire[..k] + Rest(q)
  {
    DropTwice(p.wire, k, p.frameLeft);
    Associate(p.wire[..k], q.wire[..q.frameLeft], Flatten(p.queued));
  }

  lemma RecvSplit(p: Pipe, k: nat)
    requires InStep(p) && Enabled(p, ServerRecv(k))
    ensures InStep(ServerRecvOf(p, k)) && Rest(p) == p.wire[..k] + Rest(ServerRecvOf(p, k))
  {
    RecvFrame(p, k);
    FrameShrinks(p, ServerRecvOf(p, k), k);
  }

  /** The composed server as Rechunk sees it. */
  function Chunks(p: Pipe): Server {
    Server(Partial(p), p.ring.sent, p.accuSize, p.streamN)
  }

  lemma FillSized(r: Ring, at: nat, part: seq<byte>)
    requires Sized(r, STREAM_SIZE) && r.held.Some? && r.held.value < N(r) && at < STREAM_SIZE
    ensures var t := Fill(r, at, part); var data := t.buffers[r.held.value].data;
            && Sized(t, STREAM_SIZE)
            && (at + |part| <= STREAM_SIZE ==> data[..at + |part|] == r.buffers[r.held.value].data[..at] + part)
            && (at + |part| >= STREAM_SIZE ==> data == (r.buffers[r.held.value].data[..at] + part)[..STREAM_SIZE])
  {
  }

  /** One recv, with the submission when the buffer is full, is one step of Rechunk, straddling or not. */
  lemma RecvIsAbsorb(p: Pipe, k: nat)
    requires Sized(p.ring, STREAM_SIZE) && p.ptr < STREAM_SIZE && Enabled(p, ServerRecv(k))
    ensures Sized(ServerRecvOf(p, k).ring, STREAM_SIZE)
    ensures Chunks(ServerRecvOf(p, k)) == Absorb(Chunks(p), p.wire[..k])
  {
    FillSized(p.ring, p.ptr, p.wire[..k]);
    if p.ptr + k >= STREAM_SIZE {
      var full := Fill(p.ring, p.ptr, p.wire[..k]);
      assert full.buffers[p.ring.held.value].data[..STREAM_SIZE] == full.buffers[p.ring.held.value].data;
      SubmitSized(full, STREAM_SIZE, Accepted, STREAM_SIZE);
    }
  }

  lemma RecvCounted(p: Pipe, k: nat)
    requires Counted(p) && Sized(p.ring, STREAM_SIZE) && Enabled(p, ServerRecv(k))
    ensures Counted(ServerRecvOf(p, k))
  {
    RecvIsAbsorb(p, k);
    RecvPosition(p, k);
    AbsorbKeeps(Chunks(p), p.wire[..k]);
  }

  lemma RecvPosition(p: Pipe, k: nat)
    requires p.ptr + p.frameLeft <= STREAM_SIZE && Enabled(p, ServerRecv(k))
    ensures var q := ServerRecvOf(p, k);
            && q.ptr == (if p.ptr + k == STREAM_SIZE then 0 else p.ptr + k)
            && (q.ring.held.None? ==> q.ptr == 0) && q.frameLeft == p.frameLeft - k && q.queued == p.queued
            && (q.ptr + q.frameLeft) % STREAM_SIZE == (p.ptr + p.frameLeft) % STREAM_SIZE
  {
  }

  lemma RecvFlow(p: Pipe, k: nat)
    requires Flow(p) && Sized(p.ring, STREAM_SIZE) && Enabled(p, ServerRecv(k))
    ensures Sized(ServerRecvOf(p, k).ring, STREAM_SIZE) && Flow(ServerRecvOf(p, k))
  {
    RecvSplit(p, k);
    RecvCounted(p, k);
    RecvIsAbsorb(p, k);
    AbsorbKeeps(Chunks(p), p.wire[..k]);
    Associate(Flatten(p.ring.sent) + Partial(p), p.wire[..k], Rest(ServerRecvOf(p, k)));
  }

  lemma RecvGood(p: Pipe, k: nat)
    requires Good(p.ring) && Enabled(p, ServerRecv(k))
    ensures Good(ServerRecvOf(p, k).ring)
  {
    FillGood(p.ring, p.ptr, p.wire[..k]);
    if p.ptr + k >= STREAM_SIZE { SubmitGood(Fill(p.ring, p.ptr, p.wire[..k]), STREAM_SIZE, Accepted); }
  }

  lemma ServerRecvOk(p: Pipe, k: nat)
    requires PipeOk(p) && Enabled(p, ServerRecv(k))
    ensures PipeOk(ServerRecvOf(p, k))
  {
    RecvGood(p, k);
    RecvFlow(p, k);
  }

  lemma NextPipeOk(p: Pipe, e: PipeEvent)
    requires PipeOk(p) && Enabled(p, e)
    ensures PipeOk(NextPipe(p, e))
  {
    match e
    case ClientWrite(payload) => ClientWriteOk(p, payload);
    case ServerStart => ServerStartOk(p);
    case ServerGet(w) => ServerGetOk(p, w);
    case ServerHeader => ServerHeaderOk(p);
    case ServerRecv(k) => ServerRecvOk(p, k);
    case Device(ev) => DeviceOk(p, ev);
  }

  lemma {:induction false} PipeRunOk(p: Pipe, es: seq<PipeEvent>, q: Pipe)
    requires PipeOk(p) && PipeRun(p, es, q)
    ensures PipeOk(q)
    decreases es
  {
    if es != [] {
      NextPipeOk(p, es[0]);
      PipeRunOk(NextPipe(p, es[0]), es[1..], q);
    }
  }

  lemma PipeRunCons(p: Pipe, e: PipeEvent, es: seq<PipeEvent>, r: Pipe)
    requires Enabled(p, e) && PipeRun(NextPipe(p, e), es, r)
    ensures PipeRun(p, [e] + es, r)
  {
    assert ([e] + es)[1..] == es;
  }

  lemma HeadAppend<T>(es: seq<T>, fs: seq<T>)
    requires es != []
    ensures [es[0]] + (es[1..] + fs) == es + fs
  {
  }

  lemma {:induction false} PipeRunAppend(p: Pipe, es: seq<PipeEvent>, q: Pipe, fs: seq<PipeEvent>, r: Pipe)
    requires PipeRun(p, es, q) && PipeRun(q, fs, r)
    ensures PipeRun(p, es + fs, r)
    decreases es
  {
    if es == [] {
      assert es + fs == fs;
      assert PipeRun(q, es + fs, r);
    } else {
      PipeRunAppend(NextPipe(p, es[0]), es[1..], q, fs, r);
      PipeRunCons(p, es[0], es[1..] + fs, r);
      HeadAppend(es, fs);
    }
  }

  lemma PipeRunOne(p: Pipe, e: PipeEvent)
    requires Enabled(p, e)
    ensures PipeRun(p, [e], NextPipe(p, e))
  {
    assert [e][1..] == [];
    assert PipeRun(NextPipe(p, e), [], NextPipe(p, e));
  }

  lemma PipeRunNone(p: Pipe)
    ensures PipeRun(p, [], p)
  {
  }

  // ---------------------------------------------------------------- what a run did

  /** What the client wrote in a run. */
  function Written(es: seq<PipeEvent>): seq<seq<byte>> {
    if es == [] then [] else (if es[0].ClientWrite? then [es[0].payload] else []) + Written(es[1..])
  }

  lemma {:induction false} RunWrites(p: Pipe, es: seq<PipeEvent>, q: Pipe)
    requires PipeRun(p, es, q)
    ensures q.payloads == p.payloads + Written(es)
    decreases es
  {
    if es != [] {
      RunWrites(NextPipe(p, es[0]), es[1..], q);
      if es[0].ClientWrite? { Associate(p.payloads, [es[0].payload], Written(es[1..])); }
    }
  }

  /** What a step means to the ring. */
  function RingEventsOf(p: Pipe, e: PipeEvent): seq<Event>
    requires Enabled(p, e)
  {
    match e
    case ServerGet(w) => [GetBuffer(w)]
    case ServerRecv(k) =>
      [FillBuffer(p.ptr, p.wire[..k])]
      + if p.ptr + k >= STREAM_SIZE then [SubmitBuffer(STREAM_SIZE, Accepted)] else []
    case Device(ev) => [Engine(ev)]
    case _ => []
  }

  function RingEvents(p: Pipe, es: seq<PipeEvent>): seq<Event>
    decreases es
  {
    if es == [] || !Enabled(p, es[0]) then [] else RingEventsOf(p, es[0]) + RingEvents(NextPipe(p, es[0]), es[1..])
  }

  lemma SafeOne(s: Ring, e: Event)
    requires Allowed(s, e) && Harmless(s, e)
    ensures SafeRun(s, [e], RingModel.Next(s, e))
  {
    assert [e][1..] == [];
    assert SafeRun(RingModel.Next(s, e), [], RingModel.Next(s, e));
  }

  lemma RecvRing(p: Pipe, k: nat)
    requires Enabled(p, ServerRecv(k)) && Sized(p.ring, STREAM_SIZE) && p.ptr + p.frameLeft <= STREAM_SIZE
    ensures SafeRun(p.ring, RingEventsOf(p, ServerRecv(k)), ServerRecvOf(p, k).ring)
  {
    hide SafeRun, Submit;
    var fill, submit := FillBuffer(p.ptr, p.wire[..k]), SubmitBuffer(STREAM_SIZE, Accepted);
    var r := Fill(p.ring, p.ptr, p.wire[..k]);
    SafeOne(p.ring, fill);
    if p.ptr + k >= STREAM_SIZE {
      SafeOne(r, submit);
      SafeAppend(p.ring, [fill], r, [submit], RingModel.Next(r, submit));
      assert RingEventsOf(p, ServerRecv(k)) == [fill] + [submit];
    } else {
      assert RingEventsOf(p, ServerRecv(k)) == [fill];
    }
  }

  lemma StepRing(p: Pipe, e: PipeEvent)
    requires PipeOk(p) && Enabled(p, e)
    ensures SafeRun(p.ring, RingEventsOf(p, e), NextPipe(p, e).ring)
  {
    hide Good, InStep, Conserved;
    match e
    case ServerGet(w) => SafeOne(p.ring, GetBuffer(w));
    case ServerRecv(k) => RecvRing(p, k);
    case Device(ev) => SafeOne(p.ring, Engine(ev));
    case _ =>
  }

  /** A run of the composed system is a safe run of the ring in it. */
  lemma {:induction false} RunRing(p: Pipe, es: seq<PipeEvent>, q: Pipe)
    requires PipeOk(p) && PipeRun(p, es, q)
    ensures SafeRun(p.ring, RingEvents(p, es), q.ring)
    decreases es
  {
    hide PipeOk, Enabled, NextPipe, RingEventsOf;
    if es != [] {
      var p1 := NextPipe(p, es[0]);
      StepRing(p, es[0]);
      NextPipeOk(p, es[0]);
      RunRing(p1, es[1..], q);
      SafeAppend(p.ring, RingEventsOf(p, es[0]), p1.ring, RingEvents(p1, es[1..]), q.ring);
    }
  }

  /** End-to-end conservation, in every reachable state: what the device has received, then what is in flight in the
      ring, then the server's partial buffer, then the rest of the current frame and the frames still in the channel,
      is everything the client has written, in order.  The server is never out of step with the frames. */
  lemma EndToEnd(n: nat, data: seq<seq<byte>>, es: seq<PipeEvent>, p: Pipe)
    requires n > 0 && |data| == n && forall i :: 0 <= i < n ==> |data[i]| == STREAM_SIZE
    requires PipeRun(PipeInit(n, data), es, p)
    ensures Sane(p.ring) && p.frameLeft <= |Body(p)| && p.desyncs == 0
    ensures var frames := Parse(CALL_WRITE_STREAM, Body(p)[p.frameLeft..]);
            && frames.Some?
            && Flatten(Received(n, data, es)) + Flatten(InFlight(p.ring)) + Partial(p)
               + Body(p)[..p.frameLeft] + Flatten(frames.value) == Flatten(Written(es))
    ensures p.accuSize == p.streamN * STREAM_SIZE + p.ptr && |p.ring.sent| == p.streamN && |Partial(p)| == p.ptr
    ensures |Received(n, data, es)| + |p.ring.pending| == p.streamN
    ensures forall j :: 0 <= j < |Received(n, data, es)| ==> |Received(n, data, es)[j]| == STREAM_SIZE
  {
    hide Moments, Packets, RingEvents, Written, PipeRun, SafeRun;
    PipeInitOk(n, data);
    PipeRunOk(PipeInit(n, data), es, p);
    ReceivedIsOutput(n, data, es, p);
    RunWrites(PipeInit(n, data), es, p);
    assert p.payloads == Written(es);
    EndState(p);
  }

  /** The packets the device has received in a run from the start: what the engine found in memory when it ran them. */
  function Received(n: nat, data: seq<seq<byte>>, es: seq<PipeEvent>): seq<seq<byte>>
    requires |data| == n
  {
    Packets(Moments(Init(ToDevice, n, data), RingEvents(PipeInit(n, data), es)))
  }

  lemma ReceivedIsOutput(n: nat, data: seq<seq<byte>>, es: seq<PipeEvent>, p: Pipe)
    requires n > 0 && |data| == n && PipeOk(PipeInit(n, data)) && PipeRun(PipeInit(n, data), es, p)
    ensures p.ring.output == Received(n, data, es)
  {
    hide Moments, Packets, RingEvents, PipeRun, SafeRun, Good, Offers, Kept, KeptTurns, Gets, Reapings;
    RunRing(PipeInit(n, data), es, p);
    FromStart(ToDevice, n, data, RingEvents(PipeInit(n, data), es), p.ring);
  }

  lemma EndState(p: Pipe)
    requires PipeOk(p)
    ensures Sane(p.ring) && p.frameLeft <= |Body(p)| && p.desyncs == 0
    ensures var frames := Parse(CALL_WRITE_STREAM, Body(p)[p.frameLeft..]);
            && frames.Some?
            && Flatten(p.ring.output) + Flatten(InFlight(p.ring)) + Partial(p)
               + Body(p)[..p.frameLeft] + Flatten(frames.value) == Flatten(p.payloads)
    ensures p.accuSize == p.streamN * STREAM_SIZE + p.ptr && |p.ring.sent| == p.streamN && |Partial(p)| == p.ptr
    ensures p.ring.output <= p.ring.sent && |p.ring.output| + |p.ring.pending| == |p.ring.sent|
    ensures forall j :: 0 <= j < |p.ring.output| ==> |p.ring.output[j]| == STREAM_SIZE
  {
    TxSplit(p.ring);
    FlattenAppend(p.ring.output, InFlight(p.ring));
    FramesRoundTrip(CALL_WRITE_STREAM, p.queued);
    Associate(Flatten(p.ring.sent) + Partial(p), Body(p)[..p.frameLeft], Flatten(p.queued));
    forall j | 0 <= j < |p.ring.output| ensures |p.ring.output[j]| == STREAM_SIZE {
      assert p.ring.output[j] == p.ring.sent[j];
    }
  }

  // ---------------------------------------------------------------- everything can be delivered

  /** What the server or the engine can do next about bytes in the channel. */
  lemma ServerMove(p: Pipe) returns (e: PipeEvent)
    requires PipeOk(p) && !p.role.Stopped? && p.wire != []
    ensures Enabled(p, e) && !e.ClientWrite? && !NextPipe(p, e).role.Stopped?
    ensures var q := NextPipe(p, e);
            |q.wire| < |p.wire| || (q.wire == p.wire && p.ring.held.None? && q.ring.held.Some?)
  {
    hide Conserved;
    GoodIsSane(p.ring);
    if p.role.Idle? {
      e := ServerStart;
    } else if p.ring.held.None? {
      e := ServerGet(Wait(Flush(p.ring), Expires));
      GetComes(p);
    } else {
      HeldIsIdle(p.ring);
      if p.frameLeft == 0 {
        e := ServerHeader;
        NextFrameThere(p);
        HeaderStep(p);
      } else {
        e := ServerRecv(p.frameLeft);
      }
    }
  }

  lemma GetComes(p: Pipe)
    requires Good(p.ring) && Sane(p.ring) && p.ring.cursor < N(p.ring) && p.ring.held.None? && p.role.Writing?
    ensures var e := ServerGet(Wait(Flush(p.ring), Expires));
            Enabled(p, e) && NextPipe(p, e).role.Writing? && NextPipe(p, e).ring.held.Some? && NextPipe(p, e).wire == p.wire
  {
    hide Shape, Arc, Slots, Cursor, Reaps, TxOk, RxOk, Flush;
    var w := Wait(Flush(p.ring), Expires);
    GetOk(p.ring, w);
    if !RingInvariant.Idle(p.ring, p.ring.cursor) { EveryTransferEnds(p.ring, p.ring.cursor, Expires); }
  }

  /** Something in the channel between frames is a frame. */
  lemma NextFrameThere(p: Pipe)
    requires InStep(p) && !p.role.Idle? && p.frameLeft == 0 && p.wire != []
    ensures p.queued != []
  {
  }

  /** From every reachable state in which the server has not stopped, it can receive what is in the channel. */
  lemma {:induction false} Drains(p: Pipe) returns (es: seq<PipeEvent>, q: Pipe)
    requires PipeOk(p) && !p.role.Stopped?
    ensures PipeRun(p, es, q) && PipeOk(q) && q.wire == [] && Written(es) == []
    decreases |p.wire|, if p.ring.held.None? then 1 else 0
  {
    hide PipeOk, Enabled, NextPipe;
    if p.wire == [] {
      es, q := [], p;
    } else {
      var e := ServerMove(p);
      NextPipeOk(p, e);
      var rest;
      rest, q := Drains(NextPipe(p, e));
      PipeRunCons(p, e, rest, q);
      es := [e] + rest;
      assert es[1..] == rest;
    }
  }

  lemma {:induction false} DeviceRun(p: Pipe, evs: seq<EngineEvent>) returns (es: seq<PipeEvent>, q: Pipe)
    requires PipeOk(p) && Sane(p.ring)
    ensures PipeRun(p, es, q) && PipeOk(q) && q == p.(ring := EngineRun(p.ring, evs)) && Written(es) == []
    decreases evs
  {
    hide InStep, Counted, Conserved, EngineStep;
    if evs == [] {
      es, q := [], p;
    } else {
      GoodIsSane(p.ring);
      NextPipeOk(p, Device(evs[0]));
      DeviceEnabled(p, evs[0]);
      var rest;
      rest, q := DeviceRun(NextPipe(p, Device(evs[0])), evs[1..]);
      PipeRunCons(p, Device(evs[0]), rest, q);
      es := [Device(evs[0])] + rest;
      assert es[1..] == rest;
    }
  }

  lemma DeviceEnabled(p: Pipe, e: EngineEvent)
    requires PipeOk(p)
    ensures Enabled(p, Device(e))
  {
    GoodIsSane(p.ring);
  }

  /** Nothing gets stuck: from every reachable state in which the server has not stopped there is a way on, without the
      client, at whose end the device has received all full buffers and the rest is in the partial one. */
  lemma EverythingCanArrive(n: nat, data: seq<seq<byte>>, before: seq<PipeEvent>, p: Pipe)
      returns (es: seq<PipeEvent>, q: Pipe)
    requires n > 0 && |data| == n && forall i :: 0 <= i < n ==> |data[i]| == STREAM_SIZE
    requires PipeRun(PipeInit(n, data), before, p) && !p.role.Stopped?
    ensures PipeRun(p, es, q) && Written(es) == [] && q.wire == [] && q.frameLeft == 0
    ensures Flatten(Received(n, data, before + es)) + Partial(q) == Flatten(Written(before))
  {
    hide PipeOk, PipeRun, Written, Received;
    PipeInitOk(n, data);
    PipeRunOk(PipeInit(n, data), before, p);
    es, q := CanArrive(p);
    PipeRunAppend(PipeInit(n, data), before, p, es, q);
    ReceivedIsOutput(n, data, before + es, q);
    RunWrites(PipeInit(n, data), before, p);
    assert p.payloads == Written(before);
  }

  lemma CanArrive(p: Pipe) returns (es: seq<PipeEvent>, q: Pipe)
    requires PipeOk(p) && !p.role.Stopped?
    ensures PipeRun(p, es, q) && Written(es) == []
    ensures q.wire == [] && q.frameLeft == 0 && q.ring.pending == [] && q.ring.landed == []
    ensures Flatten(q.ring.output) + Partial(q) == Flatten(p.payloads)
  {
    hide PipeOk, PipeRun, Written;
    var front, mid := Drains(p);
    PipeIsSane(mid);
    var back;
    back, q := DeviceRun(mid, Flush(mid.ring));
    FlushEmpties(mid.ring);
    PipeRunAppend(p, front, mid, back, q);
    es := front + back;
    WrittenAppend(front, back);
    RunWrites(p, es, q);
    assert q.payloads == p.payloads;
    AllThere(q);
  }

  lemma PipeIsSane(p: Pipe)
    requires PipeOk(p)
    ensures Sane(p.ring)
  {
    GoodIsSane(p.ring);
  }

  lemma {:induction false} WrittenAppend(es: seq<PipeEvent>, fs: seq<PipeEvent>)
    ensures Written(es + fs) == Written(es) + Written(fs)
  {
    if es == [] {
      assert es + fs == fs;
    } else {
      assert (es + fs)[1..] == es[1..] + fs;
      WrittenAppend(es[1..], fs);
      if es[0].ClientWrite? { Associate([es[0].payload], Written(es[1..]), Written(fs)); }
    }
  }

  lemma AllThere(q: Pipe)
    requires PipeOk(q) && q.wire == [] && q.ring.pending == []
    ensures q.frameLeft == 0 && Flatten(q.ring.output) + Partial(q) == Flatten(q.payloads)
  {
    TxSplit(q.ring);
    assert InFlight(q.ring) == [] && q.ring.output + [] == q.ring.output;
    assert Body(q) == [];
    assert Rest(q) == [];
  }
}
