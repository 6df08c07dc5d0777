/** The server loops of userspace/io_backend/src/io_backend_call.c as methods over a socket and a local DMA stream.

    The engine may act between any two actions of the loop: `env` says how, by stream position. */
module StreamServer {
  import opened Common
  import opened Wire
  import opened Rechunk
  import opened RingModel
  import opened RingTheorems
  import opened DmaStream
  import opened Pipeline
  import opened NetStream

  /** Receives the tag of a frame and, if it is the expected one, the size. */
  method RecvFrameHead(sock: Socket) returns (startCmd: byte, size: nat)
    requires |sock.incoming| >= 1 && (sock.incoming[0] == CALL_WRITE_STREAM ==> |sock.incoming| >= 5)
    modifies sock
    ensures startCmd == old(sock.incoming)[0] && sock.outgoing == old(sock.outgoing)
    ensures startCmd == CALL_WRITE_STREAM ==>
              size == Decode32(old(sock.incoming)[1..5]) && sock.incoming == old(sock.incoming)[5..]
    ensures startCmd != CALL_WRITE_STREAM ==> size == 0 && sock.incoming == old(sock.incoming)[1..]
  {
    var tag := sock.RecvField(1);
    startCmd, size := tag[0], 0;
    if startCmd == CALL_WRITE_STREAM {
      var field := sock.RecvField(4);
      assert field == old(sock.incoming)[1..5];
      size := Decode32(field);
    }
  }

  lemma GetKeepsStep(p: Pipe, w: Wait)
    requires Sane(p.ring) && p.ring.cursor < |p.ring.buffers| && InStep(p) && p.role.Writing? && p.ring.held.None?
    requires w.otherwise.Expires?
    ensures Enabled(p, ServerGet(w))
    ensures var q := ServerGetOf(p, w);
            && q == p.(ring := Get(p.ring, w).0, role := q.role) && InStep(q)
            && (Get(p.ring, w).1 ==> q.role.Writing? && q.ring.held == Some(p.ring.cursor))
            && (!Get(p.ring, w).1 ==> q.role.Stopped?)
  {
    assert Body(ServerGetOf(p, w)) == Body(p);
  }

  lemma RecvHolds(p: Pipe, k: nat)
    requires Enabled(p, ServerRecv(k))
    ensures var q := ServerRecvOf(p, k);
            && q.ring.held == (if p.ptr + k >= STREAM_SIZE then None else p.ring.held)
            && q.role == p.role && q.frameLeft == p.frameLeft - k
  {
  }

  /** The client has not written in between. */
  predicate SameWrites(p: Pipe, q: Pipe) {
    q.payloads == p.payloads && q.greeted == p.greeted
  }

  /** client_cmd_write_stream_inf, serving one connection. */
  class WriteServer {
    const d: LocalStream
    const sock: Socket
    var recvSize: nat
    var bufferPtr: nat
    var accuSize: nat
    var streamN: nat
    var chBuffer: Option<nat>   // ch_buffer
    ghost var p: Pipe           // the state of the composed system

    /** The objects are in the state that `p` describes. */
    ghost predicate Tied()
      reads this, sock, d, d.channel, d.channel.buffers, d.channel.done
    {
      && d.Valid() && p.ring == d.State() && p.wire == sock.incoming
      && p.frameLeft == recvSize && p.ptr == bufferPtr && p.accuSize == accuSize && p.streamN == streamN
    }

    /** The server is in its loop with a buffer, or has stopped. */
    ghost predicate Valid()
      reads this, sock, d, d.channel, d.channel.buffers, d.channel.done
    {
      && Tied() && InStep(p)
      && p.role == (if chBuffer.Some? then Writing else Stopped)
      && (chBuffer.Some? ==> p.ring.held.Some? && chBuffer.value == d.start + BUFFER_STRIDE * p.ring.held.value)
    }

    /** Takes over after client_stream_cmd_handle has read the command, and gets the first buffer. */
    constructor (d: LocalStream, sock: Socket, ghost p: Pipe, w: Wait)
      requires d.Valid() && p.ring == d.State() && p.wire == sock.incoming && InStep(p)
      requires p.role.Writing? && p.ring.held.None? && w.otherwise.Expires?
      requires p.frameLeft == p.ptr == p.accuSize == p.streamN == 0
      modifies d, d.channel, d.channel.buffers, d.channel.done
      ensures Valid() && this.d == d && this.sock == sock && this.p == ServerGetOf(p, w)
    {
      this.d, this.sock, this.p := d, sock, p;
      recvSize, bufferPtr, accuSize, streamN, chBuffer := 0, 0, 0, 0, None;
      new;
      NextBuffer(w);
    }

    /** The engine moves while the server waits. */
    method Meanwhile(es: seq<EngineEvent>) returns (ghost steps: seq<PipeEvent>)
      requires Valid()
      modifies this`p, d.channel, d.channel.buffers, d.channel.done
      ensures Valid() && p.queued == old(p.queued) && SameWrites(old(p), p) && PipeRun(old(p), steps, p)
    {
      steps := [];
      PipeRunNone(p);
      var i := 0;
      while i < |es|
        invariant Valid() && i <= |es| && p.queued == old(p.queued) && SameWrites(old(p), p) && PipeRun(old(p), steps, p)
      {
        ghost var was := p;
        Engine(es[i]);
        PipeRunOne(was, Device(es[i]));
        PipeRunAppend(old(p), steps, was, [Device(es[i])], p);
        steps := steps + [Device(es[i])];
        i := i + 1;
      }
    }

    method Engine(e: EngineEvent)
      requires Valid()
      modifies this`p, d.channel, d.channel.buffers, d.channel.done
      ensures Valid() && Enabled(old(p), Device(e)) && p == NextPipe(old(p), Device(e))
    {
      d.channel.EngineActs(e);
      p := p.(ring := d.State());
      assert Body(p) == old(Body(p));
    }

    /** The start of the outer loop: tag and size. */
    method ReceiveHeader()
      requires Valid() && chBuffer.Some? && recvSize == 0 && p.queued != []
      modifies this`p, this`recvSize, sock
      ensures Valid() && Enabled(old(p), ServerHeader) && p == ServerHeaderOf(old(p))
      ensures p.queued == old(p.queued)[1..] && sock.outgoing == old(sock.outgoing)
    {
      HeaderStep(p);
      var startCmd, size := RecvFrameHead(sock);
      recvSize := size;
      p := ServerHeaderOf(p);
    }

    /** One recv into the buffer. */
    method Store(split: Splitter) returns (n: nat)
      requires d.Valid() && d.State().held.Some? && 0 < recvSize <= |sock.incoming|
      requires chBuffer == Some(d.start + BUFFER_STRIDE * d.State().held.value)
      modifies this`recvSize, this`bufferPtr, this`accuSize, sock, d.channel, d.channel.buffers
      ensures 1 <= n <= old(recvSize) && recvSize == old(recvSize) - n
      ensures bufferPtr == old(bufferPtr) + n && accuSize == old(accuSize) + n
      ensures sock.incoming == old(sock.incoming)[n..] && sock.outgoing == old(sock.outgoing)
      ensures d.Valid() && d.State() == Fill(old(d.State()), old(bufferPtr), old(sock.incoming)[..n])
      ensures d.State().held == old(d.State()).held
    {
      var part := sock.Recv(recvSize, split);
      d.FillBuffer(chBuffer.value, bufferPtr, part);
      n := |part|;
      recvSize := recvSize - n;
      bufferPtr := bufferPtr + n;
      accuSize := accuSize + n;
    }

    /** One recv, and the submission of the buffer if that filled it; then a new buffer is needed. */
    method ReceiveChunk(split: Splitter) returns (n: nat, full: bool)
      requires Valid() && chBuffer.Some? && recvSize > 0
      modifies this, sock, d, d.channel, d.channel.buffers, d.channel.done
      ensures Enabled(old(p), ServerRecv(n)) && p == ServerRecvOf(old(p), n) && full == p.ring.held.None?
      ensures Tied() && InStep(p) && recvSize < old(recvSize) && chBuffer == old(chBuffer)
      ensures sock.outgoing == old(sock.outgoing)
      ensures !full ==> Valid()
    {
      hide Fill, Submit, Frames, Flatten, Sendable;
      n := Store(split);
      RecvSplit(p, n);
      RecvHolds(p, n);
      p := ServerRecvOf(p, n);
      full := bufferPtr >= STREAM_SIZE;
      if full {
        var _ := d.WriteStream(chBuffer.value, STREAM_SIZE, Accepted);
        bufferPtr := 0;
        streamN := streamN + 1;
      }
    }

    /** io_stream_get_buffer; null stops the server. */
    method NextBuffer(w: Wait)
      requires Tied() && InStep(p) && p.ring.held.None? && p.role.Writing? && w.otherwise.Expires?
      modifies this`p, this`chBuffer, d, d.channel, d.channel.buffers, d.channel.done
      ensures Valid() && Enabled(old(p), ServerGet(w)) && p == ServerGetOf(old(p), w)
    {
      GetKeepsStep(p, w);
      hide Enabled, Get, InStep, ServerGetOf, Extends, Sane, Frames;
      chBuffer := d.GetBuffer(w);
      p := ServerGetOf(p, w);
    }

    /** One turn of the inner loop. */
    method Turn(split: Splitter, w: Wait, env: nat -> seq<EngineEvent>) returns (ghost steps: seq<PipeEvent>)
      requires Valid() && chBuffer.Some? && recvSize > 0 && w.otherwise.Expires?
      modifies this, sock, d, d.channel, d.channel.buffers, d.channel.done
      ensures Valid() && p.queued == old(p.queued) && SameWrites(old(p), p)
      ensures recvSize < old(recvSize) && sock.outgoing == old(sock.outgoing) && PipeRun(old(p), steps, p)
    {
      steps := Meanwhile(env(sock.received));
      ghost var was := p;
      var n, full := ReceiveChunk(split);
      PipeRunOne(was, ServerRecv(n));
      PipeRunAppend(old(p), steps, was, [ServerRecv(n)], p);
      steps := steps + [ServerRecv(n)];
      if full {
        was := p;
        NextBuffer(w);
        PipeRunOne(was, ServerGet(w));
        PipeRunAppend(old(p), steps, was, [ServerGet(w)], p);
        steps := steps + [ServerGet(w)];
      }
    }

    /** One turn of the outer loop: a whole frame and its acknowledgement, with the engine moving between any two
        recvs.  If the library hands out no buffer, the server stops there.  Whatever happens is a run of Pipeline. */
    method ServeFrame(split: Splitter, waits: nat -> Wait, env: nat -> seq<EngineEvent>)
        returns (ghost steps: seq<PipeEvent>)
      requires Valid() && chBuffer.Some? && recvSize == 0 && p.queued != []
      requires forall i :: waits(i).otherwise.Expires?
      modifies this, sock, d, d.channel, d.channel.buffers, d.channel.done
      ensures Valid() && p.queued == old(p.queued)[1..] && SameWrites(old(p), p)
      ensures chBuffer.Some? ==> recvSize == 0
      ensures sock.outgoing == old(sock.outgoing) + [1] && PipeRun(old(p), steps, p)
    {
      ReceiveHeader();
      PipeRunOne(old(p), ServerHeader);
      steps := [ServerHeader];
      while recvSize > 0 && chBuffer.Some?
        invariant Valid() && p.queued == old(p.queued)[1..] && SameWrites(old(p), p) && PipeRun(old(p), steps, p)
        invariant sock.outgoing == old(sock.outgoing)
        decreases recvSize
      {
        ghost var was := p;
        ghost var more := Turn(split, waits(streamN), env);
        PipeRunAppend(old(p), steps, was, more, p);
        steps := steps + more;
      }
      sock.Send([1]);
    }
  }

  // ---------------------------------------------------------------- a whole connection

  lemma {:induction false} NoStraddleAt(at: nat, ps: seq<seq<byte>>, k: nat)
    requires NoStraddle(at, ps) && at < STREAM_SIZE && k < |ps|
    ensures Fits((at + |Flatten(ps[..k])|) % STREAM_SIZE, ps[k])
    decreases k
  {
    if k > 0 {
      NoStraddleAt(After(at, ps[0]), ps[1..], k - 1);
      assert ps[..k][1..] == ps[1..][..k - 1];
      AddRemainder(at + |ps[0]|, |Flatten(ps[1..][..k - 1])|);
    }
  }

  /** One io_write_stream_net at the client, and the network carrying its bytes to the server. */
  method ClientWrites(dev: NetDevice, sock: Socket, payload: seq<byte>, ghost p: Pipe)
    requires dev.fd != sock && dev.fd.outgoing == [] && |payload| < WORD
    requires p.wire == sock.incoming && p.greeted == dev.handshaked
    modifies dev, dev.fd, sock
    ensures dev.fd.outgoing == [] && dev.handshaked && sock.outgoing == old(sock.outgoing)
    ensures ClientWriteOf(p, payload).wire == sock.incoming
  {
    ghost var blank := p.(wire := []);
    var _ := dev.WriteStream(payload);
    assert ClientWriteOf(blank, payload).wire == dev.fd.outgoing;
    WriteAppends(p, payload);
    Carry(dev.fd, sock);
  }

  lemma WriteAppends(p: Pipe, payload: seq<byte>)
    requires |payload| < WORD
    ensures ClientWriteOf(p, payload).wire == p.wire + ClientWriteOf(p.(wire := []), payload).wire
  {
    var hello := if p.greeted then [] else [CALL_WRITE_STREAM];
    assert [] + hello == hello;
    Associate(p.wire, hello, Wire.Frame(CALL_WRITE_STREAM, payload));
  }

  /** The state of the composed system after the first write and the command it starts with. */
  function Greeted(n: nat, data: seq<seq<byte>>, payload: seq<byte>): Pipe
    requires |data| == n && |payload| < WORD
  {
    ServerStartOf(ClientWriteOf(PipeInit(n, data), payload))
  }

  lemma GreetedRun(n: nat, data: seq<seq<byte>>, payload: seq<byte>) returns (steps: seq<PipeEvent>)
    requires n > 0 && |data| == n && |payload| < WORD && Fits(0, payload)
    ensures var p := Greeted(n, data, payload);
            && PipeRun(PipeInit(n, data), steps, p) && InStep(p) && p.role.Writing?
            && p.ring == Init(ToDevice, n, data) && p.greeted && p.payloads == p.queued == [payload]
  {
    var p0 := PipeInit(n, data);
    var p1 := ClientWriteOf(p0, payload);
    ClientWriteInStep(p0, payload);
    assert Body(ServerStartOf(p1)) == Body(p1);
    PipeRunOne(p0, ClientWrite(payload));
    PipeRunOne(p1, ServerStart);
    PipeRunAppend(p0, [ClientWrite(payload)], p1, [ServerStart], ServerStartOf(p1));
    steps := [ClientWrite(payload)] + [ServerStart];
  }

  /** A connection between frames: `written` payloads written, `served` frames taken off the channel. */
  ghost predicate Linked(dev: NetDevice, srv: WriteServer, payloads: seq<seq<byte>>, written: nat, served: nat)
    reads dev, dev.fd, srv, srv.sock, srv.d, srv.d.channel, srv.d.channel.buffers, srv.d.channel.done
  {
    && srv.Valid() && dev.fd != srv.sock && dev.fd.outgoing == [] && dev.handshaked == srv.p.greeted
    && served <= written <= |payloads| && srv.p.payloads == payloads[..written]
    && srv.p.queued == payloads[served..written]
    && (srv.chBuffer.Some? ==> srv.recvSize == 0)
  }

  /** The payloads written and the frames served after so many turns, of which turn i finds `arrivals(i)` more. */
  function Progress(turns: nat, arrivals: nat -> nat, total: nat): (r: (nat, nat))
    requires total > 0
    ensures r.1 <= r.0 <= total
  {
    if turns == 0 then (1, 0)
    else
      var (written, served) := Progress(turns - 1, arrivals, total);
      var now := if written + arrivals(turns - 1) < total then written + arrivals(turns - 1) else total;
      (now, if served < now then served + 1 else served)
  }

  /** The client writes its next payload while the server is between frames. */
  method NextWrite(dev: NetDevice, srv: WriteServer, payloads: seq<seq<byte>>, k: nat, ghost served: nat)
      returns (ghost steps: seq<PipeEvent>)
    requires Linked(dev, srv, payloads, k, served) && k < |payloads| && Sendable(payloads) && NoStraddle(0, payloads)
    modifies dev, dev.fd, srv.sock, srv`p
    ensures Linked(dev, srv, payloads, k + 1, served) && PipeRun(old(srv.p), steps, srv.p)
    ensures srv.sock.outgoing == old(srv.sock.outgoing)
  {
    hide NoStraddle, ClientWriteOf, InStep;
    ghost var p := srv.p;
    NoStraddleAt(0, payloads, k);
    ClientWriteInStep(p, payloads[k]);
    ClientWrites(dev, srv.sock, payloads[k], p);
    WriteKeepsRest(p, payloads[k]);
    SliceSnoc(payloads, 0, k);
    SliceSnoc(payloads, served, k);
    srv.p := ClientWriteOf(p, payloads[k]);
    steps := [ClientWrite(payloads[k])];
    PipeRunOne(p, ClientWrite(payloads[k]));
  }

  lemma SliceSnoc<T>(xs: seq<T>, i: nat, k: nat)
    requires i <= k < |xs|
    ensures xs[i..k] + [xs[k]] == xs[i..k + 1]
    ensures i == 0 ==> xs[..k] == xs[i..k] && xs[..k + 1] == xs[i..k + 1]
  {
  }

  lemma WriteKeepsRest(p: Pipe, payload: seq<byte>)
    requires |payload| < WORD
    ensures var q := ClientWriteOf(p, payload);
            q == p.(wire := q.wire, greeted := true, payloads := p.payloads + [payload], queued := p.queued + [payload])
  {
  }

  /** A whole connection from its start: client_stream_cmd_handle and the outer loop of client_cmd_write_stream_inf, for
      `turns` turns or until the library hands out no buffer.  The client writes its payloads between frames at any pace,
      the network splits them as it likes, and the engine acts in between as it likes.  Every turn that finds a frame
      serves exactly one and acknowledges it; what the device has received, what is in flight in the ring and the partial
      buffer are the payloads served, in order, and the frames in the channel are those written since. */
  method Connection(dev: NetDevice, d: LocalStream, sock: Socket, payloads: seq<seq<byte>>, turns: nat,
                    arrivals: nat -> nat, split: Splitter, waits: nat -> Wait, env: nat -> seq<EngineEvent>,
                    ghost n: nat, ghost data: seq<seq<byte>>)
      returns (srv: WriteServer, ghost steps: seq<PipeEvent>, done: nat, written: nat, served: nat)
    requires n > 0 && |data| == n && (forall i :: 0 <= i < n ==> |data[i]| == STREAM_SIZE)
    requires d.Valid() && d.State() == Init(ToDevice, n, data)
    requires dev.fd != sock && dev.fd.outgoing == sock.incoming == sock.outgoing == [] && !dev.handshaked
    requires payloads != [] && Sendable(payloads) && NoStraddle(0, payloads)
    requires forall i :: waits(i).otherwise.Expires?
    modifies dev, dev.fd, sock, d, d.channel, d.channel.buffers, d.channel.done
    ensures fresh(srv) && srv.d == d && srv.sock == sock
    ensures done <= turns && (srv.chBuffer.Some? ==> done == turns)
    ensures (written, served) == Progress(done, arrivals, |payloads|)
    ensures sock.outgoing == Acks(served)
    ensures PipeRun(PipeInit(n, data), steps, srv.p) && Written(steps) == payloads[..written]
    ensures Sane(d.State()) && srv.recvSize <= |sock.incoming| && (srv.chBuffer.Some? ==> srv.recvSize == 0)
    ensures Parse(CALL_WRITE_STREAM, sock.incoming[srv.recvSize..]) == Some(payloads[served..written])
    ensures Flatten(Received(n, data, steps)) + Flatten(InFlight(d.State())) + Partial(srv.p) + sock.incoming[..srv.recvSize]
            == Flatten(payloads[..served])
    ensures srv.accuSize == srv.streamN * STREAM_SIZE + srv.bufferPtr && |d.State().sent| == srv.streamN
  {
    hide InStep, NoStraddle, PipeRun, Progress, Received, Written, Parse;
    srv, steps := Greet(dev, d, sock, payloads, waits(0), n, data);
    assert sock.outgoing == Acks(0);
    steps, done, written, served := ServeTurns(dev, srv, payloads, turns, arrivals, split, waits, env, PipeInit(n, data),
                                               steps);
    ConnectionEnds(n, data, steps, srv.p, payloads, written, served);
  }

  /** One byte for every frame served. */
  function Acks(served: nat): (r: seq<byte>)
    ensures |r| == served && forall i | 0 <= i < served :: r[i] == 1
  {
    seq(served, i => 1)
  }

  /** The turns of the outer loop. */
  method ServeTurns(dev: NetDevice, srv: WriteServer, payloads: seq<seq<byte>>, turns: nat, arrivals: nat -> nat,
                    split: Splitter, waits: nat -> Wait, env: nat -> seq<EngineEvent>, ghost p0: Pipe,
                    ghost before: seq<PipeEvent>)
      returns (ghost steps: seq<PipeEvent>, done: nat, written: nat, served: nat)
    requires Linked(dev, srv, payloads, 1, 0) && PipeRun(p0, before, srv.p) && srv.sock.outgoing == Acks(0)
    requires payloads != [] && Sendable(payloads) && NoStraddle(0, payloads) && forall i :: waits(i).otherwise.Expires?
    modifies dev, dev.fd, srv, srv.sock, srv.d, srv.d.channel, srv.d.channel.buffers, srv.d.channel.done
    ensures PipeRun(p0, steps, srv.p) && Linked(dev, srv, payloads, written, served)
    ensures done <= turns && (srv.chBuffer.Some? ==> done == turns)
    ensures (written, served) == Progress(done, arrivals, |payloads|) && srv.sock.outgoing == Acks(served)
  {
    hide Linked, NoStraddle, PipeRun, Progress;
    ProgressStarts(arrivals, |payloads|);
    steps, done, written, served := before, 0, 1, 0;
    while done < turns && srv.chBuffer.Some?
      invariant Linked(dev, srv, payloads, written, served) && PipeRun(p0, steps, srv.p) && done <= turns
      invariant (written, served) == Progress(done, arrivals, |payloads|) && srv.sock.outgoing == Acks(served)
    {
      ghost var more;
      var found;
      more, written, found := OneTurn(dev, srv, payloads, written, served, arrivals(done), split, waits, env, p0, steps);
      ProgressStep(done, arrivals, |payloads|);
      assert Acks(served + 1) == Acks(served) + [1];
      steps, served, done := more, if found then served + 1 else served, done + 1;
    }
  }

  lemma ProgressStarts(arrivals: nat -> nat, total: nat)
    requires total > 0
    ensures Progress(0, arrivals, total) == (1, 0)
  {
  }

  lemma ProgressStep(turns: nat, arrivals: nat -> nat, total: nat)
    requires total > 0
    ensures var (written, served) := Progress(turns, arrivals, total);
            var now := if written + arrivals(turns) < total then written + arrivals(turns) else total;
            Progress(turns + 1, arrivals, total) == (now, if served < now then served + 1 else served)
  {
  }

  /** What EndToEnd says at the end of a connection. */
  lemma ConnectionEnds(n: nat, data: seq<seq<byte>>, steps: seq<PipeEvent>, p: Pipe, payloads: seq<seq<byte>>,
                       written: nat, served: nat)
    requires n > 0 && |data| == n && (forall i :: 0 <= i < n ==> |data[i]| == STREAM_SIZE)
    requires PipeRun(PipeInit(n, data), steps, p) && InStep(p) && !p.role.Idle? && Sendable(payloads)
    requires served <= written <= |payloads| && p.payloads == payloads[..written] && p.queued == payloads[served..written]
    ensures Sane(p.ring) && p.frameLeft <= |p.wire| && Written(steps) == payloads[..written]
    ensures Parse(CALL_WRITE_STREAM, p.wire[p.frameLeft..]) == Some(payloads[served..written])
    ensures Flatten(Received(n, data, steps)) + Flatten(InFlight(p.ring)) + Partial(p) + p.wire[..p.frameLeft]
            == Flatten(payloads[..served])
    ensures p.accuSize == p.streamN * STREAM_SIZE + p.ptr && |p.ring.sent| == p.streamN
  {
    BetweenFrames(p);
    hide PipeRun, Written, Received, InFlight, InStep, Parse, Body, Partial, Flatten, Frames;
    EndToEnd(n, data, steps, p);
    RunWrites(PipeInit(n, data), steps, p);
    assert p.payloads == Written(steps);
    FramesRoundTrip(CALL_WRITE_STREAM, p.queued);
    RestServed(Flatten(Received(n, data, steps)) + Flatten(InFlight(p.ring)) + Partial(p) + p.wire[..p.frameLeft],
               payloads, served, written);
  }

  /** Without the frames still to be served, what is left are the payloads served. */
  lemma RestServed(front: seq<byte>, payloads: seq<seq<byte>>, served: nat, written: nat)
    requires served <= written <= |payloads|
    requires front + Flatten(payloads[served..written]) == Flatten(payloads[..written])
    ensures front == Flatten(payloads[..served])
  {
    assert payloads[..written] == payloads[..served] + payloads[served..written];
    FlattenAppend(payloads[..served], payloads[served..written]);
    SameFront(front, Flatten(payloads[..served]), Flatten(payloads[served..written]));
  }

  lemma BetweenFrames(p: Pipe)
    requires InStep(p) && !p.role.Idle?
    ensures Sendable(p.queued) && Body(p) == p.wire && p.frameLeft <= |p.wire|
    ensures p.wire[p.frameLeft..] == Frames(CALL_WRITE_STREAM, p.queued)
  {
  }

  lemma SameFront<T>(a: seq<T>, b: seq<T>, c: seq<T>)
    requires a + c == b + c
    ensures a == b
  {
    assert |a + c| == |b + c|;
    assert (a + c)[..|a|] == a && (b + c)[..|b|] == b;
  }

  /** The first write with its greeting, and the server's command handler up to the first buffer. */
  method Greet(dev: NetDevice, d: LocalStream, sock: Socket, payloads: seq<seq<byte>>, w: Wait, ghost n: nat,
               ghost data: seq<seq<byte>>) returns (srv: WriteServer, ghost steps: seq<PipeEvent>)
    requires n > 0 && |data| == n && d.Valid() && d.State() == Init(ToDevice, n, data)
    requires dev.fd != sock && dev.fd.outgoing == sock.incoming == [] && !dev.handshaked && w.otherwise.Expires?
    requires payloads != [] && Sendable(payloads) && NoStraddle(0, payloads)
    modifies dev, dev.fd, sock, d, d.channel, d.channel.buffers, d.channel.done
    ensures fresh(srv) && srv.d == d && srv.sock == sock && Linked(dev, srv, payloads, 1, 0)
    ensures sock.outgoing == old(sock.outgoing) && PipeRun(PipeInit(n, data), steps, srv.p)
  {
    assert Fits(0, payloads[0]);
    hide InStep, NoStraddle, Fits;
    ghost var p0 := PipeInit(n, data);
    steps := GreetedRun(n, data, payloads[0]);
    ClientWrites(dev, sock, payloads[0], p0);
    var _ := sock.RecvField(1);
    ghost var p := Greeted(n, data, payloads[0]);
    srv := new WriteServer(d, sock, p, w);
    PipeRunOne(p, ServerGet(w));
    PipeRunAppend(p0, steps, p, [ServerGet(w)], srv.p);
    steps := steps + [ServerGet(w)];
    assert payloads[..1] == payloads[0..1] == [payloads[0]];
  }

  /** What arrives before a turn: `arrivals` more writes, or all that are left. */
  method SomeWrites(dev: NetDevice, srv: WriteServer, payloads: seq<seq<byte>>, k: nat, ghost served: nat, arrivals: nat,
                    ghost p0: Pipe, ghost before: seq<PipeEvent>) returns (ghost steps: seq<PipeEvent>, written: nat)
    requires Linked(dev, srv, payloads, k, served) && PipeRun(p0, before, srv.p)
    requires Sendable(payloads) && NoStraddle(0, payloads)
    modifies dev, dev.fd, srv.sock, srv`p
    ensures Linked(dev, srv, payloads, written, served) && PipeRun(p0, steps, srv.p)
    ensures written == if k + arrivals < |payloads| then k + arrivals else |payloads|
    ensures srv.sock.outgoing == old(srv.sock.outgoing)
  {
    hide InStep, NoStraddle;
    steps, written := before, k;
    while written < k + arrivals && written < |payloads|
      invariant Linked(dev, srv, payloads, written, served) && PipeRun(p0, steps, srv.p) && k <= written <= k + arrivals
      invariant srv.sock.outgoing == old(srv.sock.outgoing)
    {
      ghost var was := srv.p;
      ghost var more := NextWrite(dev, srv, payloads, written, served);
      PipeRunAppend(p0, steps, was, more, srv.p);
      steps := steps + more;
      written := written + 1;
    }
  }

  /** Some writes arrive, and the server serves a frame if there is one. */
  method OneTurn(dev: NetDevice, srv: WriteServer, payloads: seq<seq<byte>>, k: nat, ghost served: nat, arrivals: nat,
                 split: Splitter, waits: nat -> Wait, env: nat -> seq<EngineEvent>, ghost p0: Pipe,
                 ghost before: seq<PipeEvent>) returns (ghost steps: seq<PipeEvent>, written: nat, found: bool)
    requires Linked(dev, srv, payloads, k, served) && PipeRun(p0, before, srv.p) && srv.chBuffer.Some?
    requires Sendable(payloads) && NoStraddle(0, payloads) && forall i :: waits(i).otherwise.Expires?
    modifies dev, dev.fd, srv, srv.sock, srv.d, srv.d.channel, srv.d.channel.buffers, srv.d.channel.done
    ensures PipeRun(p0, steps, srv.p) && written == (if k + arrivals < |payloads| then k + arrivals else |payloads|)
    ensures found == (served < written)
    ensures Linked(dev, srv, payloads, written, served + if found then 1 else 0)
    ensures srv.sock.outgoing == old(srv.sock.outgoing) + if found then [1] else []
  {
    steps, written := SomeWrites(dev, srv, payloads, k, served, arrivals, p0, before);
    FrameOrNot(srv.p);
    found := srv.sock.incoming != [];
    hide InStep, NoStraddle;
    if found {
      assert payloads[served..written][1..] == payloads[served + 1..written];
      ghost var was := srv.p;
      ghost var more := srv.ServeFrame(split, waits, env);
      PipeRunAppend(p0, steps, was, more, srv.p);
      steps := steps + more;
    }
  }

  /** Between frames there is something in the channel exactly when there is a frame. */
  lemma FrameOrNot(p: Pipe)
    requires InStep(p) && p.role.Writing? && p.frameLeft == 0
    ensures p.wire != [] <==> p.queued != []
  {
    if p.queued != [] { HeaderInStep(p); }
  }
}
