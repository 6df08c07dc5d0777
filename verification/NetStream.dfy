/** The two ends of a remote stream: the client functions of lib/bbio/src/bbio_backend_net.c and the server loops of
    userspace/io_backend/src/io_backend_call.c, over a byte socket.

    A `Splitter` decides how much each recv returns.  One- and four-byte fields are received whole. */
module NetStream {
  import opened Common
  import opened Wire
  import opened Rechunk
  import opened Pipeline

  class Socket {
    var incoming: seq<byte>   // sent by the peer, not yet received
    var outgoing: seq<byte>   // everything sent to the peer
    var received: nat         // stream position

    constructor (incoming: seq<byte>)
      ensures this.incoming == incoming && outgoing == [] && received == 0
    {
      this.incoming := incoming;
      outgoing := [];
      received := 0;
    }

    method Send(bs: seq<byte>)
      modifies this
      ensures outgoing == old(outgoing) + bs && incoming == old(incoming) && received == old(received)
    {
      outgoing := outgoing + bs;
    }

    method RecvField(n: nat) returns (bs: seq<byte>)
      requires n <= |incoming|
      modifies this
      ensures bs == old(incoming)[..n] && incoming == old(incoming)[n..] && outgoing == old(outgoing)
    {
      bs := incoming[..n];
      incoming := incoming[n..];
      received := received + n;
    }

    /** At least one byte and at most `max`, as the network pleases. */
    method Recv(max: nat, split: Splitter) returns (bs: seq<byte>)
      requires 0 < max <= |incoming|
      modifies this
      ensures 1 <= |bs| <= max && bs == old(incoming)[..|bs|]
      ensures incoming == old(incoming)[|bs|..] && outgoing == old(outgoing)
    {
      var n := RecvSize(split, received, max);
      bs := RecvField(n);
    }
  }

  /** The network carries what one end has sent to the other. */
  method Carry(from: Socket, to: Socket)
    requires from != to
    modifies from, to
    ensures from.outgoing == [] && from.incoming == old(from.incoming)
    ensures to.incoming == old(to.incoming) + old(from.outgoing) && to.outgoing == old(to.outgoing)
  {
    to.incoming := to.incoming + from.outgoing;
    from.outgoing := [];
  }

  // ---------------------------------------------------------------- the client

  /** struct net_device_state and the device's socket. */
  class NetDevice {
    const fd: Socket
    var handshaked: bool
    var remainRecvSize: nat

    constructor (fd: Socket)
      ensures this.fd == fd && !handshaked && remainRecvSize == 0
    {
      this.fd := fd;
      handshaked := false;
      remainRecvSize := 0;
    }

    /** io_write_stream_net: what a write adds to the wire is what Pipeline.ClientWriteOf adds. */
    method WriteStream(data: seq<byte>) returns (size: nat)
      requires |data| < WORD
      modifies this, fd
      ensures handshaked && size == |data| && fd.incoming == old(fd.incoming)
      ensures forall p: Pipe | p.wire == old(fd.outgoing) && p.greeted == old(handshaked) ::
                ClientWriteOf(p, data).wire == fd.outgoing && ClientWriteOf(p, data).greeted == handshaked
    {
      if !handshaked {
        fd.Send([CALL_WRITE_STREAM]);
        handshaked := true;
      }
      fd.Send([CALL_WRITE_STREAM] + Encode32(|data|) + data);
      size := |data|;
    }

    /** io_read_stream_net_basic.  `data` is what has been stored at the caller's pointer. */
    method ReadStreamBasic(split: Splitter) returns (recvSize: nat, data: seq<byte>)
      requires |fd.incoming| >= 1 && (fd.incoming[0] == READ_FRAME ==> WholeFrame(fd.incoming))
      modifies this, fd
      ensures handshaked && fd.outgoing == old(fd.outgoing) + (if old(handshaked) then [] else [CALL_READ_STREAM])
      ensures old(fd.incoming)[0] != READ_FRAME ==>
                recvSize == 0 && data == [] && fd.incoming == old(fd.incoming)[1..]
      ensures old(fd.incoming)[0] == READ_FRAME ==>
                recvSize == Decode32(old(fd.incoming)[1..5]) && (data, fd.incoming) == ReadBack(old(fd.incoming))
    {
      if !handshaked {
        fd.Send([CALL_READ_STREAM]);
        handshaked := true;
        remainRecvSize := 0;
      }
      ghost var all := fd.incoming;
      recvSize := RecvReadHead();
      data := RecvPayload(if recvSize < 0x8000_0000 then recvSize else recvSize - WORD, split);
      if all[0] == READ_FRAME { DropMore(all, 5, |data|); }
    }

    /** The tag and, if it is the expected one, the size. */
    method RecvReadHead() returns (recvSize: nat)
      requires |fd.incoming| >= 1 && (fd.incoming[0] == READ_FRAME ==> WholeFrame(fd.incoming))
      modifies fd
      ensures fd.outgoing == old(fd.outgoing)
      ensures old(fd.incoming)[0] != READ_FRAME ==> recvSize == 0 && fd.incoming == old(fd.incoming)[1..]
      ensures old(fd.incoming)[0] == READ_FRAME ==>
                recvSize == Decode32(old(fd.incoming)[1..5]) && fd.incoming == old(fd.incoming)[5..]
    {
      recvSize := 0;
      var startCmd := fd.RecvField(1);
      if startCmd[0] == READ_FRAME {
        var field := fd.RecvField(4);
        assert field == old(fd.incoming)[1..5];
        recvSize := Decode32(field);
      }
    }

    /** The receive loop. */
    method RecvPayload(size: int, split: Splitter) returns (data: seq<byte>)
      requires size <= |fd.incoming|
      modifies fd
      ensures |data| == (if size > 0 then size else 0) && data == old(fd.incoming)[..|data|]
      ensures fd.incoming == old(fd.incoming)[|data|..] && fd.outgoing == old(fd.outgoing)
    {
      ghost var body := fd.incoming;
      ghost var want := if size > 0 then size else 0;
      var remainSize := size;
      data := [];
      while remainSize > 0
        invariant |data| + (if remainSize > 0 then remainSize else 0) == want <= |body|
        invariant data == body[..|data|] && fd.incoming == body[|data|..] && fd.outgoing == old(fd.outgoing)
      {
        var part := fd.Recv(remainSize, split);
        remainSize := remainSize - |part|;
        data := data + part;
      }
    }
  }

  predicate WholeFrame(stream: seq<byte>) {
    |stream| >= 5 && |stream| >= 5 + Decode32(stream[1..5])
  }

  lemma DropMore(s: seq<byte>, a: nat, b: nat)
    requires a + b <= |s|
    ensures s[a..][..b] == s[a..a + b] && s[a..][b..] == s[a + b..]
  {
  }

  /** The payload stored and the stream left after reading one frame.  The size is kept in a signed int while the
      payload is received, so a size of 2^31 or more receives nothing. */
  function ReadBack(stream: seq<byte>): (seq<byte>, seq<byte>)
    requires WholeFrame(stream)
  {
    var n := Decode32(stream[1..5]);
    var m := if n < 0x8000_0000 then n else 0;
    (stream[5..5 + m], stream[5 + m..])
  }

  /** Reading the frame that a server sent for `payload` gives back `payload` and leaves the rest of the stream,
      exactly when its size fits a signed int. */
  lemma ReadBackIff(payload: seq<byte>, rest: seq<byte>)
    requires |payload| < WORD
    ensures WholeFrame(Wire.Frame(READ_FRAME, payload) + rest)
    ensures ReadBack(Wire.Frame(READ_FRAME, payload) + rest) == (payload, rest) <==> |payload| < 0x8000_0000
  {
    FrameHead(READ_FRAME, payload, rest);
    var w := Wire.Frame(READ_FRAME, payload) + rest;
    if |payload| < 0x8000_0000 {
      DropMore(w, 5, |payload|);
      assert (payload + rest)[..|payload|] == payload && (payload + rest)[|payload|..] == rest;
    }
  }
}
