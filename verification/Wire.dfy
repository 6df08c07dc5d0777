/** Bytes on the wire between lib/bbio/src/bbio_backend_net.c and userspace/io_backend/src/io_backend_call.c:
    one-byte tags, 32-bit fields in the little-endian order both ends have, and length-prefixed frames. */
module Wire {
  import opened Common

  const CALL_WRITE: byte := 2
  const CALL_READ: byte := 3
  const CALL_WRITE_STREAM: byte := 6
  const CALL_READ_STREAM: byte := 7

  /** The tag of a frame sent to a reading client: CALL_READ_STREAM << 1. */
  const READ_FRAME: byte := 14

  const WORD: nat := 0x1_0000_0000

  type u32 = x: int | 0 <= x < WORD

  function Encode32(x: u32): (bs: seq<byte>)
    ensures |bs| == 4
  {
    [x % 256, x / 256 % 256, x / 65536 % 256, x / 16777216]
  }

  function Decode32(bs: seq<byte>): u32
    requires |bs| == 4
  {
    var b0: int, b1: int, b2: int, b3: int := bs[0], bs[1], bs[2], bs[3];
    b0 + 256 * b1 + 65536 * b2 + 16777216 * b3
  }

  lemma WordRoundTrip(x: u32)
    ensures Decode32(Encode32(x)) == x
  {
    assert x / 65536 == x / 256 / 256 && x / 16777216 == x / 256 / 256 / 256;
  }

  /** The order of the bytes: least significant first. */
  lemma LittleEndian(x: u32)
    ensures var bs := Encode32(x);
            x == (bs[0] as int) + 0x100 * (bs[1] as int) + 0x1_0000 * (bs[2] as int) + 0x100_0000 * (bs[3] as int)
  {
    WordRoundTrip(x);
  }

  function Frame(tag: byte, payload: seq<byte>): (f: seq<byte>)
    requires |payload| < WORD
    ensures |f| == 5 + |payload|
  {
    [tag] + Encode32(|payload|) + payload
  }

  predicate Sendable(payloads: seq<seq<byte>>) {
    forall i :: 0 <= i < |payloads| ==> |payloads[i]| < WORD
  }

  function Frames(tag: byte, payloads: seq<seq<byte>>): seq<byte>
    requires Sendable(payloads)
  {
    if payloads == [] then [] else Frame(tag, payloads[0]) + Frames(tag, payloads[1..])
  }

  lemma {:induction false} FramesAppend(tag: byte, ps: seq<seq<byte>>, q: seq<byte>)
    requires Sendable(ps) && |q| < WORD
    ensures Frames(tag, ps + [q]) == Frames(tag, ps) + Frame(tag, q)
  {
    if ps == [] {
      assert [q][1..] == [];
      assert Frames(tag, [q]) == Frame(tag, q) + [];
      assert ps + [q] == [q];
    } else {
      FramesAppend(tag, ps[1..], q);
      assert (ps + [q])[1..] == ps[1..] + [q];
      var f, r := Frame(tag, ps[0]), Frames(tag, ps[1..]);
      assert f + (r + Frame(tag, q)) == (f + r) + Frame(tag, q);
    }
  }

  /** The size field of a frame at the head of a stream. */
  lemma FrameHead(tag: byte, p: seq<byte>, rest: seq<byte>)
    requires |p| < WORD
    ensures var w := Frame(tag, p) + rest;
            w[0] == tag && Decode32(w[1..5]) == |p| && w[5..] == p + rest
  {
    var w := Frame(tag, p) + rest;
    assert w[1..5] == Encode32(|p|);
    WordRoundTrip(|p|);
  }

  /** Reads a stream of whole frames back into payloads; None if it is not one. */
  function Parse(tag: byte, w: seq<byte>): Option<seq<seq<byte>>> {
    if w == [] then Some([])
    else if |w| < 5 || w[0] != tag || 5 + Decode32(w[1..5]) > |w| then None
    else
      var n := Decode32(w[1..5]);
      match Parse(tag, w[5 + n..])
      case None => None
      case Some(ps) => Some([w[5..5 + n]] + ps)
  }

  /** Framing loses nothing: frame boundaries and contents come back. */
  lemma {:induction false} FramesRoundTrip(tag: byte, ps: seq<seq<byte>>)
    requires Sendable(ps)
    ensures Parse(tag, Frames(tag, ps)) == Some(ps)
  {
    if ps != [] {
      var rest := Frames(tag, ps[1..]);
      FrameHead(tag, ps[0], rest);
      FramesRoundTrip(tag, ps[1..]);
      var w := Frame(tag, ps[0]) + rest;
      assert w[5 + |ps[0]|..] == w[5..][|ps[0]|..] == rest;
      assert w[5..5 + |ps[0]|] == w[5..][..|ps[0]|] == ps[0];
      assert [ps[0]] + ps[1..] == ps;
    }
  }
}
