/** How client_cmd_write_stream_inf (userspace/io_backend/src/io_backend_call.c) cuts the payloads of frames into
    DMA buffers, when every recv may return fewer bytes than it was asked for. */
module Rechunk {
  import opened Common

  /** stream_size: MAX_SAMPLES * sizeof(iq_buffer), which is the size of a channel buffer. */
  const STREAM_SIZE: nat := 131072

  /** The buffer being filled, the buffers written to the stream, and the two counters of stream_status. */
  datatype Server = Server(partial: seq<byte>, submitted: seq<seq<byte>>, accuSize: nat, streamN: nat)

  const EMPTY: Server := Server([], [], 0, 0)

  /** The effect of one recv.  The buffer has room for STREAM_SIZE bytes: what a recv puts beyond that is not part
      of what is written to the stream. */
  function Absorb(sv: Server, chunk: seq<byte>): Server {
    var all := sv.partial + chunk;
    if |all| >= STREAM_SIZE then
      Server([], sv.submitted + [all[..STREAM_SIZE]], sv.accuSize + |chunk|, sv.streamN + 1)
    else
      Server(all, sv.submitted, sv.accuSize + |chunk|, sv.streamN)
  }

  /** A way of splitting the byte stream into recvs: how much is on offer at each stream position. */
  type Splitter = nat -> nat

  /** What a recv at `pos` for at most `max` bytes returns: at least one byte. */
  function RecvSize(split: Splitter, pos: nat, max: nat): (k: nat)
    requires max > 0
    ensures 1 <= k <= max
  {
    if split(pos) < 1 then 1 else if split(pos) > max then max else split(pos)
  }

  /** The inner loop: one frame's payload, from stream position `pos` on. */
  function ReceiveFrame(sv: Server, payload: seq<byte>, split: Splitter, pos: nat): Server
    decreases |payload|
  {
    if payload == [] then sv
    else
      var k := RecvSize(split, pos, |payload|);
      ReceiveFrame(Absorb(sv, payload[..k]), payload[k..], split, pos + k)
  }

  /** All frames; each has a header of 5 bytes. */
  function ReceiveAll(sv: Server, payloads: seq<seq<byte>>, split: Splitter, pos: nat): Server
    decreases payloads
  {
    if payloads == [] then sv
    else
      ReceiveAll(ReceiveFrame(sv, payloads[0], split, pos + 5), payloads[1..], split, pos + 5 + |payloads[0]|)
  }

  /** What has reached the stream, or will with the next full buffer. */
  function Delivered(sv: Server): seq<byte> {
    Flatten(sv.submitted) + sv.partial
  }

  predicate Whole(sv: Server) {
    && |sv.partial| < STREAM_SIZE
    && |sv.submitted| == sv.streamN
    && forall i :: 0 <= i < |sv.submitted| ==> |sv.submitted[i]| == STREAM_SIZE
  }

  /** No byte has been cut off so far. */
  predicate Exact(sv: Server) {
    sv.accuSize == sv.streamN * STREAM_SIZE + |sv.partial|
  }

  lemma {:induction false} FlattenLength(ss: seq<seq<byte>>)
    requires forall i :: 0 <= i < |ss| ==> |ss[i]| == STREAM_SIZE
    ensures |Flatten(ss)| == |ss| * STREAM_SIZE
  {
    if ss != [] { FlattenLength(ss[1..]); }
  }

  /** One recv keeps the buffers whole; it cuts something off exactly when it crosses the end of the buffer. */
  lemma AbsorbKeeps(sv: Server, chunk: seq<byte>)
    requires Whole(sv)
    ensures var t := Absorb(sv, chunk);
            && Whole(t) && t.accuSize == sv.accuSize + |chunk|
            && t.accuSize - t.streamN * STREAM_SIZE - |t.partial| ==
               sv.accuSize - sv.streamN * STREAM_SIZE - |sv.partial| +
               (if |sv.partial| + |chunk| > STREAM_SIZE then |sv.partial| + |chunk| - STREAM_SIZE else 0)
            && (|sv.partial| + |chunk| <= STREAM_SIZE ==> Delivered(t) == Delivered(sv) + chunk)
  {
    var t := Absorb(sv, chunk);
    var all := sv.partial + chunk;
    if |all| >= STREAM_SIZE {
      FlattenAppend(sv.submitted, [all[..STREAM_SIZE]]);
      FlattenOne(all[..STREAM_SIZE]);
      if |all| == STREAM_SIZE {
        assert all[..STREAM_SIZE] == all;
        assert Flatten(sv.submitted) + all == Delivered(sv) + chunk;
      }
    } else {
      assert Flatten(sv.submitted) + all == Delivered(sv) + chunk;
    }
  }

  /** The frame fits into what is left of the buffer being filled. */
  predicate Fits(at: nat, payload: seq<byte>) {
    at + |payload| <= STREAM_SIZE
  }

  function After(at: nat, payload: seq<byte>): nat {
    (at + |payload|) % STREAM_SIZE
  }

  /** No frame crosses a multiple of STREAM_SIZE in the concatenated payload, which stands at offset `at`. */
  predicate NoStraddle(at: nat, payloads: seq<seq<byte>>)
    decreases payloads
  {
    payloads == [] || (Fits(at, payloads[0]) && NoStraddle(After(at, payloads[0]), payloads[1..]))
  }

  lemma SplitAppend(before: seq<byte>, part: seq<byte>, k: nat)
    requires k <= |part|
    ensures (before + part[..k]) + part[k..] == before + part
  {
  }

  lemma {:induction false} FrameFits(sv: Server, payload: seq<byte>, split: Splitter, pos: nat)
    requires Whole(sv) && Exact(sv) && Fits(|sv.partial|, payload)
    ensures var t := ReceiveFrame(sv, payload, split, pos);
            && Whole(t) && Exact(t) && t.accuSize == sv.accuSize + |payload|
            && |t.partial| == After(|sv.partial|, payload) && Delivered(t) == Delivered(sv) + payload
    decreases |payload|
  {
    if payload != [] {
      var k := RecvSize(split, pos, |payload|);
      var u := Absorb(sv, payload[..k]);
      AbsorbKeeps(sv, payload[..k]);
      assert |u.partial| == if |sv.partial| + k == STREAM_SIZE then 0 else |sv.partial| + k;
      assert After(|u.partial|, payload[k..]) == After(|sv.partial|, payload);
      FrameFits(u, payload[k..], split, pos + k);
      SplitAppend(Delivered(sv), payload, k);
    } else {
      assert Delivered(sv) + payload == Delivered(sv);
    }
  }

  /** Without straddling, every splitting gives back the payloads, in buffers of exactly STREAM_SIZE bytes. */
  lemma {:induction false} AllFit(sv: Server, payloads: seq<seq<byte>>, split: Splitter, pos: nat)
    requires Whole(sv) && Exact(sv) && NoStraddle(|sv.partial|, payloads)
    ensures var t := ReceiveAll(sv, payloads, split, pos);
            Whole(t) && Exact(t) && Delivered(t) == Delivered(sv) + Flatten(payloads)
    decreases payloads
  {
    if payloads != [] {
      var u := ReceiveFrame(sv, payloads[0], split, pos + 5);
      FrameFits(sv, payloads[0], split, pos + 5);
      AllFit(u, payloads[1..], split, pos + 5 + |payloads[0]|);
      var rest := Flatten(payloads[1..]);
      assert (Delivered(sv) + payloads[0]) + rest == Delivered(sv) + (payloads[0] + rest);
    } else {
      assert Delivered(sv) + Flatten(payloads) == Delivered(sv);
    }
  }

  function Lost(sv: Server): int {
    sv.accuSize - sv.streamN * STREAM_SIZE - |sv.partial|
  }

  lemma {:induction false} FrameLoss(sv: Server, payload: seq<byte>, split: Splitter, pos: nat)
    requires Whole(sv)
    ensures var t := ReceiveFrame(sv, payload, split, pos);
            Whole(t) && t.accuSize == sv.accuSize + |payload| && Lost(t) >= Lost(sv)
    decreases |payload|
  {
    if payload != [] {
      var k := RecvSize(split, pos, |payload|);
      AbsorbKeeps(sv, payload[..k]);
      FrameLoss(Absorb(sv, payload[..k]), payload[k..], split, pos + k);
    }
  }

  /** What is cut off never comes back, and the byte counter counts it. */
  lemma {:induction false} AllLoss(sv: Server, payloads: seq<seq<byte>>, split: Splitter, pos: nat)
    requires Whole(sv)
    ensures var t := ReceiveAll(sv, payloads, split, pos);
            Whole(t) && t.accuSize == sv.accuSize + |Flatten(payloads)| && Lost(t) >= Lost(sv)
    decreases payloads
  {
    if payloads != [] {
      FrameLoss(sv, payloads[0], split, pos + 5);
      AllLoss(ReceiveFrame(sv, payloads[0], split, pos + 5), payloads[1..], split, pos + 5 + |payloads[0]|);
    }
  }

  /** The splitting that always offers everything: each recv returns all it asks for. */
  function Greedy(total: nat): Splitter {
    (pos: nat) => total
  }

  lemma {:induction false} GreedyLoses(sv: Server, payloads: seq<seq<byte>>, total: nat, pos: nat)
    requires Whole(sv) && Exact(sv) && !NoStraddle(|sv.partial|, payloads)
    requires forall i :: 0 <= i < |payloads| ==> |payloads[i]| <= total
    ensures Lost(ReceiveAll(sv, payloads, Greedy(total), pos)) > 0
    decreases payloads
  {
    var split, p := Greedy(total), payloads[0];
    var u := ReceiveFrame(sv, p, split, pos + 5);
    if Fits(|sv.partial|, p) {
      FrameFits(sv, p, split, pos + 5);
      GreedyLoses(u, payloads[1..], total, pos + 5 + |p|);
    } else {
      assert RecvSize(split, pos + 5, |p|) == |p| && p[..|p|] == p && p[|p|..] == [];
      AbsorbKeeps(sv, p);
      assert u == ReceiveFrame(Absorb(sv, p), [], split, pos + 5 + |p|) == Absorb(sv, p);
      AllLoss(u, payloads[1..], split, pos + 5 + |p|);
    }
  }

  function Longest(payloads: seq<seq<byte>>): (m: nat)
    ensures forall i :: 0 <= i < |payloads| ==> |payloads[i]| <= m
  {
    if payloads == [] then 0
    else
      var m := Longest(payloads[1..]);
      assert forall i :: 1 <= i < |payloads| ==> payloads[i] == payloads[1..][i - 1];
      if m > |payloads[0]| then m else |payloads[0]|
  }

  /** The exact condition, which a client can check from the sizes it sends: re-chunking is lossless for every way
      the network may split the stream if and only if no frame straddles a multiple of STREAM_SIZE. */
  lemma LosslessIffNoStraddle(payloads: seq<seq<byte>>, pos: nat)
    ensures NoStraddle(0, payloads) <==>
            forall split: Splitter :: Delivered(ReceiveAll(EMPTY, payloads, split, pos)) == Flatten(payloads)
  {
    if NoStraddle(0, payloads) {
      forall split: Splitter ensures Delivered(ReceiveAll(EMPTY, payloads, split, pos)) == Flatten(payloads) {
        AllFit(EMPTY, payloads, split, pos);
        assert Delivered(EMPTY) == [];
      }
    } else {
      var split := Greedy(Longest(payloads));
      var t := ReceiveAll(EMPTY, payloads, split, pos);
      GreedyLoses(EMPTY, payloads, Longest(payloads), pos);
      AllLoss(EMPTY, payloads, split, pos);
      FlattenLength(t.submitted);
      assert |Delivered(t)| < |Flatten(payloads)|;
    }
  }
}
