/** Two runs of a ring with one buffer in which a signal cuts a wait short and a packet is lost: the client's second
    packet reaches the device in place of the first, or the third in place of the second. */
module RingHarm {
  import opened Common
  import opened RingModel
  import opened RingHistory

  /** A packet of one byte in a buffer of one byte. */
  function One(x: byte, status: Status): seq<Buffer> { [Buffer([x], status, 1)] }

  /** The ring after its client has submitted one packet. */
  function OnePacket(): Ring {
    Ring(ToDevice, One(1, RingModel.Queued), [0], [Transfer(0, 1)], [], 0, 0,
         None, false, [0], [[1]], [0], [], [], [0], [], [])
  }

  const calm: Wait := Wait([], Expires)
  const signal: Wait := Wait([], Interrupted)

  lemma RunCons(s: Ring, e: Event, es: seq<Event>, t: Ring)
    requires Allowed(s, e) && Run(Next(s, e), es, t)
    ensures Run(s, [e] + es, t)
  {
    assert ([e] + es)[1..] == es;
  }

  lemma OverlayOne(a: byte, b: byte)
    ensures Overlay([a], 0, [b]) == [b] && Take([b], 1) == [b]
  {
  }

  lemma OneLong<T>(xs: seq<T>, x: T)
    requires |xs| == 1
    ensures xs == [xs[0]] && xs[0 := x] == [x]
  {
  }

  /** The client's write of one byte, and its submission. */
  lemma WriteOne(s: Ring, x: byte)
    requires Sane(s) && |s.buffers| == 1 && s.cursor == 0 && s.held == Some(0) && |s.buffers[0].data| == 1
    ensures Allowed(s, FillBuffer(0, [x]))
    ensures Next(s, FillBuffer(0, [x])) == s.(buffers := [s.buffers[0].(data := [x])], touched := true)
  {
    OverlayOne(s.buffers[0].data[0], x);
    OneLong(s.buffers[0].data, x);
    OneLong(s.buffers, s.buffers[0].(data := [x]));
  }

  lemma SendOne(s: Ring, x: byte)
    requires Sane(s) && |s.buffers| == 1 && s.cursor == 0 && s.held == Some(0) && s.buffers[0].data == [x]
    ensures Allowed(s, SubmitBuffer(1, Accepted))
    ensures Next(s, SubmitBuffer(1, Accepted)) ==
            s.(buffers := One(x, RingModel.Queued), held := None, touched := false, done := [0],
               pending := s.pending + [Transfer(0, 1)], sent := s.sent + [[x]], accepted := s.accepted + [LastTurn(s)],
               number := [|s.sent|])
  {
    OverlayOne(x, x);
    OneLong(s.buffers, Buffer([x], RingModel.Queued, 1));
    OneLong(s.buffers, s.buffers[0].(length := 1));
    OneLong(s.done, 0);
    OneLong(s.number, |s.sent|);
  }

  lemma OnePacketReachable() returns (es: seq<Event>)
    ensures Run(Init(ToDevice, 1, [[0]]), es, OnePacket()) && SafeRun(Init(ToDevice, 1, [[0]]), es, OnePacket())
  {
    var s0 := Init(ToDevice, 1, [[0]]);
    var s1 := s0.(held := Some(0), handed := [0]);
    assert Allowed(s0, GetBuffer(calm)) && Next(s0, GetBuffer(calm)) == s1;
    var s2 := Next(s1, FillBuffer(0, [1]));
    WriteOne(s1, 1);
    SendOne(s2, 1);
    assert Next(s2, SubmitBuffer(1, Accepted)) == OnePacket();
    es := Three(s0, GetBuffer(calm), FillBuffer(0, [1]), SubmitBuffer(1, Accepted), OnePacket());
  }

  lemma Three(s: Ring, a: Event, b: Event, c: Event, t: Ring) returns (es: seq<Event>)
    requires Allowed(s, a) && Harmless(s, a) && Allowed(Next(s, a), b) && Harmless(Next(s, a), b)
    requires Allowed(Next(Next(s, a), b), c) && Harmless(Next(Next(s, a), b), c) && Next(Next(Next(s, a), b), c) == t
    ensures es == [a, b, c] && Run(s, es, t) && SafeRun(s, es, t)
  {
    hide Allowed, Harmless, Next;
    es := [a, b, c];
    assert es[1..] == [b, c] && [b, c][1..] == [c] && [c][1..] == [];
    assert SafeRun(Next(Next(s, a), b), [c], t);
    assert SafeRun(Next(s, a), [b, c], t);
    SafeIsRun(s, es, t);
  }

  /** The queued transfer runs. */
  lemma RunsOne(s: Ring, x: byte)
    requires Sane(s) && |s.buffers| == 1 && s.cursor == 0 && (s.held == Some(0) || s.held == None)
    requires s.direction.ToDevice? && s.buffers[0].data == [x] && s.pending == [Transfer(0, 1)]
    ensures Allowed(s, Engine(Execute([])))
    ensures Next(s, Engine(Execute([]))) == s.(pending := [], landed := s.landed + [0], output := s.output + [[x]])
  {
    OverlayOne(x, x);
  }

  /** The client overwrites a packet that is queued, and the engine sends what it finds. */
  lemma Overwritten(s: Ring, x: byte) returns (es: seq<Event>, t: Ring)
    requires Sane(s) && |s.buffers| == 1 && s.cursor == 0 && s.held == Some(0) && |s.buffers[0].data| == 1
    requires s.direction.ToDevice? && s.pending == [Transfer(0, 1)]
    ensures Run(s, es, t) && t.sent == s.sent && t.output == s.output + [[x]]
    ensures forall i :: 0 <= i < |es| ==> !es[i].GetBuffer?
  {
    var s1 := Next(s, FillBuffer(0, [x]));
    WriteOne(s, x);
    RunsOne(s1, x);
    t := Next(s1, Engine(Execute([])));
    RunCons(s1, Engine(Execute([])), [], t);
    RunCons(s, FillBuffer(0, [x]), [Engine(Execute([]))] + [], t);
    es := [FillBuffer(0, [x])] + ([Engine(Execute([]))] + []);
  }

  /** A get whose wait is cut short while the transfer is queued: the second fill reaches the device in place of the
      packet submitted. */
  lemma CutShortGetLosesAPacket() returns (es: seq<Event>, s: Ring)
    ensures Run(OnePacket(), es, s) && s.sent == [[1]] && s.output == [[2]]
  {
    var p := OnePacket();
    GetsFailed(p, signal);
    var rest;
    rest, s := Overwritten(Next(p, GetBuffer(signal)), 2);
    RunCons(p, GetBuffer(signal), rest, s);
    es := [GetBuffer(signal)] + rest;
  }

  /** A get that waits and finds the transfer still queued, with or without a completion, hands out the buffer. */
  lemma GetsFailed(s: Ring, w: Wait)
    requires Sane(s) && |s.buffers| == 1 && s.cursor == 0 && s.held == None && !s.buffers[0].status.NoError?
    requires s.pending == [Transfer(0, 1)] && w.during == [] && (w.otherwise.Interrupted? || s.done[0] > 0)
    ensures Allowed(s, GetBuffer(w))
    ensures var c := if s.done[0] > 0 then Consume(s, 0) else s;
            Next(s, GetBuffer(w)) ==
            c.(buffers := [s.buffers[0].(status := Error)], held := Some(0), touched := false, handed := s.handed + [0])
  {
    var busy := SetStatus(s, 0, Busy);
    assert busy.pending[0].index == 0;
    assert !Complete(busy, 0);
    if s.done[0] > 0 { assert !Complete(Consume(busy, 0), 0) by { assert Consume(busy, 0).pending[0].index == 0; } }
  }

  /** A sync whose wait is cut short after the transfer ran, before its callback: the buffer counts as free, and the
      callback, when it comes, completes the next transfer in the driver's eyes. */
  lemma SyncsEarly(s: Ring)
    requires Sane(s) && |s.buffers| == 1 && s.cursor == 0 && s.held == None && !s.buffers[0].status.NoError?
    requires s.pending == [] && s.done == [0]
    ensures Allowed(s, Sync([signal]))
    ensures var t := Next(s, Sync([signal]));
            t == s.(buffers := [s.buffers[0].(status := NoError)], waitCount := t.waitCount, polls := t.polls)
  {
    OneLong(s.buffers, s.buffers[0].(status := NoError));
    var busy := SetStatus(s, 0, Busy);
    assert Complete(busy, 0);
    assert SyncStep(s, 0, signal) == Succeed(busy, 0);
    assert Succeed(busy, 0) == Succeed(s, 0);
    assert SyncFrom(Succeed(s, 0), 1, [signal]) == Succeed(s, 0);
    assert [signal][0] == signal;
    assert SyncFrom(s, 0, [signal]) == SyncFrom(SyncStep(s, 0, signal), 1, [signal]);
  }

  /** No get of this run is cut short, and yet a packet is lost: the sync's wait was. */
  lemma CutShortSyncLosesAPacket() returns (es: seq<Event>, s: Ring)
    ensures Run(OnePacket(), es, s) && s.sent == [[1], [2]] && s.output == [[1], [3]]
    ensures forall i :: 0 <= i < |es| && es[i].GetBuffer? ==> es[i].w.otherwise.Expires?
  {
    hide Next, Allowed, Run, Complete;
    var p := OnePacket();
    var run := Engine(Execute([]));
    RunsOne(p, 1);
    var s1 := Next(p, run);
    SyncsEarly(s1);
    var s2 := Next(s1, Sync([signal]));
    var rest;
    rest, s := SecondPacket(s2);
    RunCons(s1, Sync([signal]), rest, s);
    RunCons(p, run, [Sync([signal])] + rest, s);
    es := [run] + ([Sync([signal])] + rest);
  }

  lemma SecondPacket(s2: Ring) returns (es: seq<Event>, s: Ring)
    requires s2 == OnePacket().(buffers := One(1, NoError), pending := [], landed := [0], output := [[1]], polls := s2.polls,
                                waitCount := s2.waitCount)
    ensures Run(s2, es, s) && s.sent == [[1], [2]] && s.output == [[1], [3]]
    ensures forall i :: 0 <= i < |es| && es[i].GetBuffer? ==> es[i].w.otherwise.Expires?
  {
    var s3 := s2.(held := Some(0), handed := [0, 0]);
    assert Allowed(s2, GetBuffer(calm)) && Next(s2, GetBuffer(calm)) == s3;
    var s4 := Next(s3, FillBuffer(0, [2]));
    WriteOne(s3, 2);
    var s5 := Next(s4, SubmitBuffer(1, Accepted));
    SendOne(s4, 2);
    var rest;
    rest, s := ThirdPacket(s5);
    RunCons(s4, SubmitBuffer(1, Accepted), rest, s);
    RunCons(s3, FillBuffer(0, [2]), [SubmitBuffer(1, Accepted)] + rest, s);
    RunCons(s2, GetBuffer(calm), [FillBuffer(0, [2])] + ([SubmitBuffer(1, Accepted)] + rest), s);
    es := [GetBuffer(calm)] + ([FillBuffer(0, [2])] + ([SubmitBuffer(1, Accepted)] + rest));
  }

  lemma ThirdPacket(s5: Ring) returns (es: seq<Event>, s: Ring)
    requires s5 == Ring(ToDevice, One(2, RingModel.Queued), [0], [Transfer(0, 1)], [0], s5.waitCount, 0,
                        None, false, [0, 0], [[1], [2]], [0, 1], [[1]], [], [1], [], s5.polls)
    ensures Run(s5, es, s) && s.sent == [[1], [2]] && s.output == [[1], [3]]
    ensures forall i :: 0 <= i < |es| && es[i].GetBuffer? ==> es[i].w.otherwise.Expires?
  {
    var s6 := Next(s5, Engine(Callback));
    assert s6 == s5.(landed := [], done := [1]);
    GetsFailed(s6, calm);
    var rest;
    rest, s := Overwritten(Next(s6, GetBuffer(calm)), 3);
    RunCons(s6, GetBuffer(calm), rest, s);
    RunCons(s5, Engine(Callback), [GetBuffer(calm)] + rest, s);
    es := [Engine(Callback)] + ([GetBuffer(calm)] + rest);
  }
}
