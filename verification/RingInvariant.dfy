/** What every harmless event of the DMA ring keeps, for any number of buffers, any pattern of timeouts and any pattern of
    refused submissions; and that the other events, waits cut short by a signal, break it.

    Accepted submissions are numbered 0, 1, 2, ...; each was made in the turn of some buffer handed out, and turn t has
    buffer t modulo the number of buffers. */
module RingInvariant {
  import opened Common
  import opened RingModel

  function N(s: Ring): nat { |s.buffers| }

  /** Submissions executed, and called back. */
  function Executed(s: Ring): int { |s.sent| - |s.pending| }
  function Fired(s: Ring): int { |s.sent| - |s.pending| - |s.landed| }

  /** Turns over: buffers handed out and submitted, accepted or not. */
  function Turns(s: Ring): int { |s.handed| - if s.held.Some? then 1 else 0 }

  predicate Shape(s: Ring) {
    N(s) > 0 && |s.done| == |s.number| == N(s) && |s.accepted| == |s.sent|
  }

  /** The buffer of accepted submission k. */
  function Home(s: Ring, k: nat): (i: nat)
    requires N(s) > 0 && k < |s.accepted|
    ensures i < N(s)
  {
    Slot(s.accepted[k], N(s))
  }

  predicate Idle(s: Ring, i: nat)
    requires i < N(s)
  {
    s.buffers[i].status == NoError
  }

  /** A buffer is busy from its last accepted submission until the completion is consumed; it holds at most that one
      completion; and it is not handed out again while busy. */
  predicate SlotOk(s: Ring, i: nat)
    requires Shape(s) && i < N(s)
  {
    var a := s.number[i];
    && -1 <= a < |s.sent|
    && (a >= 0 ==> Home(s, a) == i)
    && (a == -1 ==> Idle(s, i) && s.done[i] == 0)
    && (a >= 0 && a >= Fired(s) ==> !Idle(s, i) && s.done[i] == 0)
    && (0 <= a < Fired(s) ==> s.done[i] == if Idle(s, i) then 0 else 1)
    && (!Idle(s, i) ==> s.accepted[a] + N(s) >= |s.handed|)
  }

  predicate Slots(s: Ring)
    requires Shape(s)
  {
    forall i :: 0 <= i < N(s) ==> SlotOk(s, i)
  }

  /** In flight, oldest first: the last accepted submissions, each the last of its buffer. */
  predicate Arc(s: Ring)
    requires Shape(s)
  {
    && 0 <= Fired(s)
    && (forall k: nat :: Fired(s) <= k < |s.sent| ==> s.number[Home(s, k)] == k)
    && (forall j :: 0 <= j < |s.landed| ==> s.landed[j] == Home(s, Fired(s) + j))
    && (forall j :: 0 <= j < |s.pending| ==> s.pending[j].index == Home(s, Executed(s) + j))
  }

  /** Buffers are handed out in cyclic order; a submission belongs to the turn it was made in. */
  predicate Cursor(s: Ring)
    requires N(s) > 0
  {
    && Turns(s) >= 0
    && s.cursor == Slot(|s.handed|, N(s))
    && (s.held.Some? ==> s.held.value == Slot(Turns(s), N(s)) && Idle(s, s.held.value))
    && (forall k :: 0 <= k < |s.handed| ==> s.handed[k] == Slot(k, N(s)))
    && (forall a, b :: 0 <= a < b < |s.accepted| ==> s.accepted[a] < s.accepted[b])
    && (forall a :: 0 <= a < |s.accepted| ==> s.accepted[a] < Turns(s))
  }

  /** Each submission whose completion is gone has been reaped, once, and no other has. */
  ghost predicate Reaps(s: Ring)
    requires Shape(s)
  {
    && Distinct(s.reaped)
    && (forall k: nat :: k in s.reaped <==>
          k < Fired(s) && k < |s.sent| && (s.number[Home(s, k)] != k || Idle(s, Home(s, k))))
  }

  ghost predicate RingOk(s: Ring) {
    Shape(s) && Arc(s) && Slots(s) && Cursor(s) && Reaps(s)
  }

  lemma ArcIsSane(s: Ring)
    requires Shape(s) && Arc(s)
    ensures Sane(s)
  {
  }

  lemma InitOk(direction: Direction, n: nat, data: seq<seq<byte>>)
    requires n > 0 && |data| == n
    ensures RingOk(Init(direction, n, data))
  {
    SlotSmall(0, n);
  }

  /** An idle buffer has no transfer in flight and holds no completion. */
  lemma IdleIsFree(s: Ring, i: nat)
    requires Shape(s) && Arc(s) && Slots(s) && i < N(s) && Idle(s, i)
    ensures s.done[i] == 0 && s.number[i] < Fired(s) && i !in s.landed
    ensures Complete(s, i)
  {
    hide Slot;
    assert SlotOk(s, i);
    forall j | 0 <= j < |s.pending| ensures s.pending[j].index != i {
      assert s.pending[j].index == Home(s, Executed(s) + j);
    }
  }

  // ---------------------------------------------------------------- the engine keeps it

  predicate SameStatus(s: Ring, t: Ring) {
    N(t) == N(s) && forall i :: 0 <= i < N(s) ==> t.buffers[i].status == s.buffers[i].status
  }

  predicate SameClient(s: Ring, t: Ring) {
    && t.held == s.held && t.cursor == s.cursor && t.handed == s.handed && t.sent == s.sent
    && t.accepted == s.accepted && t.number == s.number && t.reaped == s.reaped
  }

  /** What Slots and Reaps look at. */
  predicate SameSlots(s: Ring, t: Ring) {
    && N(t) == N(s) && (forall i :: 0 <= i < N(s) ==> (Idle(t, i) <==> Idle(s, i)))
    && t.handed == s.handed && t.sent == s.sent && t.accepted == s.accepted && t.number == s.number
    && t.reaped == s.reaped && t.done == s.done && Fired(t) == Fired(s)
  }

  /** Most of the invariant does not look at buffer contents or at the engine's queues. */
  lemma SlotsFrame(s: Ring, t: Ring)
    requires Shape(s) && Slots(s) && Reaps(s) && SameSlots(s, t)
    ensures Shape(t) && Slots(t) && Reaps(t)
  {
    hide Slot;
    forall i | 0 <= i < N(t) ensures SlotOk(t, i) { assert SlotOk(s, i); }
    ReapsFrame(s, t);
  }

  lemma ReapsFrame(s: Ring, t: Ring)
    requires Shape(s) && Reaps(s) && Shape(t) && N(t) == N(s)
    requires forall i :: 0 <= i < N(s) ==> (Idle(t, i) <==> Idle(s, i))
    requires t.sent == s.sent && t.accepted == s.accepted && t.number == s.number && t.reaped == s.reaped
    requires Fired(t) == Fired(s)
    ensures Reaps(t)
  {
    hide Slot;
    forall k: nat | k < |s.sent| ensures Home(t, k) == Home(s, k) && (Idle(t, Home(t, k)) <==> Idle(s, Home(s, k))) { }
  }

  lemma ArcFrame(s: Ring, t: Ring)
    requires Shape(s) && Shape(t) && Arc(s) && N(t) == N(s)
    requires t.sent == s.sent && t.accepted == s.accepted && t.number == s.number
    requires t.pending == s.pending && t.landed == s.landed
    ensures Arc(t)
  {
    hide Slot;
    forall k: nat | k < |s.sent| ensures Home(t, k) == Home(s, k) { }
  }

  lemma ExecuteArc(s: Ring, t: Ring)
    requires Shape(s) && Shape(t) && N(t) == N(s) && Arc(s) && s.pending != []
    requires t.sent == s.sent && t.accepted == s.accepted && t.number == s.number
    requires t.pending == s.pending[1..] && t.landed == s.landed + [s.pending[0].index]
    ensures Arc(t) && Fired(t) == Fired(s)
  {
    hide Slot;
    forall k: nat | k < |s.sent| ensures Home(t, k) == Home(s, k) { }
    forall j | 0 <= j < |t.landed| ensures t.landed[j] == Home(t, Fired(t) + j) {
      if j == |s.landed| { assert s.pending[0].index == Home(s, Executed(s) + 0); }
    }
    forall j | 0 <= j < |t.pending| ensures t.pending[j].index == Home(t, Executed(t) + j) {
      assert s.pending[j + 1].index == Home(s, Executed(s) + (j + 1));
    }
  }

  lemma ExecuteOk(s: Ring, segment: seq<byte>)
    requires RingOk(s) && s.pending != []
    ensures var t := ExecuteOf(s, segment); RingOk(t) && SameStatus(s, t) && SameClient(s, t)
  {
    var t := ExecuteOf(s, segment);
    ExecuteArc(s, t);
    SlotsFrame(s, t);
  }

  lemma CallbackSlots(s: Ring)
    requires RingOk(s) && s.landed != []
    ensures Slots(CallbackOf(s)) && s.landed[0] == Home(s, Fired(s)) && s.number[s.landed[0]] == Fired(s)
  {
    hide Slot;
    var t := CallbackOf(s);
    var i0 := s.landed[0];
    assert i0 == Home(s, Fired(s) + 0);
    forall i | 0 <= i < N(t) ensures SlotOk(t, i) {
      assert SlotOk(s, i);
      if s.number[i] == Fired(s) { assert i == i0; }
    }
  }

  lemma CallbackArc(s: Ring)
    requires Shape(s) && Arc(s) && s.landed != []
    ensures Arc(CallbackOf(s))
  {
    hide Slot;
    var t := CallbackOf(s);
    forall j | 0 <= j < |t.landed| ensures t.landed[j] == Home(t, Fired(t) + j) {
      assert s.landed[j + 1] == Home(s, Fired(s) + (j + 1));
    }
    forall k: nat | k < |s.sent| ensures Home(t, k) == Home(s, k) { }
  }

  lemma CallbackReaps(s: Ring)
    requires RingOk(s) && s.landed != []
    ensures Reaps(CallbackOf(s))
  {
    hide Slot;
    var t := CallbackOf(s);
    var f := Fired(s);
    CallbackSlots(s);
    assert SlotOk(s, s.landed[0]);
    forall k: nat | k < |s.sent| ensures Home(t, k) == Home(s, k) && (Idle(t, Home(t, k)) <==> Idle(s, Home(s, k))) { }
  }

  lemma CallbackOk(s: Ring)
    requires RingOk(s) && s.landed != []
    ensures RingOk(CallbackOf(s))
  {
    CallbackSlots(s);
    CallbackArc(s);
    CallbackReaps(s);
  }

  lemma EngineStepOk(s: Ring, e: EngineEvent)
    requires RingOk(s)
    ensures var t := EngineStep(s, e); RingOk(t) && SameStatus(s, t) && SameClient(s, t)
  {
    hide Shape, Arc, Slots, Cursor, Reaps;
    match e
    case Execute(segment) => if s.pending != [] { ExecuteOk(s, segment); }
    case Callback => if s.landed != [] { CallbackOk(s); }
    case Irq => IrqOk(s);
  }

  lemma IrqOk(s: Ring)
    requires RingOk(s)
    ensures var t := EngineStep(s, Irq); RingOk(t) && SameStatus(s, t) && SameClient(s, t)
  {
    SlotsFrame(s, EngineStep(s, Irq));
    ArcFrame(s, EngineStep(s, Irq));
  }

  lemma {:induction false} EngineRunOk(s: Ring, es: seq<EngineEvent>)
    requires RingOk(s)
    ensures var t := EngineRun(s, es); RingOk(t) && SameStatus(s, t) && SameClient(s, t)
    decreases es
  {
    if es != [] {
      EngineStepOk(s, es[0]);
      EngineRunOk(EngineStep(s, es[0]), es[1..]);
    }
  }

  // ---------------------------------------------------------------- waits

  /** A busy buffer may change from one busy status to another. */
  lemma BusyOk(s: Ring, i: nat, st: Status)
    requires RingOk(s) && i < N(s) && !Idle(s, i) && st != NoError
    ensures RingOk(SetStatus(s, i, st))
  {
    SlotsFrame(s, SetStatus(s, i, st));
    ArcFrame(s, SetStatus(s, i, st));
  }

  /** A buffer that holds a completion has no transfer in the engine. */
  lemma DoneIsComplete(s: Ring, i: nat)
    requires RingOk(s) && i < N(s) && s.done[i] > 0
    ensures Complete(s, i) && 0 <= s.number[i] < Fired(s) && s.done[i] == 1 && !Idle(s, i)
  {
    hide Slot;
    assert SlotOk(s, i);
    forall j | 0 <= j < |s.pending| ensures s.pending[j].index != i {
      assert s.pending[j].index == Home(s, Executed(s) + j);
    }
  }

  /** A busy buffer without a completion is in flight: in the engine, or executed with the callback to come. */
  lemma BusyIsInFlight(s: Ring, i: nat)
    requires RingOk(s) && i < N(s) && !Idle(s, i) && s.done[i] == 0
    ensures !Complete(s, i) || i in s.landed
    ensures i in s.landed || exists j :: 0 <= j < |s.pending| && s.pending[j].index == i
  {
    hide Slot;
    assert SlotOk(s, i);
    var a := s.number[i];
    if a < Executed(s) {
      assert s.landed[a - Fired(s)] == Home(s, Fired(s) + (a - Fired(s)));
    } else {
      assert s.pending[a - Executed(s)].index == Home(s, Executed(s) + (a - Executed(s)));
    }
  }

  lemma ReapSlots(s: Ring, i: nat)
    requires RingOk(s) && i < N(s) && s.done[i] > 0
    ensures Shape(Succeed(Consume(s, i), i)) && Slots(Succeed(Consume(s, i), i))
  {
    hide Slot;
    DoneIsComplete(s, i);
    var t := Succeed(Consume(s, i), i);
    forall k | 0 <= k < N(t) ensures SlotOk(t, k) { assert SlotOk(s, k); }
  }

  lemma ReapReaps(s: Ring, i: nat)
    requires RingOk(s) && i < N(s) && s.done[i] > 0
    ensures s.number[i] >= 0 && Succeed(Consume(s, i), i).reaped == s.reaped + [s.number[i]]
    ensures Shape(Succeed(Consume(s, i), i)) && Reaps(Succeed(Consume(s, i), i))
  {
    hide Slot;
    DoneIsComplete(s, i);
    var t, a := Succeed(Consume(s, i), i), s.number[i] as nat;
    assert SlotOk(s, i);
    assert t.reaped == s.reaped + [a] && a !in s.reaped;
    forall k: nat ensures k in t.reaped <==>
                            k < Fired(t) && k < |t.sent| && (t.number[Home(t, k)] != k || Idle(t, Home(t, k)))
    {
      assert k in t.reaped <==> k in s.reaped || k == a;
      if k < |s.sent| { assert Home(t, k) == Home(s, k); }
    }
  }

  lemma ReapOk(s: Ring, i: nat)
    requires RingOk(s) && i < N(s) && s.done[i] > 0
    ensures Complete(Consume(s, i), i) && s.number[i] >= 0 && RingOk(Succeed(Consume(s, i), i))
    ensures Succeed(Consume(s, i), i).reaped == s.reaped + [s.number[i]]
  {
    DoneIsComplete(s, i);
    ReapSlots(s, i);
    ReapReaps(s, i);
    ArcFrame(s, Succeed(Consume(s, i), i));
  }

  /** What a wait for buffer i leaves: its status says whether it found the completion. */
  predicate WaitedFor(s: Ring, t: Ring, i: nat, finished: bool)
    requires Shape(s)
  {
    && Shape(t) && N(t) == N(s) && i < N(s)
    && (Idle(t, i) <==> finished)
    && t.held == s.held && t.cursor == s.cursor && t.sent == s.sent && t.handed == s.handed
    && t.accepted == s.accepted && t.number == s.number
    && (finished ==> s.number[i] >= 0)
    && t.reaped == (if finished then s.reaped + [s.number[i] as nat] else s.reaped)
    && (forall k :: 0 <= k < N(s) && k != i ==> t.buffers[k].status == s.buffers[k].status)
  }

  /** The end of a wait, unless a signal cuts it short between transfer and callback. */
  lemma SettleOk(s: Ring, i: nat, o: Outcome)
    requires RingOk(s) && i < N(s) && !Idle(s, i)
    requires !(o.Interrupted? && s.done[i] == 0 && Complete(s, i))
    ensures RingOk(Settle(s, i, o)) && WaitedFor(s, Settle(s, i, o), i, s.done[i] > 0)
    ensures s.done[i] == 0 ==> Settle(s, i, o).buffers[i].status == if o.Expires? then Timeout else Error
  {
    if s.done[i] > 0 { ReapOk(s, i); } else { BusyOk(s, i, if o.Expires? then Timeout else Error); }
  }

  lemma AtEndOk(s: Ring, i: nat, w: Wait)
    requires RingOk(s) && i < N(s) && !Idle(s, i)
    ensures var t := AtEnd(s, i, w);
            && RingOk(t) && SameClient(s, t) && !Idle(t, i)
            && (forall k :: 0 <= k < N(s) && k != i ==> t.buffers[k].status == s.buffers[k].status)
  {
    var busy := SetStatus(s, i, Busy);
    BusyOk(s, i, Busy);
    EngineRunOk(busy, w.during);
    forall k | 0 <= k < N(s) && k != i ensures AtEnd(s, i, w).buffers[k].status == s.buffers[k].status {
      assert busy.buffers[k].status == s.buffers[k].status;
    }
  }

  /** A wait keeps the invariant, whatever the engine does meanwhile, unless it is harmful. */
  lemma WaitOk(s: Ring, i: nat, w: Wait)
    requires RingOk(s) && i < N(s) && !Idle(s, i) && HarmlessWait(s, i, w)
    ensures RingOk(WaitFor(s, i, w)) && WaitedFor(s, WaitFor(s, i, w), i, AtEnd(s, i, w).done[i] > 0)
    ensures AtEnd(s, i, w).done[i] == 0 ==>
              WaitFor(s, i, w).buffers[i].status == if w.otherwise.Expires? then Timeout else Error
  {
    AtEndOk(s, i, w);
    SettleOk(AtEnd(s, i, w), i, w.otherwise);
  }

  // ---------------------------------------------------------------- the client's calls

  /** What a get leaves.  Handed out: the next buffer in cyclic order, idle, its last submission reaped.  Null: the cursor
      has not moved and no completion has been consumed. */
  predicate Got(s: Ring, t: Ring, handed: bool)
    requires Shape(s) && s.cursor < N(s)
  {
    && N(t) == N(s) && t.sent == s.sent && t.accepted == s.accepted
    && if handed then
         && t.held == Some(s.cursor) && t.handed == s.handed + [s.cursor] && !t.touched
         && (Idle(s, s.cursor) ==> t.reaped == s.reaped)
         && (!Idle(s, s.cursor) ==> s.number[s.cursor] >= 0 && t.reaped == s.reaped + [s.number[s.cursor]])
       else
         && t.held == s.held && t.handed == s.handed && t.cursor == s.cursor && t.reaped == s.reaped
  }

  lemma HandOutCursor(s: Ring, t: Ring, i: nat)
    requires N(s) > 0 && Cursor(s) && s.held.None? && i == s.cursor < N(s) && Idle(s, i)
    requires t == s.(cursor := (i + 1) % N(s), held := Some(i), touched := false, handed := s.handed + [i])
    ensures Cursor(t)
  {
    SlotNext(|s.handed|, N(s));
  }

  /** Handing out an idle buffer leaves all busy ones among the last N turns. */
  lemma HandOutSlots(s: Ring, t: Ring, i: nat)
    requires RingOk(s) && i == s.cursor && Idle(s, i)
    requires t.buffers == s.buffers && t.done == s.done && t.number == s.number && t.accepted == s.accepted
    requires t.sent == s.sent && t.pending == s.pending && t.landed == s.landed && t.handed == s.handed + [i]
    ensures Slots(t)
  {
    forall k | 0 <= k < N(t) ensures SlotOk(t, k) {
      assert SlotOk(s, k);
      var a := s.number[k];
      if !Idle(s, k) && s.accepted[a] + N(s) == |s.handed| { SlotPeriod(s.accepted[a], N(s)); }
    }
  }

  lemma HandOut(s: Ring, t: Ring, i: nat)
    requires RingOk(s) && s.held.None? && i == s.cursor && Idle(s, i)
    requires t == s.(cursor := (i + 1) % N(s), held := Some(i), touched := false, handed := s.handed + [i])
    ensures RingOk(t)
  {
    hide Slot;
    HandOutCursor(s, t, i);
    HandOutSlots(s, t, i);
    ReapsFrame(s, t);
    ArcFrame(s, t);
  }

  lemma GetOk(s: Ring, w: Wait)
    requires RingOk(s) && s.held.None? && Sane(s) && s.cursor < N(s) && HarmlessGet(s, w)
    ensures RingOk(Get(s, w).0) && Got(s, Get(s, w).0, Get(s, w).1)
    ensures Get(s, w).1 <==> Idle(s, s.cursor) || AtEnd(s, s.cursor, w).done[s.cursor] > 0
  {
    var i := s.cursor;
    if Idle(s, i) {
      HandOut(s, Get(s, w).0, i);
    } else {
      WaitOk(s, i, w);
      var t := WaitFor(s, i, w);
      if Idle(t, i) { HandOut(t, Get(s, w).0, i); }
    }
  }

  lemma FillOk(s: Ring, at: nat, part: seq<byte>)
    requires RingOk(s) && s.held.Some?
    ensures RingOk(Fill(s, at, part))
  {
    SlotsFrame(s, Fill(s, at, part));
    ArcFrame(s, Fill(s, at, part));
  }

  /** The buffer a client holds is not in flight and holds no completion: starting it erases nothing. */
  lemma HeldIsIdle(s: Ring)
    requires RingOk(s) && s.held.Some?
    ensures s.held.value < N(s) && Idle(s, s.held.value) && s.done[s.held.value] == 0
    ensures s.number[s.held.value] < Fired(s) && s.held.value !in s.landed && Complete(s, s.held.value)
    ensures s.held.value == Slot(Turns(s), N(s)) && LastTurn(s) == Turns(s)
  {
    IdleIsFree(s, s.held.value);
  }

  lemma AcceptedSlots(s: Ring, size: nat)
    requires RingOk(s) && s.held.Some?
    ensures Slots(Submit(s, size, Accepted)) && Shape(Submit(s, size, Accepted))
  {
    hide Slot;
    var t := Submit(s, size, Accepted);
    HeldIsIdle(s);
    forall i | 0 <= i < N(t) ensures SlotOk(t, i) { assert SlotOk(s, i); }
  }

  lemma AcceptedArc(s: Ring, size: nat)
    requires RingOk(s) && s.held.Some?
    ensures var t := Submit(s, size, Accepted); Shape(t) && Arc(t) && Fired(t) == Fired(s) && Executed(t) == Executed(s)
  {
    var t := Submit(s, size, Accepted);
    HeldIsIdle(s);
    assert Home(t, |s.sent|) == s.held.value;
    forall k: nat | k < |s.sent| ensures Home(t, k) == Home(s, k) { }
  }

  lemma AcceptedReaps(s: Ring, size: nat)
    requires RingOk(s) && s.held.Some?
    ensures Shape(Submit(s, size, Accepted)) && Reaps(Submit(s, size, Accepted))
  {
    hide Slot;
    var t := Submit(s, size, Accepted);
    var i := s.held.value;
    HeldIsIdle(s);
    forall k: nat | k < |s.sent|
      ensures Home(t, k) == Home(s, k)
      ensures Home(s, k) != i ==> (Idle(t, Home(t, k)) <==> Idle(s, Home(s, k)))
      ensures Home(s, k) != i ==> t.number[Home(t, k)] == s.number[Home(s, k)]
    {
    }
  }

  /** A refused submission only ends the turn. */
  lemma RefusedOk(s: Ring, size: nat, sub: Submission)
    requires RingOk(s) && s.held.Some? && !sub.Accepted?
    ensures RingOk(Submit(s, size, sub))
  {
    var t := Submit(s, size, sub);
    HeldIsIdle(s);
    assert t.done == s.done;
    SlotsFrame(s, t);
    ArcFrame(s, t);
    RefusedCursor(s, size, sub);
  }

  lemma RefusedCursor(s: Ring, size: nat, sub: Submission)
    requires Shape(s) && Sane(s) && Cursor(s) && s.held.Some? && !sub.Accepted?
    ensures Cursor(Submit(s, size, sub))
  {
  }

  lemma SubmitOk(s: Ring, size: nat, sub: Submission)
    requires RingOk(s) && s.held.Some?
    ensures RingOk(Submit(s, size, sub))
  {
    if sub.Accepted? {
      AcceptedSlots(s, size);
      AcceptedArc(s, size);
      AcceptedReaps(s, size);
      HeldIsIdle(s);
    } else {
      RefusedOk(s, size, sub);
    }
  }

  lemma SyncStepOk(s: Ring, i: nat, w: Wait)
    requires RingOk(s) && i < N(s) && HarmlessWait(s, i, w)
    ensures var t := SyncStep(s, i, w);
            && RingOk(t) && N(t) == N(s)
            && (forall k | 0 <= k < N(s) && k != i :: t.buffers[k].status == s.buffers[k].status)
  {
    if !Idle(s, i) { WaitOk(s, i, w); }
  }

  lemma {:induction false} SyncOk(s: Ring, i: nat, waits: seq<Wait>)
    requires RingOk(s) && Sane(s) && i <= N(s) == |waits| && HarmlessSync(s, i, waits)
    ensures var t := SyncFrom(s, i, waits);
            RingOk(t) && N(t) == N(s) && SameHold(s, t)
    decreases N(s) - i
  {
    hide RingOk, SyncStep, HarmlessWait;
    if i < N(s) {
      SyncStepOk(s, i, waits[i]);
      SyncOk(SyncStep(s, i, waits[i]), i + 1, waits);
    }
  }

  lemma NextOk(s: Ring, e: Event)
    requires RingOk(s) && Allowed(s, e) && Harmless(s, e)
    ensures RingOk(Next(s, e))
  {
    match e
    case Engine(ev) => EngineStepOk(s, ev);
    case GetBuffer(w) => GetOk(s, w);
    case FillBuffer(at, part) => FillOk(s, at, part);
    case SubmitBuffer(size, sub) => SubmitOk(s, size, sub);
    case Sync(waits) => SyncOk(s, 0, waits);
  }

  /** The ring invariant holds after every run without harmful waits, whatever times out and whatever is refused. */
  lemma {:induction false} RunOk(s: Ring, es: seq<Event>, t: Ring)
    requires RingOk(s) && SafeRun(s, es, t)
    ensures RingOk(t)
    decreases es
  {
    if es != [] {
      NextOk(s, es[0]);
      RunOk(Next(s, es[0]), es[1..], t);
    }
  }

  // ---------------------------------------------------------------- harmful waits break it

  /** Free by its status, yet with a callback to come or a completion that nobody will wait for. */
  predicate Tainted(s: Ring, i: nat)
    requires Sane(s) && i < N(s)
  {
    Idle(s, i) && (s.done[i] > 0 || i in s.landed)
  }

  lemma TaintedIsBroken(s: Ring, i: nat)
    requires Sane(s) && i < N(s) && Tainted(s, i)
    ensures !RingOk(s)
  {
    if RingOk(s) { IdleIsFree(s, i); }
  }

  lemma EngineStepTaints(s: Ring, e: EngineEvent, i: nat)
    requires Sane(s) && i < N(s) && Tainted(s, i)
    ensures Tainted(EngineStep(s, e), i)
  {
    if e.Callback? && s.landed != [] && s.landed[0] != i {
      assert s.landed == [s.landed[0]] + s.landed[1..];
    }
  }

  lemma {:induction false} EngineRunTaints(s: Ring, es: seq<EngineEvent>, i: nat)
    requires Sane(s) && i < N(s) && Tainted(s, i)
    ensures Tainted(EngineRun(s, es), i)
    decreases es
  {
    if es != [] {
      EngineStepTaints(s, es[0], i);
      EngineRunTaints(EngineStep(s, es[0]), es[1..], i);
    }
  }

  lemma SyncStepTaints(s: Ring, k: nat, w: Wait, i: nat)
    requires Sane(s) && i < N(s) && k < N(s) && k != i && Tainted(s, i)
    ensures Tainted(SyncStep(s, k, w), i)
  {
    if !Idle(s, k) { EngineRunTaints(SetStatus(s, k, Busy), w.during, i); }
  }

  lemma {:induction false} SyncTaints(s: Ring, k: nat, waits: seq<Wait>, i: nat)
    requires Sane(s) && i < k <= N(s) == |waits| && Tainted(s, i)
    ensures Tainted(SyncFrom(s, k, waits), i)
    decreases N(s) - k
  {
    if k < N(s) {
      SyncStepTaints(s, k, waits[k], i);
      SyncTaints(SyncStep(s, k, waits[k]), k + 1, waits, i);
    }
  }

  /** A wait cut short after its transfer ran leaves a free buffer with a callback to come. */
  lemma HarmfulWait(s: Ring, i: nat, w: Wait)
    requires RingOk(s) && i < N(s) && !HarmlessWait(s, i, w)
    ensures Tainted(WaitFor(s, i, w), i)
  {
    AtEndOk(s, i, w);
    BusyIsInFlight(AtEnd(s, i, w), i);
  }

  lemma {:induction false} HarmfulSync(s: Ring, i: nat, waits: seq<Wait>)
    requires RingOk(s) && Sane(s) && i <= N(s) == |waits| && !HarmlessSync(s, i, waits)
    ensures !RingOk(SyncFrom(s, i, waits))
    decreases N(s) - i
  {
    if HarmlessWait(s, i, waits[i]) {
      SyncStepOk(s, i, waits[i]);
      HarmfulSync(SyncStep(s, i, waits[i]), i + 1, waits);
    } else {
      HarmfulWait(s, i, waits[i]);
      SyncTaints(SyncStep(s, i, waits[i]), i + 1, waits, i);
      TaintedIsBroken(SyncFrom(s, i, waits), i);
    }
  }

  /** A get whose wait is cut short hands out a buffer that is in flight. */
  lemma HarmfulGet(s: Ring, w: Wait)
    requires RingOk(s) && s.held.None? && Sane(s) && s.cursor < N(s) && !HarmlessGet(s, w)
    ensures var (t, handed) := Get(s, w);
            && handed && t.held == Some(s.cursor) && !RingOk(t)
            && (s.cursor in t.landed || exists j :: 0 <= j < |t.pending| && t.pending[j].index == s.cursor)
  {
    var i, t := s.cursor, Get(s, w).0;
    AtEndOk(s, i, w);
    BusyIsInFlight(AtEnd(s, i, w), i);
    if RingOk(t) { HeldIsIdle(t); }
  }

  /** The exact condition: an event keeps the ring invariant if and only if it is harmless. */
  lemma HarmlessIff(s: Ring, e: Event)
    requires RingOk(s) && Allowed(s, e)
    ensures RingOk(Next(s, e)) <==> Harmless(s, e)
  {
    if Harmless(s, e) {
      NextOk(s, e);
    } else {
      match e
      case GetBuffer(w) => HarmfulGet(s, w);
      case Sync(waits) => HarmfulSync(s, 0, waits);
    }
  }

  /** The invariant holds in every state of a run. */
  ghost predicate OkThroughout(s: Ring, es: seq<Event>)
    decreases es
  {
    RingOk(s) && (es == [] || (Allowed(s, es[0]) && OkThroughout(Next(s, es[0]), es[1..])))
  }

  /** The exact condition for runs: the invariant holds throughout if and only if no wait does harm. */
  lemma {:induction false} SafeIffOkThroughout(s: Ring, es: seq<Event>, t: Ring)
    requires RingOk(s) && Run(s, es, t)
    ensures OkThroughout(s, es) <==> SafeRun(s, es, t)
    decreases es
  {
    if es != [] {
      HarmlessIff(s, es[0]);
      if Harmless(s, es[0]) { SafeIffOkThroughout(Next(s, es[0]), es[1..], t); }
    }
  }
}
