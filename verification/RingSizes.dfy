/** No operation of the DMA ring changes the size of a buffer. */
module RingSizes {
  import opened Common
  import opened RingModel

  predicate Sized(r: Ring, size: nat) {
    forall i :: 0 <= i < |r.buffers| ==> |r.buffers[i].data| == size
  }

  lemma EngineStepSized(r: Ring, e: EngineEvent, size: nat)
    requires Sane(r) && Sized(r, size)
    ensures Sized(EngineStep(r, e), size)
  {
  }

  lemma {:induction false} EngineRunSized(r: Ring, es: seq<EngineEvent>, size: nat)
    requires Sane(r) && Sized(r, size)
    ensures Sized(EngineRun(r, es), size)
    decreases es
  {
    if es != [] {
      EngineStepSized(r, es[0], size);
      EngineRunSized(EngineStep(r, es[0]), es[1..], size);
    }
  }

  lemma SettleSized(r: Ring, i: nat, o: Outcome, size: nat)
    requires Sane(r) && i < |r.buffers| && Sized(r, size)
    ensures Sized(Settle(r, i, o), size)
  {
  }

  lemma WaitSized(r: Ring, i: nat, w: Wait, size: nat)
    requires Sane(r) && i < |r.buffers| && Sized(r, size)
    ensures Sized(WaitFor(r, i, w), size)
  {
    var busy := SetStatus(r, i, Busy);
    assert Sized(busy, size);
    EngineRunSized(busy, w.during, size);
    SettleSized(EngineRun(busy, w.during), i, w.otherwise, size);
  }

  lemma GetSized(r: Ring, w: Wait, size: nat)
    requires Sane(r) && r.cursor < |r.buffers| && Sized(r, size)
    ensures Sized(Get(r, w).0, size)
  {
    WaitSized(r, r.cursor, w, size);
  }

  lemma {:induction false} SyncSized(r: Ring, i: nat, waits: seq<Wait>, size: nat)
    requires Sane(r) && i <= |r.buffers| == |waits| && Sized(r, size)
    ensures Sized(SyncFrom(r, i, waits), size)
    decreases |r.buffers| - i
  {
    if i < |r.buffers| {
      if r.buffers[i].status != NoError {
        WaitSized(r, i, waits[i], size);
        SyncSized(WaitFor(r, i, waits[i]), i + 1, waits, size);
      } else {
        SyncSized(r, i + 1, waits, size);
      }
    }
  }

  lemma SubmitSized(r: Ring, length: nat, sub: Submission, size: nat)
    requires Sane(r) && r.held.Some? && r.held.value < |r.buffers| && Sized(r, size)
    ensures Sized(Submit(r, length, sub), size)
  {
  }
}
