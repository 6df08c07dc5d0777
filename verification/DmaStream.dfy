/** The objects behind a DMA stream: the driver's channel (driver/stream_dma/streamio-drv.c) and the library's view
    of it (lib/bbio/src/bbio_backend_local.c).  Each method is proved to do to the shared state exactly what the
    function of RingModel with its name does, so RingTheorems speaks about runs of these methods. */
module DmaStream {
  import opened Common
  import opened RingModel
  import opened PollCounter

  const BUFFER_SIZE: nat := 128 * 1024

  /** sizeof(struct channel_buffer): the data, a status and a length of 4 bytes each, padded to 1024. */
  const BUFFER_STRIDE: nat := BUFFER_SIZE + 1024

  /** The fields of a ring that belong to the channel's client. */
  datatype Client = Client(cursor: nat, held: Option<nat>, touched: bool, handed: seq<nat>)

  datatype Command = StartXfer(sub: Submission) | FinishXfer(w: Wait) | Xfer(sub: Submission, w: Wait) | Other

  class Channel {
    const direction: Direction
    const buffers: array<Buffer>    // buffer_table_p, shared with user space
    const done: array<nat>          // bdtable[].cmp.done
    const handles: array<nat>       // bdtable[].dma_handle
    var bdindex: nat
    var waitCount: nat
    var pending: seq<Transfer>      // the DMA engine
    var landed: seq<nat>
    ghost var sent: seq<seq<byte>>
    ghost var accepted: seq<nat>
    ghost var output: seq<seq<byte>>
    ghost var arrived: seq<seq<byte>>
    ghost var number: seq<int>
    ghost var reaped: seq<nat>
    ghost var polls: seq<PollEvent>
    ghost var client: Client

    ghost function State(): Ring
      reads this, buffers, done
    {
      Ring(direction, buffers[..], done[..], pending, landed, waitCount, client.cursor, client.held, client.touched,
           client.handed, sent, accepted, output, arrived, number, reaped, polls)
    }

    ghost predicate Valid()
      reads this, buffers, done
    {
      Sane(State()) && handles.Length == buffers.Length
    }

    /** create_channel: lays the descriptors out over the coherent memory at `phys`, whose contents are `data`. */
    constructor (direction: Direction, n: nat, phys: nat, data: seq<seq<byte>>)
      requires |data| == n
      ensures Valid() && State() == Init(direction, n, data)
      ensures forall bd | 0 <= bd < n :: handles[bd] == phys + BUFFER_STRIDE * bd
      ensures fresh(buffers) && fresh(done)
    {
      this.direction := direction;
      var table := new Buffer[n](i requires 0 <= i < n => Buffer(data[i], NoError, 0));
      var cmps := new nat[n];
      var addrs := new nat[n];
      buffers, done, handles := table, cmps, addrs;
      bdindex, waitCount, pending, landed := 0, 0, [], [];
      sent, accepted, output, arrived, number, reaped, polls := [], [], [], [], seq(n, i => -1), [], [];
      client := Client(0, None, false, []);
      new;
      var bd := 0;
      while bd < n
        invariant bd <= n
        invariant forall k :: 0 <= k < bd ==> addrs[k] == phys + BUFFER_STRIDE * k && cmps[k] == 0
        invariant forall k :: 0 <= k < n ==> table[k] == Buffer(data[k], NoError, 0)
        modifies addrs, cmps
      {
        addrs[bd] := phys + BUFFER_STRIDE * bd;
        cmps[bd] := 0;
        bd := bd + 1;
      }
      assert buffers[..] == Init(direction, n, data).buffers;
      assert done[..] == Init(direction, n, data).done;
    }

    method StartTransfer(sub: Submission)
      requires Valid() && bdindex < buffers.Length
      modifies this, buffers, done
      ensures Valid() && State() == Start(old(State()), old(bdindex), sub)
      ensures bdindex == old(bdindex) && client == old(client)
    {
      ghost var s := State();
      var b := buffers[bdindex];
      if sub.PrepFailed? { return; }
      done[bdindex] := 0;
      assert done[..] == s.done[bdindex := 0];
      if sub.SubmitFailed? { return; }
      pending := pending + [Transfer(bdindex, b.length)];
      number := number[bdindex := |sent|];
      accepted := accepted + [LastTurn(s)];
      sent := sent + [Take(b.data, b.length)];
      buffers[bdindex] := b.(status := Queued);
      assert buffers[..] == s.buffers[bdindex := b.(status := Queued)];
    }

    /** One thing the engine or the interrupt line does by itself. */
    method EngineActs(e: EngineEvent)
      requires Valid()
      modifies this, buffers, done
      ensures Valid() && State() == EngineStep(old(State()), e)
      ensures bdindex == old(bdindex) && client == old(client)
    {
      ghost var s := State();
      match e
      case Execute(segment) =>
        if pending != [] {
          var x := pending[0];
          var b := buffers[x.index];
          pending, landed := pending[1..], landed + [x.index];
          if direction.ToDevice? {
            output := output + [Take(b.data, x.length)];
          } else {
            var part := Take(Take(segment, x.length), |b.data|);
            buffers[x.index] := b.(data := Overlay(b.data, 0, part));
            assert buffers[..] == s.buffers[x.index := b.(data := Overlay(b.data, 0, part))];
            arrived := arrived + [part];
          }
        }
      case Callback =>
        if landed != [] { SyncCallback(); }
      case Irq => IrqHandler();
    }

    /** sync_callback, with `complete` on the descriptor of the oldest executed transfer. */
    method SyncCallback()
      requires Valid() && landed != []
      modifies this, done
      ensures Valid() && State() == CallbackOf(old(State()))
      ensures bdindex == old(bdindex) && client == old(client)
    {
      ghost var s := State();
      var i := landed[0];
      done[i] := done[i] + 1;
      assert done[..] == s.done[i := s.done[i] + 1];
      landed := landed[1..];
    }

    method IrqHandler()
      requires Valid()
      modifies this
      ensures Valid() && State() == EngineStep(old(State()), Irq)
      ensures bdindex == old(bdindex) && client == old(client)
    {
      waitCount := waitCount + 1;
      polls := polls + [Interrupt];
    }

    /** dma_proxy_poll: readable, writable.  Readable exactly when some stretch of history up to now has more interrupts
        than reaped transfers. */
    method Poll() returns (pollin: bool, pollout: bool)
      requires Polled(State())
      ensures pollout && pollin == (waitCount > 0) && (pollin <==> exists k :: 0 <= k <= |polls| && Balance(polls[k..]) > 0)
    {
      PositiveMeansSurplus(polls);
      pollin := waitCount > 0;
      pollout := true;
    }

    method SetBufferStatus(i: nat, st: Status)
      requires Valid() && i < buffers.Length
      modifies buffers
      ensures Valid() && State() == SetStatus(old(State()), i, st)
    {
      ghost var s := State();
      buffers[i] := buffers[i].(status := st);
      assert buffers[..] == SetStatus(s, i, st).buffers;
    }

    method WaitForTransfer(w: Wait)
      requires Valid() && bdindex < buffers.Length
      modifies this, buffers, done
      ensures Valid() && State() == WaitFor(old(State()), old(bdindex), w)
      ensures bdindex == old(bdindex) && client == old(client)
    {
      SetBufferStatus(bdindex, Busy);
      EngineRuns(w.during);
      Finish(w.otherwise);
    }

    /** The engine acts by itself for a while. */
    method EngineRuns(events: seq<EngineEvent>)
      requires Valid()
      modifies this, buffers, done
      ensures Valid() && State() == EngineRun(old(State()), events)
      ensures bdindex == old(bdindex) && client == old(client)
    {
      ghost var goal := EngineRun(State(), events);
      var es := events;
      while es != []
        invariant Valid() && EngineRun(State(), es) == goal
        invariant bdindex == old(bdindex) && client == old(client)
        decreases es
      {
        EngineActs(es[0]);
        es := es[1..];
      }
    }

    /** wait_for_transfer from the moment its blocking wait returns. */
    method Finish(otherwise: Outcome)
      requires Valid() && bdindex < buffers.Length
      modifies this, buffers, done
      ensures Valid() && State() == Settle(old(State()), old(bdindex), otherwise)
      ensures bdindex == old(bdindex) && client == old(client)
    {
      var i := bdindex;
      var completed := done[i] > 0;
      if completed { TakeCompletion(i); }
      var complete := forall j :: 0 <= j < |pending| ==> pending[j].index != i;
      assert complete == Complete(State(), i);
      if !completed && otherwise.Expires? {
        SetBufferStatus(i, Timeout);
      } else if !complete {
        SetBufferStatus(i, Error);
      } else {
        SetBufferStatus(i, NoError);
        if waitCount > 0 { waitCount := waitCount - 1; }
        polls := polls + [Reap];
      }
    }

    /** What a successful wait_for_completion does to the completion. */
    method TakeCompletion(i: nat)
      requires Valid() && i < buffers.Length && done[i] > 0
      modifies this, done
      ensures Valid() && State() == Consume(old(State()), i)
      ensures bdindex == old(bdindex) && client == old(client)
    {
      ghost var s := State();
      done[i] := done[i] - 1;
      assert done[..] == s.done[i := s.done[i] - 1];
      if number[i] >= 0 { reaped := reaped + [number[i] as nat]; }
    }

    /** ioctl: every command first selects the descriptor. */
    method Ioctl(cmd: Command, arg: nat)
      requires Valid() && arg < buffers.Length
      modifies this, buffers, done
      ensures Valid() && client == old(client)
      ensures State() == match cmd
                         case StartXfer(sub) => Start(old(State()), arg, sub)
                         case FinishXfer(w) => WaitFor(old(State()), arg, w)
                         case Xfer(sub, w) => WaitFor(Start(old(State()), arg, sub), arg, w)
                         case Other => old(State())
    {
      bdindex := arg;
      match cmd
      case StartXfer(sub) => StartTransfer(sub);
      case FinishXfer(w) => WaitForTransfer(w);
      case Xfer(sub, w) =>
        StartTransfer(sub);
        WaitForTransfer(w);
      case Other =>
    }
  }

  /** The regions the descriptors point to do not overlap and lie inside the allocation. */
  lemma RegionsDisjoint(phys: nat, n: nat, a: nat, b: nat, x: nat)
    requires a < b < n
    requires phys + BUFFER_STRIDE * a <= x < phys + BUFFER_STRIDE * a + BUFFER_SIZE
    ensures x < phys + BUFFER_STRIDE * b && x < phys + BUFFER_STRIDE * n
  {
  }

  /** The buffer at an address, counting from the first. */
  function BufferAt(start: nat, address: nat): nat
    requires start <= address
  {
    (address - start) / BUFFER_STRIDE
  }

  lemma BufferAtAddress(start: nat, i: nat)
    ensures BufferAt(start, start + BUFFER_STRIDE * i) == i
  {
  }

  /** io_stream_device over a local channel. */
  class LocalStream {
    const channel: Channel
    const start: nat            // address of channel_buffer[0] in this process
    var currentBufferId: nat

    ghost predicate Valid()
      reads this, channel, channel.buffers, channel.done
    {
      && channel.Valid()
      && currentBufferId == channel.client.cursor < channel.buffers.Length
      && (channel.client.held.Some? ==> channel.client.held.value < channel.buffers.Length)
    }

    ghost function State(): Ring
      reads channel, channel.buffers, channel.done
    {
      channel.State()
    }

    /** io_local_buffer_init. */
    constructor (channel: Channel, start: nat)
      requires channel.Valid() && channel.buffers.Length > 0
      requires channel.client == Client(0, None, false, [])
      modifies channel.buffers
      ensures this.channel == channel && this.start == start && Valid()
      ensures State() == old(channel.State()).(buffers := State().buffers)
      ensures forall i | 0 <= i < channel.buffers.Length ::
                channel.buffers[i] == old(channel.buffers[i]).(status := NoError)
    {
      this.channel := channel;
      this.start := start;
      currentBufferId := 0;
      new;
      var i := 0;
      while i < channel.buffers.Length
        invariant i <= channel.buffers.Length
        invariant forall k :: 0 <= k < i ==> channel.buffers[k] == old(channel.buffers[k]).(status := NoError)
        invariant forall k :: i <= k < channel.buffers.Length ==> channel.buffers[k] == old(channel.buffers[k])
        modifies channel.buffers
      {
        channel.buffers[i] := channel.buffers[i].(status := NoError);
        i := i + 1;
      }
    }

    /** io_stream_zc_buffer_local: the address of the next buffer, or None for null. */
    method GetBuffer(w: Wait) returns (buffer: Option<nat>)
      requires Valid()
      modifies this, channel, channel.buffers, channel.done
      ensures Valid() && State() == Get(old(State()), w).0
      ensures buffer == if Get(old(State()), w).1 then Some(start + BUFFER_STRIDE * old(currentBufferId)) else None
    {
      hide WaitFor;
      var next := currentBufferId;
      if channel.buffers[next].status != NoError { channel.Ioctl(FinishXfer(w), next); }
      if channel.buffers[next].status == Timeout { return None; }
      currentBufferId := (next + 1) % channel.buffers.Length;
      channel.client := Client(currentBufferId, Some(next), false, channel.client.handed + [next]);
      return Some(start + BUFFER_STRIDE * next);
    }

    /** io_write_stream_local: finds the buffer from its address, sets its length and starts it. */
    method WriteStream(data: nat, size: nat, sub: Submission) returns (bufferId: nat)
      requires Valid() && State().held.Some? && data == start + BUFFER_STRIDE * State().held.value
      modifies this, channel, channel.buffers, channel.done
      ensures Valid() && State() == Submit(old(State()), size, sub) && Some(bufferId) == old(State()).held
    {
      ghost var s := State();
      BufferAtAddress(start, s.held.value);
      hide BufferAt;
      bufferId := BufferAt(start, data);
      channel.buffers[bufferId] := channel.buffers[bufferId].(length := size);
      assert channel.buffers[..] == s.buffers[bufferId := s.buffers[bufferId].(length := size)];
      channel.client := channel.client.(held := None, touched := false);
      channel.Ioctl(StartXfer(sub), bufferId);
    }

    /** The client's store into the buffer at `data`, or its memcpy or recv into it. */
    method FillBuffer(data: nat, at: nat, part: seq<byte>)
      requires Valid() && State().held.Some? && data == start + BUFFER_STRIDE * State().held.value
      modifies channel, channel.buffers
      ensures Valid() && State() == Fill(old(State()), at, part)
    {
      ghost var s := State();
      BufferAtAddress(start, s.held.value);
      hide BufferAt;
      var id := BufferAt(start, data);
      var b := channel.buffers[id];
      channel.buffers[id] := b.(data := Overlay(b.data, at, part));
      assert channel.buffers[..] == Fill(s, at, part).buffers;
      channel.client := channel.client.(touched := true);
    }

    method FinishOne(i: nat, w: Wait)
      requires Valid() && i < channel.buffers.Length
      modifies channel, channel.buffers, channel.done
      ensures Valid()
      ensures State() == var s := old(State()); if s.buffers[i].status != NoError then WaitFor(s, i, w) else s
    {
      if channel.buffers[i].status != NoError { channel.Ioctl(FinishXfer(w), i); }
    }

    /** io_finish_stream_local. */
    method FinishStream(waits: seq<Wait>)
      requires Valid() && |waits| == channel.buffers.Length
      modifies channel, channel.buffers, channel.done
      ensures Valid() && State() == SyncFrom(old(State()), 0, waits)
    {
      ghost var goal := SyncFrom(State(), 0, waits);
      var i := 0;
      while i < channel.buffers.Length
        invariant Valid() && i <= channel.buffers.Length
        invariant SyncFrom(State(), i, waits) == goal
      {
        FinishOne(i, waits[i]);
        i := i + 1;
      }
    }
  }
}
