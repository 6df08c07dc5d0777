/** The register devices as objects: the local one, and the remote one with the server's command handler behind it.

    A blocking receive at the client is modelled by letting the server handle commands until the reply is there. */
module RegisterDevices {
  import opened Common
  import opened Wire
  import opened Registers

  /** io_mapped_device of lib/bbio/src/bbio_backend_local.c. */
  class MappedDevice {
    const words: array<u32>   // from ch.start to ch.end, both included
    const size: nat           // ch.end - ch.start

    ghost predicate Valid()
      reads words
    {
      words.Length == size + 1
    }

    ghost function Regs(): RegFile
      requires Valid()
      reads words
    {
      words[..]
    }

    constructor (size: nat)
      ensures Valid() && this.size == size && Regs() == seq(size + 1, i => 0) && fresh(words)
    {
      this.size := size;
      words := new u32[size + 1](i => 0);
    }

    /** io_write_local */
    method Write(addr: u32, value: u32)
      requires Valid()
      modifies words
      ensures Valid() && Regs() == LocalWrite(old(Regs()), addr, value)
      ensures addr <= size ==> words[addr] == value
      ensures forall k | 0 <= k <= size && k != addr :: words[k] == old(words[k])
    {
      if addr > size { return; }
      words[addr] := value;
    }

    /** io_read_local */
    method Read(addr: u32) returns (value: u32)
      requires Valid()
      ensures value == LocalRead(Regs(), addr)
      ensures value == if addr <= size then words[addr] else 0xFFFF_FFFF
    {
      if addr > size { return NO_VALUE; }
      return words[addr];
    }
  }

  /** A connection: bytes under way in each direction. */
  class Link {
    var c2s: seq<byte>
    var s2c: seq<byte>

    constructor ()
      ensures c2s == [] && s2c == []
    {
      c2s, s2c := [], [];
    }
  }

  /** client_mapped_cmd_handle and the commands behind it. */
  class RegisterServer {
    const device: MappedDevice
    const link: Link

    constructor (device: MappedDevice, link: Link)
      ensures this.device == device && this.link == link
    {
      this.device, this.link := device, link;
    }

    method RecvWord() returns (x: u32)
      requires |link.c2s| >= 4
      modifies link
      ensures x == Decode32(old(link.c2s)[..4]) && link.c2s == old(link.c2s)[4..] && link.s2c == old(link.s2c)
    {
      x := Decode32(link.c2s[..4]);
      link.c2s := link.c2s[4..];
    }

    /** Handles one command, `op`, which is at the head of the channel in front of `rest`. */
    method HandleCommand(ghost op: Op, ghost rest: seq<byte>)
      requires device.Valid() && link.c2s == EncodeOp(op) + rest
      modifies link, device.words
      ensures device.Valid() && link.c2s == rest
      ensures device.Regs() == Final(old(device.Regs()), [op])
      ensures link.s2c == old(link.s2c) +
                          (if op.ReadReg? then Encode32(LocalRead(old(device.Regs()), op.addr)) else [])
    {
      ghost var rs, all := device.Regs(), link.c2s;
      OneOp(rs, op);
      var cmd := link.c2s[0];
      link.c2s := link.c2s[1..];
      assert link.c2s[..4] == EncodeOp(op)[1..5] == Encode32(op.addr);
      WordRoundTrip(op.addr);
      var addr := RecvWord();
      assert link.c2s == all[5..];
      if cmd == CALL_WRITE {
        assert link.c2s[..4] == EncodeOp(op)[5..9] == Encode32(op.value);
        WordRoundTrip(op.value);
        var value := RecvWord();
        assert link.c2s == all[9..] == rest;
        device.Write(addr, value);
      } else {
        assert link.c2s == rest;
        var value := device.Read(addr);
        link.s2c := link.s2c + Encode32(value);
      }
    }
  }

  lemma OneOp(rs: RegFile, op: Op)
    ensures Final(rs, [op]) == if op.WriteReg? then LocalWrite(rs, op.addr, op.value) else rs
  {
    ExecSnoc(rs, [], op);
    assert [] + [op] == [op];
  }

  lemma {:induction false} FinalCons(rs: RegFile, op: Op, ops: seq<Op>)
    ensures Final(rs, [op] + ops) == Final(Final(rs, [op]), ops)
  {
    if ops == [] {
      assert [op] + ops == [op];
    } else {
      var most, last := ops[..|ops| - 1], ops[|ops| - 1];
      FinalCons(rs, op, most);
      ExecSnoc(rs, [op] + most, last);
      assert ([op] + most) + [last] == [op] + ops;
    }
  }

  /** A remote io_mapped_device of lib/bbio/src/bbio_backend_net.c. */
  class RemoteDevice {
    const server: RegisterServer
    const link: Link
    ghost var flight: seq<Op>   // writes sent and not handled yet

    ghost predicate Valid()
      reads this, link, server.device.words
    {
      && link == server.link && server.device.Valid()
      && (forall i :: 0 <= i < |flight| ==> flight[i].WriteReg?)
      && link.c2s == EncodeOps(flight) && link.s2c == []
    }

    /** The registers as the client may think of them: as if every write sent had been carried out. */
    ghost function View(): RegFile
      requires Valid()
      reads this, link, server.device.words
    {
      Final(server.device.Regs(), flight)
    }

    constructor (server: RegisterServer)
      requires server.device.Valid() && server.link.c2s == server.link.s2c == []
      ensures Valid() && this.server == server && View() == server.device.Regs()
    {
      this.server, this.link := server, server.link;
      flight := [];
    }

    /** io_write_net: returns at once. */
    method Write(addr: u32, value: u32)
      requires Valid()
      modifies this, link
      ensures Valid() && View() == LocalWrite(old(View()), addr, value)
      ensures link.c2s == old(link.c2s) + ([CALL_WRITE] + Encode32(addr) + Encode32(value)) && link.s2c == old(link.s2c)
    {
      ghost var op := WriteReg(addr, value);
      EncodeSnoc(flight, op);
      ExecSnoc(server.device.Regs(), flight, op);
      link.c2s := link.c2s + [CALL_WRITE];
      link.c2s := link.c2s + Encode32(addr);
      link.c2s := link.c2s + Encode32(value);
      assert link.c2s == EncodeOps(flight) + EncodeOp(op);
      flight := flight + [op];
    }

    /** The server gets to run, at any time: the client cannot tell. */
    method ServerRuns()
      requires Valid() && flight != []
      modifies this, link, server.device.words
      ensures Valid() && View() == old(View()) && |flight| < |old(flight)|
    {
      EncodeCons(flight);
      FinalCons(server.device.Regs(), flight[0], flight[1..]);
      assert [flight[0]] + flight[1..] == flight;
      server.HandleCommand(flight[0], EncodeOps(flight[1..]));
      flight := flight[1..];
    }

    /** The sending half of io_read_net. */
    method Ask(addr: u32)
      requires Valid()
      modifies link
      ensures link.c2s == EncodeOps(flight + [ReadReg(addr)]) && link.s2c == []
      ensures link.c2s == old(link.c2s) + ([CALL_READ] + Encode32(addr))
      ensures Final(server.device.Regs(), flight + [ReadReg(addr)]) == old(View())
    {
      ghost var op := ReadReg(addr);
      EncodeSnoc(flight, op);
      ExecSnoc(server.device.Regs(), flight, op);
      link.c2s := link.c2s + [CALL_READ];
      link.c2s := link.c2s + Encode32(addr);
      assert link.c2s == EncodeOps(flight) + EncodeOp(op);
    }

    /** The blocking receive of io_read_net: the server handles `ops`, the writes sent before and then the read. */
    method Answer(ghost ops: seq<Op>, ghost addr: u32) returns (value: u32)
      requires link == server.link && server.device.Valid()
      requires link.c2s == EncodeOps(ops) && link.s2c == []
      requires Asks(ops, addr)
      modifies link, server.device.words
      ensures server.device.Valid() && link.c2s == link.s2c == []
      ensures server.device.Regs() == Final(old(server.device.Regs()), ops)
      ensures value == LocalRead(server.device.Regs(), addr)
    {
      ghost var todo, goal := ops, Final(server.device.Regs(), ops);
      while |link.s2c| < 4
        invariant server.device.Valid() && link.c2s == EncodeOps(todo)
        invariant Final(server.device.Regs(), todo) == goal
        invariant if todo == [] then link.s2c == Encode32(LocalRead(goal, addr))
                  else link.s2c == [] && Asks(todo, addr)
        decreases |todo|
      {
        EncodeCons(todo);
        FinalCons(server.device.Regs(), todo[0], todo[1..]);
        OneOp(server.device.Regs(), todo[0]);
        assert [todo[0]] + todo[1..] == todo;
        server.HandleCommand(todo[0], EncodeOps(todo[1..]));
        todo := todo[1..];
      }
      value := Decode32(link.s2c);
      WordRoundTrip(LocalRead(goal, addr));
      link.s2c := [];
    }

    /** io_read_net: blocks until the reply. */
    method Read(addr: u32) returns (value: u32)
      requires Valid()
      modifies this, link, server.device.words
      ensures Valid() && View() == old(View()) && value == LocalRead(old(View()), addr)
    {
      Ask(addr);
      value := Answer(flight + [ReadReg(addr)], addr);
      flight := [];
    }
  }

  /** Some writes, and then a read of `addr`. */
  ghost predicate Asks(ops: seq<Op>, addr: u32) {
    && ops != [] && ops[|ops| - 1] == ReadReg(addr)
    && forall i :: 0 <= i < |ops| - 1 ==> ops[i].WriteReg?
  }
}
