/** Memory-mapped registers, local (lib/bbio/src/bbio_backend_local.c) and remote: the client of
    lib/bbio/src/bbio_backend_net.c against the command handler of userspace/io_backend/src/io_backend_call.c.

    The local guards compare with `>`, so the word just after the mapped size passes them; a register file here has a
    cell for that word too. */
module Registers {
  import opened Common
  import opened Wire

  /** The words 0 .. size, for a mapping of `size` words. */
  type RegFile = rs: seq<u32> | |rs| > 0 witness [0]

  const NO_VALUE: u32 := WORD - 1

  function LocalWrite(rs: RegFile, addr: u32, value: u32): RegFile {
    if addr > |rs| - 1 then rs else rs[addr := value]
  }

  function LocalRead(rs: RegFile, addr: u32): u32 {
    if addr > |rs| - 1 then NO_VALUE else rs[addr]
  }

  datatype Op = WriteReg(addr: u32, value: u32) | ReadReg(addr: u32)

  /** In-order local execution: the registers afterwards, and what the reads returned. */
  function Final(rs: RegFile, ops: seq<Op>): RegFile {
    if ops == [] then rs
    else
      var before := Final(rs, ops[..|ops| - 1]);
      match ops[|ops| - 1]
      case WriteReg(a, v) => LocalWrite(before, a, v)
      case ReadReg(_) => before
  }

  function Reads(rs: RegFile, ops: seq<Op>): seq<u32> {
    if ops == [] then []
    else
      var most := ops[..|ops| - 1];
      match ops[|ops| - 1]
      case WriteReg(_, _) => Reads(rs, most)
      case ReadReg(a) => Reads(rs, most) + [LocalRead(Final(rs, most), a)]
  }

  lemma ExecSnoc(rs: RegFile, ops: seq<Op>, op: Op)
    ensures Final(rs, ops + [op]) == if op.WriteReg? then LocalWrite(Final(rs, ops), op.addr, op.value) else Final(rs, ops)
    ensures Reads(rs, ops + [op]) ==
            Reads(rs, ops) + if op.ReadReg? then [LocalRead(Final(rs, ops), op.addr)] else []
  {
    assert (ops + [op])[..|ops|] == ops;
  }

  lemma {:induction false} ReadsPrefix(rs: RegFile, ops: seq<Op>, more: seq<Op>)
    ensures Reads(rs, ops) <= Reads(rs, ops + more)
  {
    if more == [] {
      assert ops + more == ops;
    } else {
      var most := more[..|more| - 1];
      ReadsPrefix(rs, ops, most);
      ExecSnoc(rs, ops + most, more[|more| - 1]);
      assert ops + more == (ops + most) + [more[|more| - 1]];
    }
  }

  /** The last write to an accessible address is what a read returns, whatever was written elsewhere since. */
  lemma {:induction false} ReadsLastWrite(rs: RegFile, ops: seq<Op>, addr: u32, value: u32, after: seq<Op>)
    requires addr < |rs|
    requires forall i :: 0 <= i < |after| ==> after[i].ReadReg? || after[i].addr != addr
    ensures LocalRead(Final(rs, ops + [WriteReg(addr, value)] + after), addr) == value
  {
    FinalSize(rs, ops);
    if after == [] {
      ExecSnoc(rs, ops, WriteReg(addr, value));
      assert ops + [WriteReg(addr, value)] + after == ops + [WriteReg(addr, value)];
    } else {
      var most, last := after[..|after| - 1], after[|after| - 1];
      var front := ops + [WriteReg(addr, value)];
      ReadsLastWrite(rs, ops, addr, value, most);
      ExecSnoc(rs, front + most, last);
      FinalSize(rs, front + most);
      assert front + after == (front + most) + [last];
    }
  }

  lemma {:induction false} FinalSize(rs: RegFile, ops: seq<Op>)
    ensures |Final(rs, ops)| == |rs|
  {
    if ops != [] { FinalSize(rs, ops[..|ops| - 1]); }
  }

  // ---------------------------------------------------------------- the wire

  function Tag(op: Op): byte {
    if op.WriteReg? then CALL_WRITE else CALL_READ
  }

  function EncodeOp(op: Op): (bs: seq<byte>)
    ensures |bs| >= 5 && bs[0] == Tag(op)
  {
    [Tag(op)] + Encode32(op.addr) + if op.WriteReg? then Encode32(op.value) else []
  }

  function EncodeOps(ops: seq<Op>): seq<byte> {
    if ops == [] then [] else EncodeOps(ops[..|ops| - 1]) + EncodeOp(ops[|ops| - 1])
  }

  lemma EncodeSnoc(ops: seq<Op>, op: Op)
    ensures EncodeOps(ops + [op]) == EncodeOps(ops) + EncodeOp(op)
  {
    assert (ops + [op])[..|ops|] == ops;
  }

  lemma {:induction false} EncodeCons(ops: seq<Op>)
    requires ops != []
    ensures EncodeOps(ops) == EncodeOp(ops[0]) + EncodeOps(ops[1..])
  {
    var n := |ops| - 1;
    if n == 0 {
      assert EncodeOps(ops) == [] + EncodeOp(ops[0]);
      assert EncodeOps(ops[1..]) == [];
    } else {
      EncodeCons(ops[..n]);
      assert ops[..n][1..] == ops[1..][..n - 1];
      var a, b, c := EncodeOp(ops[0]), EncodeOps(ops[1..n]), EncodeOp(ops[n]);
      assert ops[1..][..n - 1] == ops[1..n] && ops[..n][1..] == ops[1..n];
      assert (a + b) + c == a + (b + c);
    }
  }

  // ---------------------------------------------------------------- client and server, step by step

  datatype ClientPhase = Ready | SentTag(op: Op) | SentAddr(op: Op) | Awaiting(op: Op)

  datatype ServerPhase = AwaitCmd | AwaitAddr(cmd: byte) | AwaitValue(addr: u32)

  datatype Remote = Remote(
    regs: RegFile,
    c2s: seq<byte>,
    s2c: seq<byte>,
    script: seq<Op>,        // still to be called at the client
    client: ClientPhase,
    server: ServerPhase,
    results: seq<u32>,      // what the client's reads have returned
    // history
    executed: seq<Op>,      // carried out by the server
    flight: seq<Op>,        // begun by the client and not carried out
    strays: nat             // commands the server did not know
  )

  datatype RemoteStep = SendTag | SendAddr | SendValue | Receive | RecvCmd | RecvAddr | RecvValue

  predicate Can(s: Remote, st: RemoteStep) {
    match st
    case SendTag => s.client.Ready? && s.script != []
    case SendAddr => s.client.SentTag?
    case SendValue => s.client.SentAddr? && s.client.op.WriteReg?
    case Receive => s.client.Awaiting? && |s.s2c| >= 4
    case RecvCmd => s.server.AwaitCmd? && s.c2s != []
    case RecvAddr => s.server.AwaitAddr? && |s.c2s| >= 4
    case RecvValue => s.server.AwaitValue? && |s.c2s| >= 4
  }

  /** The server has received the last field of a command. */
  function Executed(s: Remote): Remote
    requires |s.c2s| >= 4
  {
    s.(server := AwaitCmd, c2s := s.c2s[4..],
       executed := if s.flight == [] then s.executed else s.executed + [s.flight[0]],
       flight := if s.flight == [] then [] else s.flight[1..])
  }

  function Do(s: Remote, st: RemoteStep): Remote
    requires Can(s, st)
  {
    match st
    case SendTag =>
      s.(c2s := s.c2s + [Tag(s.script[0])], client := SentTag(s.script[0]), script := s.script[1..],
         flight := s.flight + [s.script[0]])
    case SendAddr =>
      var op := s.client.op;
      s.(c2s := s.c2s + Encode32(op.addr), client := if op.WriteReg? then SentAddr(op) else Awaiting(op))
    case SendValue => s.(c2s := s.c2s + Encode32(s.client.op.value), client := Ready)
    case Receive => s.(s2c := s.s2c[4..], client := Ready, results := s.results + [Decode32(s.s2c[..4])])
    case RecvCmd =>
      var cmd := s.c2s[0];
      if cmd == CALL_WRITE || cmd == CALL_READ then s.(c2s := s.c2s[1..], server := AwaitAddr(cmd))
      else s.(c2s := s.c2s[1..], strays := s.strays + 1)
    case RecvAddr =>
      var addr := Decode32(s.c2s[..4]);
      if s.server.cmd == CALL_WRITE then s.(c2s := s.c2s[4..], server := AwaitValue(addr))
      else Executed(s).(s2c := s.s2c + Encode32(LocalRead(s.regs, addr)))
    case RecvValue => Executed(s).(regs := LocalWrite(s.regs, s.server.addr, Decode32(s.c2s[..4])))
  }

  predicate RemoteRun(s: Remote, sts: seq<RemoteStep>, t: Remote)
    decreases sts
  {
    if sts == [] then s == t else Can(s, sts[0]) && RemoteRun(Do(s, sts[0]), sts[1..], t)
  }

  function Start(rs: RegFile, script: seq<Op>): Remote {
    Remote(rs, [], [], script, Ready, AwaitCmd, [], [], [], 0)
  }

  /** What the client has not yet sent of the call it is in. */
  function Unsent(c: ClientPhase): seq<byte> {
    match c
    case SentTag(op) => Encode32(op.addr) + if op.WriteReg? then Encode32(op.value) else []
    case SentAddr(op) => if op.WriteReg? then Encode32(op.value) else []
    case _ => []
  }

  /** What the server has already received of the command it is in. */
  function Received(sv: ServerPhase): seq<byte> {
    match sv
    case AwaitCmd => []
    case AwaitAddr(cmd) => [cmd]
    case AwaitValue(addr) => [CALL_WRITE] + Encode32(addr)
  }

  /** The bytes in the channel are exactly the commands in flight, less what the server has and the client still has. */
  predicate Aligned(s: Remote) {
    && Received(s.server) + s.c2s + Unsent(s.client) == EncodeOps(s.flight)
    && (s.server.AwaitAddr? ==> s.flight != [] && s.server.cmd == Tag(s.flight[0]))
    && (s.server.AwaitValue? ==> s.flight != [] && s.flight[0].WriteReg? && s.flight[0].addr == s.server.addr)
    && s.strays == 0
  }

  /** A read is the last command in flight, and its reply the only one. */
  predicate OneReply(s: Remote) {
    && (forall i :: 0 <= i < |s.flight| - 1 ==> s.flight[i].WriteReg?)
    && (s.client.SentTag? || s.client.SentAddr? ==> s.flight != [] && s.flight[|s.flight| - 1] == s.client.op)
    && (s.client.SentAddr? ==> s.client.op.WriteReg?)
    && (s.client.Awaiting? ==> s.client.op.ReadReg? &&
                               (if s.s2c == [] then s.flight != [] && s.flight[|s.flight| - 1] == s.client.op
                                else s.flight == []))
    && (s.client.Ready? ==> forall i :: 0 <= i < |s.flight| ==> s.flight[i].WriteReg?)
    && (!s.client.Awaiting? ==> s.s2c == [])
  }

  predicate Agrees(s: Remote, rs: RegFile, script: seq<Op>) {
    && s.executed + s.flight + s.script == script
    && s.regs == Final(rs, s.executed)
    && (|s.s2c| == 0 || |s.s2c| == 4)
    && s.results + (if |s.s2c| == 4 then [Decode32(s.s2c)] else []) == Reads(rs, s.executed)
  }

  predicate RemoteOk(s: Remote, rs: RegFile, script: seq<Op>) {
    Aligned(s) && OneReply(s) && Agrees(s, rs, script)
  }

  /** Moving one element across a border leaves the whole as it was. */
  lemma MoveLeft<T>(a: seq<T>, b: seq<T>, c: seq<T>)
    requires c != []
    ensures a + (b + [c[0]]) + c[1..] == a + b + c
  {
  }

  lemma MoveHead<T>(a: seq<T>, b: seq<T>, c: seq<T>)
    requires b != []
    ensures (a + [b[0]]) + b[1..] + c == a + b + c
  {
  }

  lemma AppendRest<T>(a: seq<T>, b: seq<T>, x: T, rest: seq<T>)
    ensures a + (b + [x]) + rest == (a + b + []) + ([x] + rest)
  {
  }

  lemma SendTagOk(s: Remote, rs: RegFile, script: seq<Op>)
    requires RemoteOk(s, rs, script) && Can(s, SendTag)
    ensures RemoteOk(Do(s, SendTag), rs, script)
  {
    hide Encode32, Decode32;
    var op, t := s.script[0], Do(s, SendTag);
    EncodeSnoc(s.flight, op);
    assert EncodeOp(op) == [Tag(op)] + Unsent(t.client);
    AppendRest(Received(s.server), s.c2s, Tag(op), Unsent(t.client));
    MoveLeft(s.executed, s.flight, s.script);
  }

  lemma SendMoreOk(s: Remote, st: RemoteStep, rs: RegFile, script: seq<Op>)
    requires RemoteOk(s, rs, script) && Can(s, st) && (st.SendAddr? || st.SendValue?)
    ensures RemoteOk(Do(s, st), rs, script)
  {
    hide Encode32, Decode32;
    var t := Do(s, st);
    assert t.c2s + Unsent(t.client) == s.c2s + Unsent(s.client);
    assert Received(t.server) + (t.c2s + Unsent(t.client)) == Received(t.server) + t.c2s + Unsent(t.client);
    assert Received(s.server) + (s.c2s + Unsent(s.client)) == Received(s.server) + s.c2s + Unsent(s.client);
  }

  lemma ReceiveOk(s: Remote, rs: RegFile, script: seq<Op>)
    requires RemoteOk(s, rs, script) && Can(s, Receive)
    ensures RemoteOk(Do(s, Receive), rs, script)
  {
    assert s.s2c[..4] == s.s2c;
  }

  /** The command the server takes up next is the oldest one in flight. */
  lemma HeadBytes(s: Remote)
    requires Aligned(s) && s.c2s != []
    ensures s.flight != []
    ensures Received(s.server) + s.c2s + Unsent(s.client) == EncodeOp(s.flight[0]) + EncodeOps(s.flight[1..])
  {
    hide Encode32, Decode32;
    assert |EncodeOps(s.flight)| > 0;
    EncodeCons(s.flight);
  }

  lemma RecvCmdAligned(s: Remote)
    requires Aligned(s) && Can(s, RecvCmd)
    ensures Aligned(Do(s, RecvCmd)) && Do(s, RecvCmd) == s.(c2s := s.c2s[1..], server := AwaitAddr(s.c2s[0]))
  {
    HeadBytes(s);
    hide Encode32, EncodeOps;
    var t := Do(s, RecvCmd);
    assert Received(s.server) + s.c2s == s.c2s;
    assert s.c2s[0] == (s.c2s + Unsent(s.client))[0] == Tag(s.flight[0]);
    assert Received(t.server) + t.c2s == s.c2s;
  }

  lemma RecvCmdOk(s: Remote, rs: RegFile, script: seq<Op>)
    requires RemoteOk(s, rs, script) && Can(s, RecvCmd)
    ensures RemoteOk(Do(s, RecvCmd), rs, script)
  {
    hide Aligned;
    RecvCmdAligned(s);
  }

  lemma AddrBytes(s: Remote)
    requires Aligned(s) && Can(s, RecvAddr)
    ensures s.flight != [] && Decode32(s.c2s[..4]) == s.flight[0].addr && s.c2s[..4] == Encode32(s.flight[0].addr)
  {
    HeadBytes(s);
    var all := Received(s.server) + s.c2s + Unsent(s.client);
    assert all[1..5] == s.c2s[..4];
    assert EncodeOp(s.flight[0])[1..5] == Encode32(s.flight[0].addr);
    WordRoundTrip(s.flight[0].addr);
  }

  lemma RecvAddrWriteOk(s: Remote, rs: RegFile, script: seq<Op>)
    requires RemoteOk(s, rs, script) && Can(s, RecvAddr) && s.server.cmd == CALL_WRITE
    ensures RemoteOk(Do(s, RecvAddr), rs, script)
  {
    hide Encode32, Decode32;
    AddrBytes(s);
    var t := Do(s, RecvAddr);
    assert Received(t.server) + t.c2s == Received(s.server) + s.c2s;
  }

  /** When the server has received a read command whole, there is nothing else in the channel. */
  lemma ReadIsLast(s: Remote)
    requires Aligned(s) && OneReply(s) && Can(s, RecvAddr) && s.server.cmd != CALL_WRITE
    ensures |s.flight| == 1 && s.flight[0].ReadReg? && s.c2s[4..] == [] && Unsent(s.client) == []
    ensures s.client.Awaiting? && s.s2c == []
  {
    HeadBytes(s);
    assert EncodeOps(s.flight[1..]) == [];
    assert |s.c2s| + |Unsent(s.client)| == 4;
  }

  lemma RecvAddrReadOk(s: Remote, rs: RegFile, script: seq<Op>)
    requires RemoteOk(s, rs, script) && Can(s, RecvAddr) && s.server.cmd != CALL_WRITE
    ensures RemoteOk(Do(s, RecvAddr), rs, script)
  {
    hide Encode32, Decode32;
    AddrBytes(s);
    ReadIsLast(s);
    var op, t := s.flight[0], Do(s, RecvAddr);
    ExecSnoc(rs, s.executed, op);
    WordRoundTrip(LocalRead(s.regs, op.addr));
    assert t.s2c == Encode32(LocalRead(s.regs, op.addr));
    assert t.executed + t.flight + t.script == s.executed + s.flight + s.script;
  }

  lemma CutFront<T>(p: seq<T>, x: seq<T>, y: seq<T>)
    requires p + x == p + y
    ensures x == y
  {
    assert (p + x)[|p|..] == x && (p + y)[|p|..] == y;
  }

  lemma CutField<T>(x: seq<T>, u: seq<T>, v: seq<T>, w: seq<T>)
    requires x + u == v + w && |v| <= |x|
    ensures x[..|v|] == v && x[|v|..] + u == w
  {
    assert (x + u)[..|v|] == x[..|v|] && (v + w)[..|v|] == v;
    assert (x + u)[|v|..] == x[|v|..] + u && (v + w)[|v|..] == w;
  }

  lemma ValueBytes(s: Remote)
    requires Aligned(s) && Can(s, RecvValue)
    ensures s.flight != [] && Decode32(s.c2s[..4]) == s.flight[0].value
    ensures s.c2s[4..] + Unsent(s.client) == EncodeOps(s.flight[1..])
  {
    hide Encode32, Decode32;
    HeadBytes(s);
    hide EncodeOps, Unsent;
    var op, front := s.flight[0], [CALL_WRITE] + Encode32(s.server.addr);
    var rest, mine, value := EncodeOps(s.flight[1..]), Unsent(s.client), Encode32(op.value);
    assert EncodeOp(op) == front + value && Received(s.server) == front;
    Associate(front, s.c2s, mine);
    Associate(front, value, rest);
    CutFront(front, s.c2s + mine, value + rest);
    CutField(s.c2s, mine, value, rest);
    WordRoundTrip(op.value);
  }

  lemma RecvValueAligned(s: Remote)
    requires Aligned(s) && Can(s, RecvValue)
    ensures Aligned(Do(s, RecvValue))
    ensures s.flight != [] && s.flight[0] == WriteReg(s.server.addr, Decode32(s.c2s[..4]))
    ensures |s.flight| == 1 ==> Unsent(s.client) == []
  {
    hide Encode32, Decode32;
    ValueBytes(s);
    if |s.flight| == 1 { assert EncodeOps(s.flight[1..]) == []; }
    var t := Do(s, RecvValue);
    assert Received(t.server) + t.c2s == t.c2s;
  }

  lemma RecvValueOk(s: Remote, rs: RegFile, script: seq<Op>)
    requires RemoteOk(s, rs, script) && Can(s, RecvValue)
    ensures RemoteOk(Do(s, RecvValue), rs, script)
  {
    hide Decode32, Aligned;
    RecvValueAligned(s);
    ExecSnoc(rs, s.executed, s.flight[0]);
    MoveHead(s.executed, s.flight, s.script);
  }

  lemma DoOk(s: Remote, st: RemoteStep, rs: RegFile, script: seq<Op>)
    requires RemoteOk(s, rs, script) && Can(s, st)
    ensures RemoteOk(Do(s, st), rs, script)
  {
    match st
    case SendTag => SendTagOk(s, rs, script);
    case SendAddr => SendMoreOk(s, st, rs, script);
    case SendValue => SendMoreOk(s, st, rs, script);
    case Receive => ReceiveOk(s, rs, script);
    case RecvCmd => RecvCmdOk(s, rs, script);
    case RecvAddr =>
      if s.server.cmd == CALL_WRITE { RecvAddrWriteOk(s, rs, script); } else { RecvAddrReadOk(s, rs, script); }
    case RecvValue => RecvValueOk(s, rs, script);
  }

  lemma {:induction false} RemoteRunOk(s: Remote, sts: seq<RemoteStep>, t: Remote, rs: RegFile, script: seq<Op>)
    requires RemoteOk(s, rs, script) && RemoteRun(s, sts, t)
    ensures RemoteOk(t, rs, script)
    decreases sts
  {
    if sts != [] {
      DoOk(s, sts[0], rs, script);
      RemoteRunOk(Do(s, sts[0]), sts[1..], t, rs, script);
    }
  }

  /** The script is done and everything sent has been handled. */
  predicate Finished(t: Remote) {
    t.client.Ready? && t.script == [] && t.c2s == [] && t.server.AwaitCmd?
  }

  /** At rest, everything begun has been carried out. */
  lemma AtRest(t: Remote, rs: RegFile, script: seq<Op>)
    requires RemoteOk(t, rs, script) && Finished(t)
    ensures t.results == Reads(rs, script) && t.regs == Final(rs, script)
  {
    assert EncodeOps(t.flight) == [];
    if t.flight != [] { EncodeCons(t.flight); }
    assert t.executed + t.flight + t.script == t.executed;
  }

  /** Remote registers refine local ones: for every script and every interleaving of the client's sends with the server's
      receives, the reads return what in-order local execution returns; no command is ever misread; at most one reply is
      outstanding; and once everything sent has been handled, the registers are those of local execution. */
  lemma RemoteRefinesLocal(rs: RegFile, script: seq<Op>, sts: seq<RemoteStep>, t: Remote)
    requires RemoteRun(Start(rs, script), sts, t)
    ensures t.results <= Reads(rs, script)
    ensures t.strays == 0 && (|t.s2c| == 0 || |t.s2c| == 4) && (t.s2c != [] ==> t.client.Awaiting?)
    ensures Finished(t) ==>
              t.results == Reads(rs, script) && t.regs == Final(rs, script)
  {
    RemoteRunOk(Start(rs, script), sts, t, rs, script);
    ResultsPrefix(t, rs, script);
    if Finished(t) { AtRest(t, rs, script); }
  }

  lemma ResultsPrefix(t: Remote, rs: RegFile, script: seq<Op>)
    requires Agrees(t, rs, script)
    ensures t.results <= Reads(rs, script)
  {
    ReadsPrefix(rs, t.executed, t.flight + t.script);
    assert t.executed + (t.flight + t.script) == t.executed + t.flight + t.script;
  }

  /** Nothing gets stuck: until the script is done and handled, client or server can move. */
  lemma RemoteProgress(rs: RegFile, script: seq<Op>, sts: seq<RemoteStep>, t: Remote)
    requires RemoteRun(Start(rs, script), sts, t)
    ensures (exists st: RemoteStep :: Can(t, st)) ||
            Finished(t)
  {
    RemoteRunOk(Start(rs, script), sts, t, rs, script);
    if t.client.Ready? || t.client.Awaiting? {
      if t.c2s != [] || !t.server.AwaitCmd? { ServerCanMove(t); }
      if t.c2s == [] && t.server.AwaitCmd? && t.client.Awaiting? && t.s2c == [] { EncodeCons(t.flight); }
      assert t.client.Ready? && t.script != [] ==> Can(t, SendTag);
      assert t.client.Awaiting? && |t.s2c| == 4 ==> Can(t, Receive);
    } else {
      assert Can(t, SendAddr) || Can(t, SendValue);
    }
  }

  lemma ServerCanMove(t: Remote)
    requires Aligned(t) && Unsent(t.client) == [] && (t.c2s != [] || !t.server.AwaitCmd?)
    ensures Can(t, RecvCmd) || Can(t, RecvAddr) || Can(t, RecvValue)
  {
    if !t.server.AwaitCmd? {
      EncodeCons(t.flight);
      assert |Received(t.server) + t.c2s + Unsent(t.client)| >= |EncodeOp(t.flight[0])|;
    }
  }

  // ---------------------------------------------------------------- how long it takes

  function ServerSteps(op: Op): nat { if op.WriteReg? then 3 else 2 }

  /** The steps one call takes, at both ends together. */
  function CallSteps(op: Op): nat { if op.WriteReg? then 6 else 5 }

  function Sum(cost: Op -> nat, ops: seq<Op>): nat {
    if ops == [] then 0 else cost(ops[0]) + Sum(cost, ops[1..])
  }

  lemma {:induction false} SumSnoc(cost: Op -> nat, ops: seq<Op>, op: Op)
    ensures Sum(cost, ops + [op]) == Sum(cost, ops) + cost(op)
  {
    if ops == [] {
      assert ops + [op] == [op] && [op][1..] == [];
    } else {
      assert (ops + [op])[1..] == ops[1..] + [op];
      SumSnoc(cost, ops[1..], op);
    }
  }

  function ClientLeft(c: ClientPhase): nat {
    match c
    case Ready => 0
    case SentTag(_) => 2
    case _ => 1
  }

  function ServerDone(sv: ServerPhase): nat {
    match sv
    case AwaitCmd => 0
    case AwaitAddr(_) => 1
    case AwaitValue(_) => 2
  }

  /** Steps still to be taken by client and server until the script is done and handled. */
  function StepsLeft(s: Remote): int {
    Sum(CallSteps, s.script) + ClientLeft(s.client) + Sum(ServerSteps, s.flight) - ServerDone(s.server)
  }

  /** Every step of either end is one of them. */
  lemma DoTakesOne(s: Remote, st: RemoteStep)
    requires Aligned(s) && OneReply(s) && Can(s, st)
    ensures StepsLeft(Do(s, st)) == StepsLeft(s) - 1
  {
    hide Encode32, Decode32, EncodeOps, EncodeOp;
    match st
    case SendTag => SumSnoc(ServerSteps, s.flight, s.script[0]);
    case SendAddr =>
    case SendValue =>
    case Receive =>
    case RecvCmd => RecvCmdAligned(s);
    case RecvAddr => AddrBytes(s);
    case RecvValue => ValueBytes(s);
  }

  lemma {:induction false} StepsAdd(s: Remote, sts: seq<RemoteStep>, t: Remote, rs: RegFile, script: seq<Op>)
    requires RemoteOk(s, rs, script) && RemoteRun(s, sts, t)
    ensures |sts| + StepsLeft(t) == StepsLeft(s)
    decreases sts
  {
    hide Aligned, OneReply, Agrees, StepsLeft, Do, Can;
    if sts != [] {
      DoTakesOne(s, sts[0]);
      DoOk(s, sts[0], rs, script);
      StepsAdd(Do(s, sts[0]), sts[1..], t, rs, script);
    }
  }

  lemma NoneLeft(t: Remote)
    requires Aligned(t) && OneReply(t)
    ensures StepsLeft(t) >= 0 && (StepsLeft(t) == 0 <==> Finished(t))
  {
    hide Encode32, Decode32;
    if t.flight == [] {
      assert EncodeOps(t.flight) == [];
    } else {
      EncodeCons(t.flight);
    }
  }

  /** Every run ends: it has at most as many steps as the calls of the script take, and exactly as many if and only if the
      script is done and handled; then the results are those of local execution. */
  lemma RemoteTerminates(rs: RegFile, script: seq<Op>, sts: seq<RemoteStep>, t: Remote)
    requires RemoteRun(Start(rs, script), sts, t)
    ensures |sts| <= Sum(CallSteps, script)
    ensures |sts| == Sum(CallSteps, script) <==> Finished(t)
    ensures |sts| == Sum(CallSteps, script) ==> t.results == Reads(rs, script) && t.regs == Final(rs, script)
  {
    RemoteRunOk(Start(rs, script), sts, t, rs, script);
    StepsAdd(Start(rs, script), sts, t, rs, script);
    NoneLeft(t);
    if Finished(t) { AtRest(t, rs, script); }
  }
}
