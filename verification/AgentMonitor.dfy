/** The SystemVerilog monitor, clock by clock: the traffic of host and device back into transactions. */
module AgentMonitor {
  import opened BitSeq
  import opened UsbCrc
  import opened CrcRoutines
  import opened LineCode
  import opened AgentDriver
  import opened AgentReceivers
  import Seqs

  // ---- One packet --------------------------------------------------------------------------------

  /** The enumeration value of four PID bits; values outside it are not supported by the monitor. */
  datatype PidOption = NoPid | SomePid(p: PidE)

  function PidOf(nibble: Bits): PidOption {
    if nibble == Nibble(OUT) then SomePid(OUT)
    else if nibble == Nibble(IN) then SomePid(IN)
    else if nibble == Nibble(SOF) then SomePid(SOF)
    else if nibble == Nibble(SETUP) then SomePid(SETUP)
    else if nibble == Nibble(DATA0) then SomePid(DATA0)
    else if nibble == Nibble(DATA1) then SomePid(DATA1)
    else if nibble == Nibble(ACK) then SomePid(ACK)
    else if nibble == Nibble(NAK) then SomePid(NAK)
    else if nibble == Nibble(STALL) then SomePid(STALL)
    else NoPid
  }

  lemma PidOfNibble(p: PidE)
    ensures PidOf(Nibble(p)) == if p == PRE then NoPid else SomePid(p)
  {}

  function Blank(p: PidE): (t: Item)
    ensures WellFormed(t)
  {
    Item(p, Fill(false, 7), Fill(false, 4), Fill(false, 11), [])
  }

  /** What collect_packet makes of a packet: its transaction, if it is valid. */
  datatype Finding = Invalid | Valid(t: Item)

  function SkipJ(w: seq<Pins>): (r: seq<Pins>)
    ensures |r| <= |w|
  {
    if w == [] || LineOf(w[0]) != J then w else SkipJ(w[1..])
  }

  function SkipToSE0(w: seq<Pins>): (r: seq<Pins>)
    ensures |r| <= |w|
  {
    if w == [] || LineOf(w[0]) == SE0 then w else SkipToSE0(w[1..])
  }

  function SkipSE0(w: seq<Pins>): (r: seq<Pins>)
    ensures |r| <= |w| && (w != [] && LineOf(w[0]) == SE0 ==> |r| < |w|)
  {
    if w == [] || LineOf(w[0]) != SE0 then w else SkipSE0(w[1..])
  }

  /** collect_packet from the first clock of SYNC's first K to the first clock behind the SE0 at the end. */
  function Collect(c: Cursor): (Finding, seq<Pins>) {
    var (sync, c1) := ReadBits(c, 8);
    var (pid, c2) := ReadBits(c1, 8);
    var (r, c3) :=
      if sync == ByteBits(0x80) && pid[4..] == Not(pid[..4]) then Payload(PidOf(pid[..4]), c2)
      else (Invalid, c2);
    (r, SkipSE0(SkipToSE0(c3.rest)))
  }

  function Payload(pid: PidOption, c: Cursor): (Finding, Cursor) {
    match pid
    case NoPid => (Invalid, c)
    case SomePid(p) =>
      if IsToken(p) || p == SOF then
        var (f, c1) := ReadBits(c, 16);
        (Valid(if p == SOF then Blank(p).(frame := f[..11]) else Blank(p).(addr := f[..7], endp := f[7..11])), c1)
      else if IsData(p) then
        var (bits, c1) := ReadToEop(c);
        var bytes := Group(bits);
        (if |bits| % 8 != 0 || |bytes| < 2 then Invalid else Valid(Blank(p).(data := bytes[..|bytes| - 2])), c1)
      else (Valid(Blank(p)), c)
  }

  /** The part of an item its packet carries. */
  function Carried(t: Item): Item
    requires WellFormed(t)
  {
    if t.pid == SOF then Blank(SOF).(frame := t.frame)
    else if IsToken(t.pid) then Blank(t.pid).(addr := t.addr, endp := t.endp)
    else if IsData(t.pid) then Blank(t.pid).(data := t.data)
    else Blank(t.pid)
  }

  lemma {:induction false} LevelSkipped(l: Line, n: nat, dev: bool, w: seq<Pins>)
    ensures l == J ==> SkipJ(Pinned(Level(l, n), dev) + w) == SkipJ(w)
    ensures l == SE0 ==> SkipSE0(Pinned(Level(l, n), dev) + w) == SkipSE0(w)
    ensures l != SE0 ==> SkipToSE0(Pinned(Level(l, n), dev) + w) == SkipToSE0(w)
    decreases n
  {
    var v := Pinned(Level(l, n), dev) + w;
    if n == 0 {
      assert v == w;
    } else {
      assert LineOf(v[0]) == l && v[1..] == Pinned(Level(l, n - 1), dev) + w;
      LevelSkipped(l, n - 1, dev, w);
    }
  }

  /** The two SE0 of the end of packet, from their beginning or from half a bit later on. */
  lemma EndOfPacket(k: nat, dev: bool, after: seq<Pins>)
    requires k <= 2
    ensures SampleAt(OnWire(EOP, dev) + after, 2) == SE0
    ensures SkipSE0(SkipToSE0(Drop(OnWire(EOP, dev) + after, k))) == OnWire([J], dev) + after
  {
    var rest := OnWire([J], dev) + after;
    var v := Pinned(Level(SE0, 8 - k), dev) + rest;
    EopClocks();
    BitClocks(J);
    assert Drop(OnWire(EOP, dev) + after, k) == v;
    LevelSkipped(SE0, 8 - k, dev, rest);
    assert LineOf(v[0]) == SE0 && LineOf(rest[0]) == J;
  }

  /** PID bits as sent. */
  lemma PidBitsSent(p: PidE, rest: Bits)
    ensures (ByteBits(PidByte(p)) + rest)[..4] == Nibble(p)
    ensures (ByteBits(PidByte(p)) + rest)[4..8] == Not(Nibble(p))
    ensures (ByteBits(PidByte(p)) + rest)[8..] == rest
  {}

  lemma FieldsSent(t: Item, f: Bits)
    requires WellFormed(t) && (IsToken(t.pid) || t.pid == SOF) && f == Field(t) + Crc5Of(Field(t))
    ensures |f| == 16 && f[..11] == Field(t) && (IsToken(t.pid) ==> f[..7] == t.addr && f[7..11] == t.endp)
  {}

  /** Behind the PID the payload of a driven item is recovered and the cursor stands at the EOP. */
  lemma PayloadDecodes(t: Item, c: Cursor, l: Line, ones: nat, bits: Bits, dev: bool, after: seq<Pins>)
    requires WellFormed(t) && Reads(c, l, ones, bits, dev, OnWire(EOP, dev) + after)
    requires ItemBits(t) == ByteBits(PidByte(t.pid)) + bits
    ensures Payload(PidOf(Nibble(t.pid)), c).0 == if t.pid == PRE then Invalid else Valid(Carried(t))
    ensures SkipSE0(SkipToSE0(Payload(PidOf(Nibble(t.pid)), c).1.rest)) == OnWire([J], dev) + after
  {
    var tail := OnWire(EOP, dev) + after;
    PidOfNibble(t.pid);
    ItemBitsParts(t);
    CancelLeft(ByteBits(PidByte(t.pid)), bits, PayloadBits(t));
    EndOfPacket(0, dev, after);
    EndOfPacket(2, dev, after);
    assert Drop(tail, 0) == tail;
    hide PidOf, PidByte, ByteBits, ItemBits, Nibble, OnWire, Drop, SampleAt, SkipSE0, SkipToSE0, Reads, Payload;
    if IsToken(t.pid) || t.pid == SOF {
      FieldsSent(t, bits);
      FieldsRead(c, l, ones, bits, dev, tail);
      PayloadOfFields(t.pid, c);
    } else if IsData(t.pid) {
      DataRead(t.pid, t.data, c, l, ones, bits, dev, tail);
    } else {
      NothingLeft(c, l, ones, bits, dev, tail);
      PayloadOfOthers(t.pid, c);
    }
  }

  lemma PayloadOfFields(p: PidE, c: Cursor)
    requires IsToken(p) || p == SOF
    ensures var (f, c1) := ReadBits(c, 16);
      Payload(SomePid(p), c) ==
        (Valid(if p == SOF then Blank(p).(frame := f[..11]) else Blank(p).(addr := f[..7], endp := f[7..11])), c1)
  {
    hide ReadBits, Blank;
  }

  lemma PayloadOfData(p: PidE, c: Cursor, data: seq<bv8>)
    requires IsData(p)
    requires var bits := ReadToEop(c).0;
      |bits| % 8 == 0 && |Group(bits)| == |data| + 2 && Group(bits)[..|data|] == data
    ensures Payload(SomePid(p), c) == (Valid(Blank(p).(data := data)), ReadToEop(c).1)
  {
    hide ReadToEop, Blank, Group;
  }

  lemma PayloadOfOthers(p: PidE, c: Cursor)
    requires !IsToken(p) && p != SOF && !IsData(p)
    ensures Payload(SomePid(p), c) == (Valid(Blank(p)), c)
    ensures Payload(NoPid, c) == (Invalid, c)
  {}

  lemma DataRead(p: PidE, data: seq<bv8>, c: Cursor, l: Line, ones: nat, bits: Bits, dev: bool, tail: seq<Pins>)
    requires IsData(p) && Reads(c, l, ones, bits, dev, tail) && SampleAt(tail, 2) == SE0
    requires bits == BytesBits(data) + Crc16Of(data)
    ensures Payload(SomePid(p), c).0 == Valid(Blank(p).(data := data)) && Payload(SomePid(p), c).1.rest == Drop(tail, 2)
  {
    hide *;
    DataSent(data, bits);
    ReadToEopDecodes(c, l, ones, bits, dev, tail);
    PayloadOfData(p, c, data);
  }

  lemma FieldsRead(c: Cursor, l: Line, ones: nat, bits: Bits, dev: bool, tail: seq<Pins>)
    requires Reads(c, l, ones, bits, dev, tail) && |bits| == 16
    ensures ReadBits(c, 16).0 == bits && ReadBits(c, 16).1.rest == tail
  {
    hide ReadBits, Reads;
    var m, o := ReadBitsDecodes(c, l, ones, bits, dev, tail, 16);
    NothingLeft(ReadBits(c, 16).1, m, o, bits[16..], dev, tail);
    assert bits[..16] == bits;
  }

  lemma CancelLeft<T>(a: seq<T>, b: seq<T>, c: seq<T>)
    ensures a + b == a + c ==> b == c
  {
    if a + b == a + c {
      assert b == (a + b)[|a|..] == (a + c)[|a|..] == c;
    }
  }

  /** collect_packet inverts drive_packet, whoever drives: the transaction that was driven comes back, unless its PID
      is PRE, and the monitor stands at the J that ends the packet. */
  lemma CollectInvertsDrive(t: Item, dev: bool, after: seq<Pins>)
    requires WellFormed(t)
    ensures var r := Collect(Cursor(OnWire(ItemWave(t), dev) + after, true, 0));
            r.0 == (if t.pid == PRE then Invalid else Valid(Carried(t))) && r.1 == OnWire([J], dev) + after
  {
    var body := ItemBits(t);
    var all := ByteBits(0x80) + body;
    var c := Cursor(OnWire(ItemWave(t), dev) + after, true, 0);
    var tail := OnWire(EOP, dev) + after;
    PacketAsSent(body);
    OnWireConcat(Sent(J, 0, all), EOP, dev);
    Seqs.Assoc(OnWire(Sent(J, 0, all), dev), OnWire(EOP, dev), after);
    assert Reads(c, J, 0, all, dev, tail);
    var bits := PayloadBits(t);
    ItemBitsParts(t);
    assert body == ByteBits(PidByte(t.pid)) + bits;
    PidBitsSent(t.pid, bits);
    AllSplit(ByteBits(0x80), body);
    hide ReadBits, ItemBits, ItemWave, Reads, PidByte, Sent, PayloadBits, ByteBits, PidOf, Payload, SkipSE0, SkipToSE0,
      Nibble, OnWire;
    var l1, o1 := ReadBitsDecodes(c, J, 0, all, dev, tail, 8);
    var c1 := ReadBits(c, 8).1;
    var l2, o2 := ReadBitsDecodes(c1, l1, o1, body, dev, tail, 8);
    var c2 := ReadBits(c1, 8).1;
    PayloadDecodes(t, c2, l2, o2, bits, dev, after);
    assert body[..8][..4] == body[..4] && body[..8][4..] == body[4..8];
  }

  lemma AllSplit(a: Bits, b: Bits)
    ensures (a + b)[..|a|] == a && (a + b)[|a|..] == b
  {}

  // ---- A stream of traffic ---------------------------------------------------------------------------

  /** What the monitor reports, with the side that began to drive: a bus reset with its length, or a packet with the
      direction and endpoint it belongs to. */
  datatype Trans = Reset(us: nat, fromDevice: bool) | Packet(t: Item, dirIn: bool, fromDevice: bool)

  /** The direction and endpoint of the last token. */
  datatype Token = Token(dirIn: bool, endp: Bits)

  function NoToken(): Token { Token(false, Fill(false, 4)) }

  function NextToken(t: Item, k: Token): Token {
    if IsToken(t.pid) then Token(t.pid == IN, t.endp) else k
  }

  /** Data, handshake and SOF packets inherit the direction and the endpoint. */
  function Report(t: Item, k: Token, dev: bool): Trans {
    if IsToken(t.pid) then Packet(t, t.pid == IN, dev) else Packet(t.(endp := k.endp), k.dirIn, dev)
  }

  const RESET_MIN_CYCLES: nat := 5 * CYCLES_PER_US / 2

  /** collect_bus_reset: so many clocks of SE0. */
  function ReportReset(clocks: nat, dev: bool): seq<Trans> {
    if clocks >= RESET_MIN_CYCLES then [Reset(clocks / CYCLES_PER_US, dev)] else []
  }

  lemma ReadsShrink(c: Cursor, n: nat)
    ensures |ReadBits(c, n).1.rest| <= |c.rest|
    ensures n > 0 && c.rest != [] ==> |ReadBits(c, n).1.rest| < |c.rest|
    decreases n
  {
    if n > 0 {
      ReadsShrink(NextBit(c).2, n - 1);
    }
  }

  lemma EopShrinks(c: Cursor)
    ensures |ReadToEop(c).1.rest| <= |c.rest|
    decreases |c.rest|
  {
    var (b, eop, c1) := NextBit(c);
    if !eop {
      EopShrinks(c1);
    }
  }

  lemma CollectShrinks(c: Cursor)
    requires c.rest != []
    ensures |Collect(c).1| < |c.rest|
  {
    ReadsShrink(c, 8);
    ReadsShrink(ReadBits(c, 8).1, 8);
    hide ReadBits, Payload, PidOf, ByteBits, SkipSE0, SkipToSE0, NextBit;
    var c1 := ReadBits(c, 8).1;
    var (pid, c2) := ReadBits(c1, 8);
    PayloadShrinks(PidOf(pid[..4]), c2);
  }

  lemma PayloadShrinks(pid: PidOption, c: Cursor)
    ensures |Payload(pid, c).1.rest| <= |c.rest|
  {
    ReadsShrink(c, 16);
    EopShrinks(c);
    hide ReadBits, ReadToEop, Group;
  }

  /** The forever loop of collect_trans on the clocks to come. What the recording does not show the end of is not
      reported. */
  function CollectTrans(w: seq<Pins>, k: Token): seq<Trans>
    decreases |w|
  {
    var v := SkipJ(w);
    if v == [] then []
    else
      var dev := v[0].dut.On?;
      if LineOf(v[0]) == SE0 then
        var rest := SkipSE0(v);
        if rest == [] then []
        else ReportReset(|v| - |rest|, dev) + CollectTrans(rest[1..], NoToken())
      else
        CollectShrinks(Cursor(v, true, 0));
        var (found, rest) := Collect(Cursor(v, true, 0));
        if rest == [] then []
        else
          match found
          case Invalid => CollectTrans(rest[1..], k)
          case Valid(t) => [Report(t, k, dev)] + CollectTrans(rest[1..], NextToken(t, k))
  }

  // ---- The traffic of both sides ---------------------------------------------------------------------------

  function Quiet(n: nat): (r: seq<Drive>)
    ensures |r| == n
  {
    seq(n, _ => Off)
  }

  /** What the device drives while the driver waits for its answer. */
  function AnswerDrives(t: Item, reply: Reply): (r: seq<Drive>)
    requires GoodReply(reply)
    ensures |r| == |Waiting(t, reply)|
  {
    if !ExpectsResponse(t) then []
    else
      match reply
      case Silent => Quiet(RSP_TIMEOUT_CYCLES)
      case Answer(gap, a) =>
        var w := Clocks(ItemWave(a));
        Quiet(gap) + seq(|w|, i requires 0 <= i < |w| => On(w[i]))
  }

  /** What it drives during a command: nothing, but for its answer. */
  function CmdDrives(c: Cmd): (r: seq<Drive>)
    requires GoodCmd(c)
    ensures |r| == |CmdWave(c)|
  {
    match c
    case Normal(t, reply) => Quiet(8) + (Quiet(|Clocks(ItemWave(t))|) + AnswerDrives(t, reply))
    case _ => Quiet(|CmdWave(c)|)
  }

  function Replies(cmds: seq<Cmd>): (r: seq<Drive>)
    requires AllWellFormed(cmds)
    ensures |r| == |Traffic(cmds)|
  {
    if cmds == [] then [] else CmdDrives(cmds[0]) + Replies(cmds[1..])
  }

  /** The pins of both sides, clock by clock. */
  function Together(host: seq<Line>, dut: seq<Drive>): (r: seq<Pins>)
    requires |host| == |dut|
    ensures |r| == |host|
  {
    seq(|host|, i requires 0 <= i < |host| => Pins(host[i], dut[i]))
  }

  lemma TogetherConcat(a: seq<Line>, b: seq<Line>, c: seq<Drive>, d: seq<Drive>)
    requires |a| == |c| && |b| == |d|
    ensures Together(a + b, c + d) == Together(a, c) + Together(b, d)
  {}

  /** The answer on the wire, behind a time of J. */
  function Answered(t: Item, reply: Reply): seq<Pins>
    requires GoodReply(reply)
  {
    if !ExpectsResponse(t) then []
    else
      match reply
      case Silent => Pinned(Level(J, RSP_TIMEOUT_CYCLES), false)
      case Answer(gap, a) => Pinned(Level(J, gap), false) + OnWire(ItemWave(a), true)
  }

  /** What the monitor sees of a packet and its answer. */
  lemma NormalPins(t: Item, reply: Reply)
    requires WellFormed(t) && GoodReply(reply)
    ensures var c := Normal(t, reply);
      Together(CmdWave(c), CmdDrives(c))
        == Pinned(Level(J, 8), false) + (OnWire(ItemWave(t), false) + Answered(t, reply))
  {
    hide ItemWave, Clocks, Together, Pinned, Level, Quiet, Waiting, AnswerDrives, Answered;
    HostAlone(Level(J, 8));
    HostAlone(Clocks(ItemWave(t)));
    AnswerPins(t, reply);
    TogetherConcat(Clocks(ItemWave(t)), Waiting(t, reply), Quiet(|Clocks(ItemWave(t))|), AnswerDrives(t, reply));
    TogetherConcat(Level(J, 8), Clocks(ItemWave(t)) + Waiting(t, reply), Quiet(8),
                   Quiet(|Clocks(ItemWave(t))|) + AnswerDrives(t, reply));
  }

  lemma HostAlone(w: seq<Line>)
    ensures Together(w, Quiet(|w|)) == Pinned(w, false)
  {}

  lemma AnswerPins(t: Item, reply: Reply)
    requires GoodReply(reply)
    ensures Together(Waiting(t, reply), AnswerDrives(t, reply)) == Answered(t, reply)
  {
    hide ItemWave, Clocks;
  }

  lemma OtherPins(c: Cmd)
    requires GoodCmd(c) && !c.Normal?
    ensures Together(CmdWave(c), CmdDrives(c)) == Pinned(CmdWave(c), false)
  {
    hide CmdWave;
    HostAlone(CmdWave(c));
  }

  function ReportPacket(t: Item, k: Token, dev: bool): seq<Trans>
    requires WellFormed(t)
  {
    if t.pid == PRE then [] else [Report(Carried(t), k, dev)]
  }

  function TokenAfter(t: Item, k: Token): Token
    requires WellFormed(t)
  {
    if t.pid == PRE then k else NextToken(Carried(t), k)
  }

  /** What has to be reported for the driven commands and the answers to them. */
  function Expected(cmds: seq<Cmd>, k: Token): seq<Trans>
    requires AllWellFormed(cmds)
  {
    if cmds == [] then []
    else
      match cmds[0]
      case Idle(_) => Expected(cmds[1..], k)
      case BusReset(us) =>
        (if us >= 3 then [Reset(us, false)] else []) + Expected(cmds[1..], if us == 0 then k else NoToken())
      case Normal(t, reply) =>
        var k1 := TokenAfter(t, k);
        ReportPacket(t, k, false) +
        if ExpectsResponse(t) && reply.Answer? then
          ReportPacket(reply.t, k1, true) + Expected(cmds[1..], TokenAfter(reply.t, k1))
        else Expected(cmds[1..], k1)
  }

  lemma IdleSkipped(n: nat, dev: bool, w: seq<Pins>, k: Token)
    ensures CollectTrans(Pinned(Level(J, n), dev) + w, k) == CollectTrans(w, k)
  {
    hide Collect, ReportReset;
    LevelSkipped(J, n, dev, w);
  }

  /** Behind a packet or a reset the line is at J for a bit, and the monitor moves on at its first clock. */
  lemma MovesOn(dev: bool, w: seq<Pins>, k: Token)
    ensures var v := OnWire([J], dev) + w; CollectTrans(v[1..], k) == CollectTrans(w, k)
  {
    var v := OnWire([J], dev) + w;
    BitClocks(J);
    assert v[1..] == Pinned(Level(J, 3), dev) + w;
    IdleSkipped(3, dev, w, k);
  }

  lemma ResetReport(us: nat)
    ensures ReportReset(CYCLES_PER_US * us, false) == if us >= 3 then [Reset(us, false)] else []
  {}

  lemma ResetReported(us: nat, w: seq<Pins>, k: Token)
    ensures CollectTrans(Pinned(CmdWave(BusReset(us)), false) + w, k)
         == (if us >= 3 then [Reset(us, false)] else []) + CollectTrans(w, if us == 0 then k else NoToken())
  {
    var n := CYCLES_PER_US * us;
    var v := Pinned(Level(SE0, n), false) + (OnWire([J], false) + w);
    ResetPins(us, w);
    if us == 0 {
      ResetPins(0, w);
      hide CollectTrans, Pinned, CmdWave, OnWire;
      IdleSkipped(4, false, w, k);
    } else {
      hide CollectTrans, Pinned, CmdWave, OnWire, ReportReset;
      ResetReport(us);
      SE0Reported(n, false, w, k);
      MovesOn(false, w, NoToken());
    }
  }

  lemma ResetPins(us: nat, w: seq<Pins>)
    ensures Pinned(CmdWave(BusReset(us)), false) + w
         == Pinned(Level(SE0, CYCLES_PER_US * us), false) + (OnWire([J], false) + w)
    ensures us == 0 ==> Pinned(CmdWave(BusReset(us)), false) + w == Pinned(Level(J, 4), false) + w
  {
    BitClocks(J);
  }

  lemma SE0Reported(n: nat, dev: bool, w: seq<Pins>, k: Token)
    requires n > 0
    ensures var rest := OnWire([J], dev) + w;
      CollectTrans(Pinned(Level(SE0, n), dev) + rest, k) == ReportReset(n, dev) + CollectTrans(rest[1..], NoToken())
  {
    var rest := OnWire([J], dev) + w;
    var v := Pinned(Level(SE0, n), dev) + rest;
    LevelSkipped(SE0, n, dev, rest);
    BitClocks(J);
    assert LineOf(v[0]) == SE0 && v[0].dut.On? == dev && LineOf(rest[0]) == J && |v| - |rest| == n;
    hide Collect, ReportReset, OnWire, Level;
  }

  lemma PacketReported(t: Item, dev: bool, w: seq<Pins>, k: Token)
    requires WellFormed(t)
    ensures CollectTrans(OnWire(ItemWave(t), dev) + w, k) == ReportPacket(t, k, dev) + CollectTrans(w, TokenAfter(t, k))
  {
    CollectInvertsDrive(t, dev, w);
    FirstK(t, dev, w);
    var k1, rest := TokenAfter(t, k), OnWire([J], dev) + w;
    assert rest != [];
    hide *;
    MovesOn(dev, w, k1);
    AtK(OnWire(ItemWave(t), dev) + w, k, t, dev, rest);
  }

  /** A packet begins at K. */
  lemma AtK(v: seq<Pins>, k: Token, t: Item, dev: bool, rest: seq<Pins>)
    requires WellFormed(t) && v != [] && LineOf(v[0]) == K && v[0].dut.On? == dev && rest != []
    requires Collect(Cursor(v, true, 0)).0 == if t.pid == PRE then Invalid else Valid(Carried(t))
    requires Collect(Cursor(v, true, 0)).1 == rest
    ensures CollectTrans(v, k) == ReportPacket(t, k, dev) + CollectTrans(rest[1..], TokenAfter(t, k))
  {
    hide Collect, Report, NextToken, Carried, WellFormed, LineOf;
  }

  lemma FirstK(t: Item, dev: bool, w: seq<Pins>)
    requires WellFormed(t)
    ensures var v := OnWire(ItemWave(t), dev) + w; v != [] && LineOf(v[0]) == K && v[0].dut.On? == dev
  {
    assert ItemWave(t)[0] == SYNC[0];
  }

  lemma AnswerReported(t: Item, reply: Reply, w: seq<Pins>, k: Token)
    requires GoodReply(reply)
    ensures CollectTrans(Answered(t, reply) + w, k)
         == if ExpectsResponse(t) && reply.Answer? then
              ReportPacket(reply.t, k, true) + CollectTrans(w, TokenAfter(reply.t, k))
            else CollectTrans(w, k)
  {
    hide CollectTrans, OnWire, ItemWave, ReportPacket, TokenAfter, Level;
    assert [] + w == w;
    if ExpectsResponse(t) {
      match reply
      case Silent => IdleSkipped(RSP_TIMEOUT_CYCLES, false, w, k);
      case Answer(gap, a) =>
        Seqs.Assoc(Pinned(Level(J, gap), false), OnWire(ItemWave(a), true), w);
        IdleSkipped(gap, false, OnWire(ItemWave(a), true) + w, k);
        PacketReported(a, true, w, k);
    }
  }

  lemma Regrouped<T>(a: seq<T>, b: seq<T>, c: seq<T>, d: seq<T>)
    ensures (a + (b + c)) + d == a + (b + (c + d))
  {}

  /** A command reports its packet, and behind it the answer. */
  lemma NormalReported(t: Item, reply: Reply, w: seq<Pins>, k: Token)
    requires WellFormed(t) && GoodReply(reply)
    ensures var c, k1 := Normal(t, reply), TokenAfter(t, k);
      CollectTrans(Together(CmdWave(c), CmdDrives(c)) + w, k) == ReportPacket(t, k, false) +
        if ExpectsResponse(t) && reply.Answer? then
          ReportPacket(reply.t, k1, true) + CollectTrans(w, TokenAfter(reply.t, k1))
        else CollectTrans(w, k1)
  {
    NormalPins(t, reply);
    hide *;
    var later := Answered(t, reply) + w;
    Regrouped(Pinned(Level(J, 8), false), OnWire(ItemWave(t), false), Answered(t, reply), w);
    IdleSkipped(8, false, OnWire(ItemWave(t), false) + later, k);
    PacketReported(t, false, later, k);
    AnswerReported(t, reply, w, TokenAfter(t, k));
  }

  /** Whatever commands the driver executes, and however the device answers, the monitor reports exactly the packets of
      both and the resets, in order, with their side and with the right direction and endpoint; resets under
      2.5 microseconds, idle time and PRE packets are not reported. */
  lemma {:induction false} MonitorReportsTraffic(cmds: seq<Cmd>, k: Token)
    requires AllWellFormed(cmds)
    ensures CollectTrans(Together(Traffic(cmds), Replies(cmds)), k) == Expected(cmds, k)
    decreases |cmds|
  {
    if cmds == [] {
      assert Together([], []) == [];
    } else {
      var c, rest := cmds[0], Together(Traffic(cmds[1..]), Replies(cmds[1..]));
      TogetherConcat(CmdWave(c), Traffic(cmds[1..]), CmdDrives(c), Replies(cmds[1..]));
      hide CollectTrans, CmdWave, CmdDrives, Together, ReportPacket, TokenAfter;
      match c {
        case Idle(n) =>
          OtherPins(c);
          IdleReported(n, rest, k);
          MonitorReportsTraffic(cmds[1..], k);
        case BusReset(us) =>
          OtherPins(c);
          ResetReported(us, rest, k);
          MonitorReportsTraffic(cmds[1..], if us == 0 then k else NoToken());
        case Normal(t, reply) =>
          var k1 := TokenAfter(t, k);
          NormalReported(t, reply, rest, k);
          MonitorReportsTraffic(cmds[1..], k1);
          if ExpectsResponse(t) && reply.Answer? {
            MonitorReportsTraffic(cmds[1..], TokenAfter(reply.t, k1));
          }
      }
    }
  }

  lemma IdleReported(n: nat, w: seq<Pins>, k: Token)
    ensures CollectTrans(Pinned(CmdWave(Idle(n)), false) + w, k) == CollectTrans(w, k)
  {
    IdleSkipped(CYCLES_PER_BIT * n, false, w, k);
  }

  // ---- The monitor -------------------------------------------------------------------------------------

  class Monitor {
    var rest: seq<Pins>   // the recording from the current clock on
    var prevDp: bool
    var onesCnt: nat

    ghost function Now(): Cursor
      reads this
    {
      Cursor(rest, prevDp, onesCnt)
    }

    /** Before the first clock of the recording. */
    constructor (recording: seq<Pins>)
      ensures rest == [Pins(J, Off)] + recording
    {
      rest, prevDp, onesCnt := [Pins(J, Off)] + recording, false, 0;
    }

    method LineDp() returns (dp: bool)
      ensures dp == Dp(SampleAt(rest, 0))
    {
      dp := Dp(SampleAt(rest, 0));
    }

    /** So many clocks pass. */
    method Pass(clocks: nat)
      modifies this`rest
      ensures rest == Drop(old(rest), clocks)
    {
      rest := Drop(rest, clocks);
    }

    method GetNextBit() returns (outBit: bool, eop: bool)
      modifies this
      ensures outBit == NextBit(old(Now())).0 && eop == NextBit(old(Now())).1 && Now() == NextBit(old(Now())).2
    {
      ghost var w := rest;
      DropTwice(w, 2, 2);
      DropTwice(w, 4, 2);
      DropTwice(w, 6, 2);
      hide Drop, SampleAt;
      outBit := false;
      Pass(2);
      eop := SampleAt(rest, 0) == SE0;
      if eop {
        return;
      }
      var currentDp := LineDp();
      if currentDp == prevDp {
        outBit := true;
        onesCnt := onesCnt + 1;
      } else {
        onesCnt := 0;
      }
      prevDp := currentDp;
      Pass(2);
      if onesCnt == 6 {
        Pass(2);
        prevDp := LineDp();
        Pass(2);
        onesCnt := 0;
      }
    }

    method ReadVector(n: nat) returns (v: Bits)
      modifies this
      ensures v == ReadBits(old(Now()), n).0 && Now() == ReadBits(old(Now()), n).1
    {
      v := [];
      ghost var goal := ReadBits(Now(), n);
      assert [] + goal.0 == goal.0;
      hide NextBit, ReadBits;
      for i := 0 to n
        invariant |v| == i && goal.0 == v + ReadBits(Now(), n - i).0 && goal.1 == ReadBits(Now(), n - i).1
      {
        ghost var c := Now();
        ReadBitsNext(c, n - i - 1);
        var b, eop := GetNextBit();
        Seqs.Assoc(v, [b], ReadBits(Now(), n - i - 1).0);
        v := v + [b];
      }
      ReadNone(Now());
      assert v + [] == v;
    }

    /** The data loop of collect_packet: bytes until the end of packet, and the bits left over. */
    method ReadData() returns (bytes: seq<bv8>, bitCnt: nat)
      modifies this
      ensures bytes == Group(ReadToEop(old(Now())).0) && bitCnt == |ReadToEop(old(Now())).0| % 8
      ensures Now() == ReadToEop(old(Now())).1
    {
      bytes := [];
      var curByte: Bits := [];
      ghost var c0, got: Bits := Now(), [];
      var eop := false;
      assert [] + ReadToEop(c0).0 == ReadToEop(c0).0 && Group([]) == [] && Rem([]) == [];
      hide Group, Rem;
      while !eop
        invariant ReadToEop(c0).0 == got + (if eop then [] else ReadToEop(Now()).0)
        invariant ReadToEop(c0).1 == if eop then Now() else ReadToEop(Now()).1
        invariant curByte == Rem(got) && bytes == Group(got)
        decreases |rest|, !eop
      {
        ghost var c := Now();
        StepToEop(c);
        var b;
        b, eop := GetNextBit();
        if !eop {
          Seqs.Assoc(got, [b], ReadToEop(Now()).0);
          GroupPush(got, b);
          got := got + [b];
          curByte := curByte + [b];
          if |curByte| == 8 {
            bytes := bytes + [FromBits(curByte)];
            curByte := [];
          }
        }
      }
      assert got + [] == got;
      bitCnt := |curByte|;
    }

    /** The wait for the end of the SE0 the line is at. */
    method LeaveSE0() returns (clocks: nat)
      modifies this`rest
      ensures rest == SkipSE0(old(rest)) && clocks == |old(rest)| - |rest|
    {
      clocks := 0;
      while rest != [] && LineOf(rest[0]) == SE0
        invariant SkipSE0(rest) == SkipSE0(old(rest)) && clocks == |old(rest)| - |rest|
        decreases |rest|
      {
        clocks := clocks + 1;
        Pass(1);
      }
    }

    method CollectPacket() returns (r: Finding)
      modifies this
      ensures r == Collect(old(Now())).0 && rest == Collect(old(Now())).1
    {
      hide ReadBits, ReadToEop, Group, ByteBits, PidOf;
      r := Invalid;
      var syncByte := ReadVector(8);
      var pidByte := ReadVector(8);
      if syncByte == ByteBits(0x80) && pidByte[4..] == Not(pidByte[..4]) {
        match PidOf(pidByte[..4]) {
          case NoPid =>
          case SomePid(p) =>
            if IsToken(p) || p == SOF {
              var f := ReadVector(16);
              r := Valid(if p == SOF then Blank(p).(frame := f[..11]) else Blank(p).(addr := f[..7], endp := f[7..11]));
            } else if IsData(p) {
              var bytes, bitCnt := ReadData();
              if bitCnt == 0 && |bytes| >= 2 {
                r := Valid(Blank(p).(data := bytes[..|bytes| - 2]));
              }
            } else {
              r := Valid(Blank(p));
            }
        }
      }
      ghost var at := rest;
      while rest != [] && LineOf(rest[0]) != SE0
        invariant SkipToSE0(rest) == SkipToSE0(at)
        decreases |rest|
      {
        Pass(1);
      }
      var _ := LeaveSE0();
    }

    method WaitForStartOfPacket()
      requires rest != []
      modifies this
      ensures rest == SkipJ(old(rest)[1..]) && prevDp && onesCnt == 0
    {
      Pass(1);
      while rest != [] && LineOf(rest[0]) == J
        invariant SkipJ(rest) == SkipJ(old(rest)[1..])
        decreases |rest|
      {
        Pass(1);
      }
      prevDp := true;
      onesCnt := 0;
    }

    /** collect_trans until the recording ends. */
    method Run() returns (out: seq<Trans>)
      requires rest != []
      modifies this
      ensures out == CollectTrans(old(rest)[1..], NoToken()) && rest == []
    {
      out := [];
      var k := NoToken();
      hide Collect, ReportReset, SkipJ, SkipSE0;
      while rest != []
        invariant out + (if rest == [] then []
          else CollectTrans(rest[1..], k)) == CollectTrans(old(rest)[1..], NoToken())
        decreases |rest|
      {
        ghost var w := rest[1..];
        WaitForStartOfPacket();
        if rest == [] {
          break;
        }
        ghost var v := rest;
        var dev := rest[0].dut.On?;
        if LineOf(rest[0]) == SE0 {
          var n := LeaveSE0();
          if rest != [] {
            Seqs.Assoc(out, ReportReset(n, dev), CollectTrans(rest[1..], NoToken()));
            out := out + ReportReset(n, dev);
          }
          k := NoToken();
        } else {
          CollectShrinks(Now());
          var r := CollectPacket();
          match r {
            case Invalid =>
            case Valid(t) =>
              if rest != [] {
                Seqs.Assoc(out, [Report(t, k, dev)], CollectTrans(rest[1..], NextToken(t, k)));
                out := out + [Report(t, k, dev)];
                k := NextToken(t, k);
              }
          }
        }
      }
      assert out + [] == out;
    }
  }

  lemma ReadNone(c: Cursor)
    ensures ReadBits(c, 0) == ([], c)
  {}

  lemma DropTwice(w: seq<Pins>, a: nat, b: nat)
    ensures Drop(Drop(w, a), b) == Drop(w, a + b) && SampleAt(Drop(w, a), 0) == SampleAt(w, a)
  {}

  lemma StepToEop(c: Cursor)
    ensures var (b, eop, c1) := NextBit(c);
            && (eop ==> ReadToEop(c).0 == [] && ReadToEop(c).1 == c1)
            && (!eop ==> ReadToEop(c).0 == [b] + ReadToEop(c1).0 && ReadToEop(c).1 == ReadToEop(c1).1
                         && |c1.rest| < |c.rest|)
  {}
}
