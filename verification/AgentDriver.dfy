/** The SystemVerilog driver clock by clock, four to the bit: NRZI and eager stuffing by a ones counter, CRC bits
    sent high bit first. */
module AgentDriver {
  import opened BitSeq
  import opened UsbCrc
  import opened CrcRoutines
  import opened LineCode
  import opened Transfer
  import HostDriver
  import Seqs

  // ---- Items -------------------------------------------------------------------------------------

  /** What the device does when it is expected to answer: nothing, or it begins to drive the packet of an item so many
      clocks later. */
  datatype Reply = Silent | Answer(gap: nat, t: Item)

  /** Work for the driver: a packet, with what the device does if it expects an answer; a bus reset of so many
      microseconds; idle bit intervals. */
  datatype Cmd = Normal(t: Item, reply: Reply) | BusReset(us: nat) | Idle(n: nat)

  const CYCLES_PER_BIT: nat := 4
  const CYCLES_PER_US: nat := 48
  const RSP_TIMEOUT_CYCLES: nat := 18 * CYCLES_PER_BIT

  datatype PidE = OUT | IN | SOF | SETUP | DATA0 | DATA1 | ACK | NAK | STALL | PRE

  function Nibble(p: PidE): (r: Bits)
    ensures |r| == 4
  {
    match p
    case OUT => [true, false, false, false]
    case IN => [true, false, false, true]
    case SOF => [true, false, true, false]
    case SETUP => [true, false, true, true]
    case DATA0 => [true, true, false, false]
    case DATA1 => [true, true, false, true]
    case ACK => [false, true, false, false]
    case NAK => [false, true, false, true]
    case STALL => [false, true, true, true]
    case PRE => [false, false, true, true]
  }

  /** The byte {~pid, pid}. */
  function PidByte(p: PidE): (r: bv8)
    ensures ByteBits(r) == Nibble(p) + Not(Nibble(p))
  {
    FromBits(Nibble(p) + Not(Nibble(p)))
  }

  predicate IsToken(p: PidE) { p == IN || p == OUT || p == SETUP }
  predicate IsData(p: PidE) { p == DATA0 || p == DATA1 }

  predicate ExpectsResponse(t: Item) { IsData(t.pid) || t.pid == IN }

  /** usb_transaction: vector fields as their bits, low bit first. */
  datatype Item = Item(pid: PidE, addr: Bits, endp: Bits, frame: Bits, data: seq<bv8>)

  predicate WellFormed(t: Item) { |t.addr| == 7 && |t.endp| == 4 && |t.frame| == 11 }

  function Field(t: Item): (r: Bits)
    requires WellFormed(t)
    ensures |r| == 11
  {
    if t.pid == SOF then t.frame else t.addr + t.endp
  }

  /** The bits between SYNC and EOP: the check bits in the order the receiver's register takes them. */
  function ItemBits(t: Item): Bits
    requires WellFormed(t)
  {
    ByteBits(PidByte(t.pid)) +
    if IsToken(t.pid) || t.pid == SOF then Field(t) + Crc5Of(Field(t))
    else if IsData(t.pid) then BytesBits(t.data) + Crc16Of(t.data)
    else []
  }

  function ItemWave(t: Item): seq<Line>
    requires WellFormed(t)
  {
    Packet(ItemBits(t), true)
  }

  /** Each bit interval is four clocks. */
  function Clocks<T>(w: seq<T>): (r: seq<T>)
    ensures |r| == CYCLES_PER_BIT * |w|
  {
    if w == [] then [] else [w[0], w[0], w[0], w[0]] + Clocks(w[1..])
  }

  lemma ClocksOne<T>(x: T)
    ensures Clocks([x]) == [x, x, x, x]
  {
    assert [x][1..] == [];
  }

  lemma {:induction false} ClocksConcat<T>(a: seq<T>, b: seq<T>)
    ensures Clocks(a + b) == Clocks(a) + Clocks(b)
    decreases |a|
  {
    if a == [] {
      assert [] + b == b;
    } else {
      Seqs.Uncons(a, b);
      ClocksConcat(a[1..], b);
      Seqs.Assoc([a[0], a[0], a[0], a[0]], Clocks(a[1..]), Clocks(b));
    }
  }

  // ---- Eager stuffing as a running state -----------------------------------------------------------

  function EagerOnes(bits: Bits, ones: nat): (r: nat)
    requires ones < 6
    ensures r < 6
    decreases |bits|
  {
    if bits == [] then ones
    else EagerOnes(bits[1..], if bits[0] && ones < 5 then ones + 1 else 0)
  }

  lemma {:induction false} EagerSnoc(bits: Bits, ones: nat, b: bool)
    requires ones < 6
    ensures EagerStuff(bits + [b], ones) == EagerStuff(bits, ones) + EagerStuff([b], EagerOnes(bits, ones))
    ensures EagerOnes(bits + [b], ones) == EagerOnes([b], EagerOnes(bits, ones))
    decreases |bits|
  {
    if bits == [] {
      assert bits + [b] == [b];
    } else {
      Seqs.Uncons(bits, [b]);
      var o := if bits[0] && ones < 5 then ones + 1 else 0;
      EagerSnoc(bits[1..], o, b);
      var head := if bits[0] && ones == 5 then [true, false] else [bits[0]];
      assert EagerStuff(bits, ones) == head + EagerStuff(bits[1..], o);
      assert EagerStuff(bits + [b], ones) == head + EagerStuff(bits[1..] + [b], o);
      Seqs.Assoc(head, EagerStuff(bits[1..], o), EagerStuff([b], EagerOnes(bits, ones)));
    }
  }

  /** What sending `bits` adds to the wire, and the line state it ends in. */
  function Sent(l: Line, ones: nat, bits: Bits): seq<Line>
    requires ones < 6
  {
    Nrzi(l, EagerStuff(bits, ones))
  }

  function SentEnd(l: Line, ones: nat, bits: Bits): (r: Line)
    requires ones < 6
    ensures l != SE0 ==> r != SE0
  {
    NrziEnd(l, EagerStuff(bits, ones))
  }

  lemma SentSnoc(l: Line, ones: nat, bits: Bits, b: bool)
    requires ones < 6
    ensures var o, m := EagerOnes(bits, ones), SentEnd(l, ones, bits);
            && Sent(l, ones, bits + [b]) == Sent(l, ones, bits) + Sent(m, o, [b])
            && SentEnd(l, ones, bits + [b]) == SentEnd(m, o, [b])
            && EagerOnes(bits + [b], ones) == EagerOnes([b], o)
  {
    EagerSnoc(bits, ones, b);
    NrziConcat(l, EagerStuff(bits, ones), EagerStuff([b], EagerOnes(bits, ones)));
  }

  /** What one bit adds: its own state, and a transition at once if it was the sixth one. */
  lemma SentOne(l: Line, ones: nat, b: bool)
    requires ones < 6
    ensures var n := if b then l else Flip(l);
            && Sent(l, ones, [b]) == (if b && ones == 5 then [n, Flip(n)] else [n])
            && SentEnd(l, ones, [b]) == (if b && ones == 5 then Flip(n) else n)
            && EagerOnes([b], ones) == (if b && ones < 5 then ones + 1 else 0)
  {
    assert [b][1..] == [];
    NrziCons(l, b, []);
    NrziCons(l, true, [false]);
    NrziCons(l, false, []);
    assert EagerStuff([b], ones) == if b && ones == 5 then [true] + [false] else [b] + [];
  }

  /** n zeros alternate. */
  lemma {:induction false} SentZeros(l: Line, n: nat)
    requires l != SE0
    ensures Sent(l, 0, Fill(false, n)) == seq(n, i => if i % 2 == 0 then Flip(l) else l)
    ensures SentEnd(l, 0, Fill(false, n)) == (if n % 2 == 0 then l else Flip(l)) && EagerOnes(Fill(false, n), 0) == 0
  {
    if n == 0 {
      assert Fill(false, 0) == [];
    } else {
      SentZeros(l, n - 1);
      SentSnoc(l, 0, Fill(false, n - 1), false);
      SentOne(SentEnd(l, 0, Fill(false, n - 1)), 0, false);
      assert Fill(false, n) == Fill(false, n - 1) + [false];
    }
  }

  /** SYNC is the code of 0x80 from an idle line. */
  lemma SyncIsByte()
    ensures Sent(J, 0, ByteBits(0x80)) == SYNC && SentEnd(J, 0, ByteBits(0x80)) == K
      && EagerOnes(ByteBits(0x80), 0) == 1
  {
    hide *;
    SyncByteBits();
    SentZeros(J, 7);
    SentSnoc(J, 0, Fill(false, 7), true);
    SentOne(SentEnd(J, 0, Fill(false, 7)), 0, true);
    SyncStates();
  }

  lemma SyncByteBits()
    ensures ByteBits(0x80) == Fill(false, 7) + [true]
  {}

  lemma SyncStates()
    ensures seq(7, i => if i % 2 == 0 then Flip(J) else J) + [Flip(J)] == SYNC && Flip(J) == K
  {}

  lemma {:induction false} EagerConcat(a: Bits, b: Bits, ones: nat)
    requires ones < 6
    ensures EagerStuff(a + b, ones) == EagerStuff(a, ones) + EagerStuff(b, EagerOnes(a, ones))
    ensures EagerOnes(a + b, ones) == EagerOnes(b, EagerOnes(a, ones))
    decreases |b|
  {
    if b == [] {
      assert a + b == a;
    } else {
      var n := |b| - 1;
      assert b == b[..n] + [b[n]] && a + b == (a + b[..n]) + [b[n]];
      hide *;
      EagerConcat(a, b[..n], ones);
      EagerSnoc(a + b[..n], ones, b[n]);
      EagerSnoc(b[..n], EagerOnes(a, ones), b[n]);
      Seqs.Assoc(EagerStuff(a, ones), EagerStuff(b[..n], EagerOnes(a, ones)),
                 EagerStuff([b[n]], EagerOnes(b[..n], EagerOnes(a, ones))));
    }
  }

  /** A packet is the code of 0x80 and its bits from an idle line, and the end of packet. */
  lemma PacketAsSent(bits: Bits)
    ensures Packet(bits, true) == Sent(J, 0, ByteBits(0x80) + bits) + EOP
  {
    SyncIsByte();
    EagerConcat(ByteBits(0x80), bits, 0);
    NrziConcat(J, EagerStuff(ByteBits(0x80), 0), EagerStuff(bits, 1));
    EagerIsStuffed(bits, 1);
  }

  lemma ItemBitsParts(t: Item)
    requires WellFormed(t)
    ensures IsToken(t.pid) || t.pid == SOF ==>
              ItemBits(t) == ByteBits(PidByte(t.pid)) + (Field(t) + Crc5Of(Field(t)))
    ensures IsData(t.pid) ==>
              ItemBits(t) == ByteBits(PidByte(t.pid)) + (BytesBits(t.data) + Crc16Of(t.data))
    ensures !IsToken(t.pid) && t.pid != SOF && !IsData(t.pid) ==> ItemBits(t) == ByteBits(PidByte(t.pid))
  {}

  lemma ReverseTwice(a: Bits)
    ensures Reverse(Reverse(a)) == a
  {}

  // ---- The driver ----------------------------------------------------------------------------------

  class Driver {
    var curLine: Line
    var onesCnt: nat
    ghost var wire: seq<Line>    // every line state driven so far, one per clock
    ghost var start: seq<Line>   // the wire when the packet began
    ghost var bits: Bits         // the bits sent since then, SYNC included

    /** The packet so far is the code of its bits from an idle line. */
    ghost predicate InPacket()
      reads this
    {
      wire == start + Clocks(Sent(J, 0, bits)) && curLine == SentEnd(J, 0, bits) && onesCnt == EagerOnes(bits, 0)
    }

    constructor ()
      ensures curLine == J && onesCnt == 0 && wire == []
    {
      curLine, onesCnt, wire, start, bits := J, 0, [], [], [];
    }

    method DriveLine(st: Line, nBits: nat)
      modifies this`wire
      ensures wire == old(wire) + Level(st, CYCLES_PER_BIT * nBits)
    {
      Hold(st, CYCLES_PER_BIT * nBits);
    }

    /** A line state for so many clocks. */
    method Hold(st: Line, clocks: nat)
      modifies this`wire
      ensures wire == old(wire) + Level(st, clocks)
    {
      for i := 0 to clocks
        invariant wire == old(wire) + Level(st, i)
      {
        wire := wire + [st];
      }
    }

    method SendBit(b: bool)
      requires InPacket()
      modifies this`curLine, this`onesCnt, this`wire, this`bits
      ensures InPacket() && bits == old(bits) + [b]
    {
      SentSnoc(J, 0, bits, b);
      SentOne(curLine, onesCnt, b);
      hide *;
      ghost var n := if b then curLine else Flip(curLine);
      ClocksConcat(Sent(J, 0, bits), Sent(curLine, onesCnt, [b]));
      Seqs.Assoc(start, Clocks(Sent(J, 0, bits)), Clocks(Sent(curLine, onesCnt, [b])));
      BitClocks(n);
      Seqs.Assoc(wire, Level(n, 4), Level(Flip(n), 4));
      if !b {
        curLine := Toggle(curLine);
        onesCnt := 0;
      } else {
        onesCnt := onesCnt + 1;
      }
      DriveLine(curLine, 1);
      if onesCnt == 6 {
        curLine := Toggle(curLine);
        DriveLine(curLine, 1);
        onesCnt := 0;
      }
      bits := bits + [b];
    }

    /** A byte, low bit first. */
    method SendByte(data: bv8)
      requires InPacket()
      modifies this`curLine, this`onesCnt, this`wire, this`bits
      ensures InPacket() && bits == old(bits) + ByteBits(data)
    {
      for i := 0 to 8
        invariant InPacket() && bits == old(bits) + ByteBits(data)[..i]
      {
        SendBit(Bit(data, i));
      }
    }

    method SendSync()
      modifies this
      ensures InPacket() && start == old(wire) && bits == ByteBits(0x80)
    {
      curLine := J;
      onesCnt := 0;
      start, bits := wire, [];
      SendByte(0x80);
    }

    method SendEop()
      modifies this`wire, this`curLine
      ensures wire == old(wire) + Clocks(EOP) && curLine == J
    {
      EopClocks();
      Seqs.Assoc(wire, Level(SE0, 8), Level(J, 4));
      DriveLine(SE0, 2);
      curLine := J;
      DriveLine(J, 1);
    }

    /** A field, element 0 first. */
    method SendField(field: Bits)
      requires InPacket()
      modifies this`curLine, this`onesCnt, this`wire, this`bits
      ensures InPacket() && bits == old(bits) + field
    {
      for i := 0 to |field|
        invariant InPacket() && bits == old(bits) + field[..i]
      {
        SendBit(field[i]);
      }
    }

    /** Check bits, highest element first. */
    method SendCrc(crc: Bits)
      requires InPacket()
      modifies this`curLine, this`onesCnt, this`wire, this`bits
      ensures InPacket() && bits == old(bits) + Reverse(crc)
    {
      ghost var r := Reverse(crc);
      for i := |crc| downto 0
        invariant InPacket() && bits == old(bits) + r[..|crc| - i]
      {
        SendBit(crc[i]);
        assert crc[i] == r[|crc| - i - 1];
      }
    }

    /** Data bytes. */
    method SendData(data: seq<bv8>)
      requires InPacket()
      modifies this`curLine, this`onesCnt, this`wire, this`bits
      ensures InPacket() && bits == old(bits) + BytesBits(data)
    {
      for i := 0 to |data|
        invariant InPacket() && bits == old(bits) + BytesBits(data[..i])
      {
        BytesBitsConcat(data[..i], [data[i]]);
        BytesBitsOne(data[i]);
        Seqs.Slices(data, i);
        SendByte(data[i]);
      }
      assert data[..|data|] == data;
    }

    /** A packet puts the specified packet code of its item on the wire. */
    method DrivePacket(req: Item)
      requires WellFormed(req)
      modifies this
      ensures curLine == J && wire == old(wire) + Clocks(ItemWave(req))
    {
      ItemBitsParts(req);
      PacketAsSent(ItemBits(req));
      ghost var whole := ItemWave(req);
      assert whole == Packet(ItemBits(req), true);
      hide *;
      SendSync();
      SendByte(PidByte(req.pid));
      if IsToken(req.pid) || req.pid == SOF {
        var fields := Field(req);
        var crc5 := CalcCrc5(fields);
        SendField(fields);
        SendCrc(crc5);
        ReverseTwice(Crc5Of(fields));
        Seqs.AssocFour(ByteBits(0x80), ByteBits(PidByte(req.pid)), fields, Crc5Of(fields));
      } else if IsData(req.pid) {
        var crc16 := CalcCrc16(req.data);
        SendData(req.data);
        SendCrc(crc16);
        ReverseTwice(Crc16Of(req.data));
        Seqs.AssocFour(ByteBits(0x80), ByteBits(PidByte(req.pid)), BytesBits(req.data), Crc16Of(req.data));
      }
      assert bits == ByteBits(0x80) + ItemBits(req);
      ClocksConcat(Sent(J, 0, bits), EOP);
      Seqs.Assoc(start, Clocks(Sent(J, 0, bits)), Clocks(EOP));
      SendEop();
    }

    /** One turn of get_and_drive. After DATA and IN the driver waits, with its line at J, until the device has answered
        or has not begun to in time. */
    method DriveCmd(c: Cmd)
      requires GoodCmd(c)
      modifies this
      ensures wire == old(wire) + CmdWave(c)
    {
      ghost var w := wire;
      hide Clocks, ItemWave, Level, Span;
      match c {
        case BusReset(us) =>
          Hold(SE0, CYCLES_PER_US * us);
          curLine := J;
          DriveLine(J, 1);
          Seqs.Assoc(w, Level(SE0, CYCLES_PER_US * us), Level(J, 4));
        case Idle(n) =>
          DriveLine(J, n);
        case Normal(t, reply) =>
          DriveLine(J, 2);
          DrivePacket(t);
          Seqs.AssocFour(w, Level(J, 8), Clocks(ItemWave(t)), Waiting(t, reply));
          if ExpectsResponse(t) {
            Hold(J, Span(reply));
          } else {
            assert wire + [] == wire;
          }
      }
    }

    /** get_and_drive over a list of commands. */
    method GetAndDrive(cmds: seq<Cmd>)
      requires AllWellFormed(cmds)
      modifies this
      ensures wire == old(wire) + (Level(J, 40) + Traffic(cmds))
    {
      hide CmdWave, Level;
      DriveLine(J, 10);
      assert Level(J, 40) + Traffic([]) == Level(J, 40);
      for k := 0 to |cmds|
        invariant wire == old(wire) + (Level(J, 40) + Traffic(cmds[..k]))
      {
        TrafficSnoc(cmds[..k], cmds[k]);
        Seqs.Slices(cmds, k);
        DriveCmd(cmds[k]);
        Seqs.Assoc(old(wire), Level(J, 40) + Traffic(cmds[..k]), CmdWave(cmds[k]));
        Seqs.Assoc(Level(J, 40), Traffic(cmds[..k]), CmdWave(cmds[k]));
      }
      assert cmds[..|cmds|] == cmds;
    }
  }

  /** A line state for n clocks. */
  function Level(l: Line, n: nat): (r: seq<Line>)
    ensures |r| == n
  {
    seq(n, _ => l)
  }

  lemma BitClocks(l: Line)
    ensures Clocks([l]) == Level(l, 4) && Clocks([l, Flip(l)]) == Level(l, 4) + Level(Flip(l), 4)
  {
    ClocksOne(l);
    ClocksOne(Flip(l));
    ClocksConcat([l], [Flip(l)]);
    assert [l] + [Flip(l)] == [l, Flip(l)];
  }

  lemma EopClocks()
    ensures Clocks(EOP) == Level(SE0, 8) + Level(J, 4)
  {
    ClocksOne(SE0);
    ClocksOne(J);
    ClocksConcat([SE0], [SE0]);
    ClocksConcat([SE0] + [SE0], [J]);
    assert EOP == [SE0] + [SE0] + [J];
  }

  function Toggle(l: Line): (r: Line)
    ensures l != SE0 ==> r == Flip(l)
  {
    if l == J then K else J
  }

  predicate GoodReply(r: Reply) {
    r.Answer? ==> r.gap < RSP_TIMEOUT_CYCLES && WellFormed(r.t)
  }

  /** How long the driver waits for it: to the end of the answer, or until the time in which one may begin is over. */
  function Span(r: Reply): nat
    requires GoodReply(r)
  {
    match r
    case Silent => RSP_TIMEOUT_CYCLES
    case Answer(gap, t) => gap + CYCLES_PER_BIT * |ItemWave(t)|
  }

  /** The driver's line while the device answers. */
  function Waiting(t: Item, reply: Reply): seq<Line>
    requires GoodReply(reply)
  {
    if ExpectsResponse(t) then Level(J, Span(reply)) else []
  }

  predicate GoodCmd(c: Cmd) { c.Normal? ==> WellFormed(c.t) && GoodReply(c.reply) }

  /** What get_and_drive puts on the wire for a command. */
  function CmdWave(c: Cmd): seq<Line>
    requires GoodCmd(c)
  {
    match c
    case Normal(t, reply) => Level(J, 8) + (Clocks(ItemWave(t)) + Waiting(t, reply))
    case BusReset(us) => Level(SE0, CYCLES_PER_US * us) + Level(J, 4)
    case Idle(n) => Level(J, CYCLES_PER_BIT * n)
  }

  predicate AllWellFormed(cmds: seq<Cmd>) {
    forall k :: 0 <= k < |cmds| ==> GoodCmd(cmds[k])
  }

  function Traffic(cmds: seq<Cmd>): seq<Line>
    requires AllWellFormed(cmds)
  {
    if cmds == [] then [] else CmdWave(cmds[0]) + Traffic(cmds[1..])
  }

  lemma {:induction false} TrafficSnoc(cmds: seq<Cmd>, c: Cmd)
    requires AllWellFormed(cmds) && GoodCmd(c)
    ensures AllWellFormed(cmds + [c]) && Traffic(cmds + [c]) == Traffic(cmds) + CmdWave(c)
    decreases |cmds|
  {
    if cmds == [] {
      assert cmds + [c] == [c] && [c][1..] == [];
    } else {
      Seqs.Uncons(cmds, [c]);
      TrafficSnoc(cmds[1..], c);
      hide CmdWave;
      Seqs.Assoc(CmdWave(cmds[0]), Traffic(cmds[1..]), CmdWave(c));
    }
  }

  // ---- Two transmitters, one wire --------------------------------------------------------------------

  const PIDS: seq<(PidE, bv8)> :=
    [(OUT, PID_OUT), (IN, PID_IN), (SOF, PID_SOF), (SETUP, PID_SETUP), (DATA0, PID_DATA0), (DATA1, PID_DATA1),
     (ACK, PID_ACK), (NAK, PID_NAK), (STALL, PID_STALL)]

  /** The C constants are the driver's {~pid, pid} bytes. */
  lemma PidConstants(k: nat)
    requires k < |PIDS|
    ensures PidByte(PIDS[k].0) == PIDS[k].1
  {
    assert ByteBits(PIDS[k].1) == Nibble(PIDS[k].0) + Not(Nibble(PIDS[k].0));
    SameBits(PidByte(PIDS[k].0), PIDS[k].1);
  }

  /** The item whose address and endpoint are those of a C token. */
  function TokenItem(pid: PidE, device: bv8, endpoint: bv8): (t: Item)
    ensures WellFormed(t)
  {
    Item(pid, ByteBits(device)[..7], ByteBits(endpoint)[..4], Fill(false, 11), [])
  }

  function DataItem(pid: PidE, data: seq<bv8>): (t: Item)
    ensures WellFormed(t)
  {
    Item(pid, Fill(false, 7), Fill(false, 4), Fill(false, 11), data)
  }

  /** Token bytes of the C side are the bits the SystemVerilog driver sends. */
  lemma SameTokenBits(pid: PidE, device: bv8, endpoint: bv8)
    requires IsToken(pid) && device < 0x80 && endpoint < 0x10
    ensures BytesBits(TokenBytes(PidByte(pid), device, endpoint)) == ItemBits(TokenItem(pid, device, endpoint))
  {
    TokenBits(PidByte(pid), device, endpoint);
    var f := TokenField(device, endpoint);
    Seqs.Assoc(ByteBits(PidByte(pid)), f, Crc5Of(f));
  }

  lemma SameDataBits(pid: PidE, data: seq<bv8>)
    requires IsData(pid)
    ensures BytesBits(DataBytes(PidByte(pid), data)) == ItemBits(DataItem(pid, data))
  {
    DataBits(PidByte(pid), data);
    Seqs.Assoc(ByteBits(PidByte(pid)), BytesBits(data), Crc16Of(data));
  }

  lemma SameHandshakeBits(pid: PidE)
    requires !IsToken(pid) && !IsData(pid) && pid != SOF
    ensures BytesBits([PidByte(pid)]) == ItemBits(DataItem(pid, []))
  {
    BytesBitsOne(PidByte(pid));
  }

  /** Bit i of a number. */
  function Digit(x: nat, i: nat): (r: nat)
    requires i < 11
    ensures r < 2
  {
    match i
    case 0 => x % 2
    case 1 => (x / 2) % 2
    case 2 => (x / 4) % 2
    case 3 => (x / 8) % 2
    case 4 => (x / 16) % 2
    case 5 => (x / 32) % 2
    case 6 => (x / 64) % 2
    case 7 => (x / 128) % 2
    case 8 => (x / 256) % 2
    case 9 => (x / 512) % 2
    case 10 => (x / 1024) % 2
  }

  /** The eleven low bits of a number, low bit first. */
  function FrameBits(x: nat): (r: Bits)
    ensures |r| == 11
  {
    seq(11, i requires 0 <= i < 11 => Digit(x, i) == 1)
  }

  /** The bits of a small number as a byte. */
  lemma ByteOfNumber(n: nat, i: nat)
    requires n < 256 && i < 8
    ensures Bit(n as bv8, i) == (Digit(n, i) == 1)
  {
    match i
    case 0 => assert ((n as bv8) & 0x01 != 0) == (n % 2 == 1);
    case 1 => assert ((n as bv8) & 0x02 != 0) == ((n / 2) % 2 == 1);
    case 2 => assert ((n as bv8) & 0x04 != 0) == ((n / 4) % 2 == 1);
    case 3 => assert ((n as bv8) & 0x08 != 0) == ((n / 8) % 2 == 1);
    case 4 => assert ((n as bv8) & 0x10 != 0) == ((n / 16) % 2 == 1);
    case 5 => assert ((n as bv8) & 0x20 != 0) == ((n / 32) % 2 == 1);
    case 6 => assert ((n as bv8) & 0x40 != 0) == ((n / 64) % 2 == 1);
    case 7 => assert ((n as bv8) & 0x80 != 0) == ((n / 128) % 2 == 1);
  }

  lemma Parity(a: int, b: int)
    ensures (2 * a + b) % 2 == b % 2
  {}

  /** Whole multiples of 128 do not show in the low seven bits. */
  lemma LowDigit(q: nat, r: nat, i: nat)
    requires i < 7
    ensures Digit(128 * q + r, i) == Digit(r, i)
  {
    match i
    case 0 => Parity(64 * q, r);
    case 1 => assert (128 * q + r) / 2 == 64 * q + r / 2; Parity(32 * q, r / 2);
    case 2 => assert (128 * q + r) / 4 == 32 * q + r / 4; Parity(16 * q, r / 4);
    case 3 => assert (128 * q + r) / 8 == 16 * q + r / 8; Parity(8 * q, r / 8);
    case 4 => assert (128 * q + r) / 16 == 8 * q + r / 16; Parity(4 * q, r / 16);
    case 5 => assert (128 * q + r) / 32 == 4 * q + r / 32; Parity(2 * q, r / 32);
    case 6 => assert (128 * q + r) / 64 == 2 * q + r / 64; Parity(q, r / 64);
  }

  lemma HighDigit(x: nat, i: nat)
    requires i < 4
    ensures Digit(x / 128, i) == Digit(x, i + 7)
  {
    match i
    case 0 =>
    case 1 => assert x / 128 / 2 == x / 256;
    case 2 => assert x / 128 / 4 == x / 512;
    case 3 => assert x / 128 / 8 == x / 1024;
  }

  /** Whole multiples of 16 do not show in the low four bits. */
  lemma LowestDigit(q: nat, r: nat, i: nat)
    requires i < 4
    ensures Digit(16 * q + r, i) == Digit(r, i)
  {
    match i
    case 0 => Parity(8 * q, r);
    case 1 => assert (16 * q + r) / 2 == 8 * q + r / 2; Parity(4 * q, r / 2);
    case 2 => assert (16 * q + r) / 4 == 4 * q + r / 4; Parity(2 * q, r / 4);
    case 3 => assert (16 * q + r) / 8 == 2 * q + r / 8; Parity(q, r / 8);
  }

  /** The C frame number, split over the address and endpoint fields of the SOF token, is the driver's 11-bit one. */
  lemma SameSofBits(frame: nat)
    ensures BytesBits(SofDesc(frame).bytes) == ItemBits(Item(SOF, Fill(false, 7), Fill(false, 4), FrameBits(frame), []))
  {
    var device, endpoint := (frame % 128) as bv8, ((frame / 128) % 16) as bv8;
    var field := TokenField(device, endpoint);
    PidConstants(2);
    TokenBits(PidByte(SOF), device, endpoint);
    SofField(frame);
    Seqs.Assoc(ByteBits(PidByte(SOF)), field, Crc5Of(field));
  }

  lemma SofField(frame: nat)
    ensures TokenField((frame % 128) as bv8, ((frame / 128) % 16) as bv8) == FrameBits(frame)
  {
    var f := TokenField((frame % 128) as bv8, ((frame / 128) % 16) as bv8);
    hide Bit, Digit;
    forall i | 0 <= i < 11
      ensures f[i] == FrameBits(frame)[i]
    {
      if i < 7 {
        ByteOfNumber(frame % 128, i);
        LowDigit(frame / 128, frame % 128, i);
      } else {
        var high := frame / 128;
        ByteOfNumber(high % 16, i - 7);
        LowestDigit(high / 16, high % 16, i - 7);
        HighDigit(frame, i - 7);
      }
    }
  }

  /** A stuff bit is owed after the token. */
  predicate StuffOwed(t: Item)
    requires WellFormed(t)
  {
    OnesAfter(ItemBits(t), 1) == 6
  }

  lemma FlushMatters(bits: Bits)
    ensures Packet(bits, false) == Packet(bits, true) <==> OnesAfter(bits, 1) != 6
  {
    if OnesAfter(bits, 1) == 6 {
      assert |Packet(bits, false)| == |Packet(bits, true)| - 1;
    } else {
      assert Stuffed(bits, 1) == Stuff(bits, 1);
    }
  }

  /** A packet alone: both transmitters drive the same states. */
  lemma SameWireAlone(t: Item, bytes: seq<bv8>)
    requires WellFormed(t) && BytesBits(bytes) == ItemBits(t) && 1 <= |bytes| <= MAX_DATA
    ensures HostDriver.Wave(Desc(bytes, NO_DATA_STAGE)) == ItemWave(t) + [J]
  {
    assert bytes[0..|bytes|] == bytes;
  }

  /** A token with its data stage: the states are those of the two items, each followed by the idle
      interval, if and only if no stuff bit is owed after the token. */
  lemma SameWireWithData(pid: PidE, device: bv8, endpoint: bv8, dataPid: PidE, data: seq<bv8>)
    requires IsToken(pid) && device < 0x80 && endpoint < 0x10 && IsData(dataPid) && |data| + 6 <= MAX_DATA
    ensures var token, stage := TokenItem(pid, device, endpoint), DataItem(dataPid, data);
            var x := Desc(TokenBytes(PidByte(pid), device, endpoint) + DataBytes(PidByte(dataPid), data), 3);
            && Sendable(x)
            && (HostDriver.Wave(x) == ItemWave(token) + [J] + ItemWave(stage) + [J] <==> !StuffOwed(token))
  {
    var token, stage := TokenItem(pid, device, endpoint), DataItem(dataPid, data);
    var a, b := TokenBytes(PidByte(pid), device, endpoint), DataBytes(PidByte(dataPid), data);
    WaveOfTwo(a, b);
    SameTokenBits(pid, device, endpoint);
    SameDataBits(dataPid, data);
    FlushMatters(ItemBits(token));
    assert ItemWave(token) == Packet(ItemBits(token), true) && ItemWave(stage) == Packet(ItemBits(stage), true);
    hide *;
    var p := Packet(ItemBits(stage), true);
    Seqs.AssocFour(Packet(ItemBits(token), false), [J], p, [J]);
    Seqs.AssocFour(Packet(ItemBits(token), true), [J], p, [J]);
    CancelRight(Packet(ItemBits(token), false), Packet(ItemBits(token), true), [J] + (p + [J]));
  }

  lemma WaveOfTwo(a: seq<bv8>, b: seq<bv8>)
    requires |a| == 3 && 0 < |b| <= MAX_DATA - 3
    ensures Sendable(Desc(a + b, 3))
    ensures HostDriver.Wave(Desc(a + b, 3)) == Packet(BytesBits(a), false) + [J] + Packet(BytesBits(b), true) + [J]
  {
    var x := Desc(a + b, 3);
    assert x.bytes[..3] == a && x.bytes[3..|x.bytes|] == b;
    hide Packet;
    Seqs.Assoc(Packet(BytesBits(a), false) + [J], Packet(BytesBits(b), true), [J]);
  }

  lemma CancelRight<T>(a: seq<T>, b: seq<T>, c: seq<T>)
    ensures a + c == b + c <==> a == b
  {
    if a + c == b + c {
      assert |a| == |b|;
      assert a == (a + c)[..|a|] == (b + c)[..|b|] == b;
    }
  }

  /** It does happen: the OUT token of address 12, endpoint 8 ends in six ones. */
  lemma StuffOwedExample()
    ensures StuffOwed(TokenItem(OUT, 12, 8))
  {
    var f := [false, false, true, true, false, false, false, false, false, false, true];
    var head := ByteBits(PidByte(OUT)) + f[..9];
    ExampleBits(f);
    StuffConcat(head, [false] + Fill(true, 6), 1);
    SixOnesAtEnd(OnesAfter(head, 1));
  }

  lemma ExampleBits(f: Bits)
    requires f == [false, false, true, true, false, false, false, false, false, false, true]
    ensures ItemBits(TokenItem(OUT, 12, 8)) == ByteBits(PidByte(OUT)) + f[..9] + ([false] + Fill(true, 6))
  {
    ItemBitsParts(TokenItem(OUT, 12, 8));
    ExampleField(f);
    ExampleCrc(f);
    hide ItemBits, PidByte, ByteBits, Crc5Of;
    ExampleTail(f);
    hide *;
    Seqs.Assoc(ByteBits(PidByte(OUT)), f[..9], [false] + Fill(true, 6));
  }

  lemma ExampleTail(f: Bits)
    requires |f| == 11 && f[9] == false && f[10] == true
    ensures f + Fill(true, 5) == f[..9] + ([false] + Fill(true, 6))
  {}

  lemma ExampleField(f: Bits)
    requires f == [false, false, true, true, false, false, false, false, false, false, true]
    ensures Field(TokenItem(OUT, 12, 8)) == f
  {
    assert ByteBits(12)[..7] == f[..7];
    assert ByteBits(8)[..4] == f[7..];
  }

  lemma ExampleCrc(f: Bits)
    requires f == [false, false, true, true, false, false, false, false, false, false, true]
    ensures Crc5Of(f) == Fill(true, 5)
  {
    var s := [Low5(0x1F), Low5(0x1B), Low5(0x19), Low5(0x0C), Low5(0x12), Low5(0x09),
              Low5(0x10), Low5(0x08), Low5(0x04), Low5(0x02), Low5(0x01), Low5(0x00)];
    assert s[0] == Fill(true, 5);
    FeedStates(POLY5, f, s);
    assert Not(s[11]) == Fill(true, 5);
  }

  lemma SixOnesAtEnd(ones: nat)
    requires ones <= 6
    ensures OnesAfter([false] + Fill(true, 6), ones) == 6
  {
    var s := [false] + Fill(true, 6);
    assert s[1..] == Fill(true, 6);
    CountOnes(6, 0);
    assert OnesAfter(s, 0) == OnesAfter(s[1..], 0);
  }

  lemma {:induction false} CountOnes(n: nat, ones: nat)
    requires n + ones <= 6
    ensures OnesAfter(Fill(true, n), ones) == n + ones
  {
    if n > 0 {
      assert Fill(true, n)[1..] == Fill(true, n - 1);
      CountOnes(n - 1, ones + 1);
    }
  }
}
