/** The transmitter of the C host model: the ST_* arms of usbdpi_host_to_device, one call per bit
    interval. */
module HostDriver {
  import opened BitSeq
  import opened Words
  import opened LineCode
  import opened Transfer
  import opened Wires

  datatype DrvState = ST_IDLE | ST_SEND | ST_GET | ST_SYNC | ST_EOP | ST_EOP0

  const USB_SYNC: bv8 := 0x2A

  /** The bit of a byte selected by a one-hot mask. */
  predicate TestBit(b: bv8, mask: nat) {
    exists i :: 0 <= i < 8 && mask == OneHot(i) && Bit(b, i)
  }

  function OneHot(i: nat): (r: nat)
    requires i < 8
    ensures r <= 128
  {
    [1, 2, 4, 8, 16, 32, 64, 128][i]
  }

  lemma TestOneHot(b: bv8, i: nat)
    requires i < 8
    ensures TestBit(b, OneHot(i)) == Bit(b, i)
  {
    if TestBit(b, OneHot(i)) {
      var j :| 0 <= j < 8 && OneHot(i) == OneHot(j) && Bit(b, j);
      assert i == j;
    }
  }

  // ---- Driving the wires -------------------------------------------------------------------

  function SetDriving(driving: P2d, d2p: D2p, newval: Line, oe: bool): (r: P2d)
    ensures Shows(r, d2p.dnpu, newval)
    ensures r.sense == driving.sense && r.oe == oe
  {
    var low := P2d(driving.sense, false, false, false, oe);
    if d2p.dnpu then
      match newval
      case J => low.(dn := true, d := true)
      case K => low.(dp := true)
      case SE0 => low
    else
      match newval
      case J => low.(dp := true, d := true)
      case K => low.(dn := true)
      case SE0 => low
  }

  function InvDriving(p: P2d): P2d {
    p.(dp := !p.dp, dn := !p.dn, d := !p.d)
  }

  lemma InvShows(p: P2d, dnpu: bool, l: Line)
    requires Shows(p, dnpu, l) && l != SE0
    ensures Shows(InvDriving(p), dnpu, Flip(l))
  {}

  // ---- One bit interval --------------------------------------------------------------------

  datatype Tx = Tx(state: DrvState, driving: P2d, linebits: Uint32, bit: nat, byte: nat)

  predicate SixOnes(linebits: Uint32) {
    linebits[0] && linebits[1] && linebits[2] && linebits[3] && linebits[4] && linebits[5]
  }

  const ONE: Uint32 := Extend([true])

  /** The five transmitting arms; the idle and receiving arms leave the transmitter alone. */
  function TxStep(t: Tx, x: Desc, d2p: D2p): Tx {
    match t.state
    case ST_SYNC =>
      var driven := t.(driving := SetDriving(t.driving, d2p, if TestBit(USB_SYNC, t.bit) then J else K, true));
      if 2 * t.bit == 0x100 then driven.(bit := 1, linebits := ONE, state := ST_SEND)
      else driven.(bit := 2 * t.bit)
    case ST_SEND =>
      if SixOnes(t.linebits) then
        t.(driving := InvDriving(t.driving), linebits := Push(t.linebits, false))
      else if t.byte >= |x.bytes| then
        t.(state := ST_EOP, driving := SetDriving(t.driving, d2p, SE0, true), bit := 1)
      else
        var nextbit := TestBit(x.bytes[t.byte], t.bit);
        var driven := t.(driving := if nextbit then t.driving else InvDriving(t.driving),
                         linebits := Push(t.linebits, nextbit));
        if 2 * t.bit != 0x100 then driven.(bit := 2 * t.bit)
        else driven.(bit := 1, byte := t.byte + 1,
                     state := if t.byte + 1 == x.dataStart then ST_EOP0 else ST_SEND)
    case ST_EOP0 =>
      t.(driving := SetDriving(t.driving, d2p, SE0, true), state := ST_EOP)
    case ST_EOP =>
      var driven := if t.bit == 2 then t.(driving := SetDriving(t.driving, d2p, J, true)) else t;
      if t.bit != 4 then driven.(bit := 2 * t.bit)
      else
        var undriven := t.(driving := SetDriving(t.driving, d2p, if d2p.Pullup() then J else SE0, false));
        if t.byte == x.dataStart then undriven.(bit := 1, state := ST_SYNC)
        else undriven.(state := ST_IDLE)
    case ST_IDLE => t
    case ST_GET => t
  }

  /** transfer_send: the first interval of SYNC is next. */
  function Start(t: Tx): Tx {
    t.(state := ST_SYNC, byte := 0, bit := 1)
  }

  // ---- What goes to the line ---------------------------------------------------------------

  /** The line states of a whole transfer.  Each packet is followed by one undriven J interval; a
      stuff bit owed at the end of a token is dropped when a data stage follows. */
  function Wave(x: Desc): seq<Line>
    requires Sendable(x)
  {
    if TwoPackets(x) then Packet(BytesBits(x.bytes[..x.dataStart]), false) + [J] + LastPacket(x, x.dataStart)
    else LastPacket(x, 0)
  }

  function LastPacket(x: Desc, from: nat): seq<Line>
    requires from <= |x.bytes|
  {
    Packet(BytesBits(x.bytes[from..|x.bytes|]), true) + [J]
  }

  /** Where the packet being sent ends. */
  function End(x: Desc, byte: nat): nat {
    if byte < x.dataStart <= |x.bytes| then x.dataStart else |x.bytes|
  }

  /** What follows the closing J of the packet being sent. */
  function After(x: Desc, cut: bool): seq<Line>
    requires cut ==> x.dataStart <= |x.bytes|
  {
    if cut then LastPacket(x, x.dataStart) else []
  }

  /** The unsent bits of the packet: bit i of byte `byte` is next. */
  function Left(x: Desc, byte: nat, i: nat): seq<bool>
    requires byte <= |x.bytes| && i < 8 && (byte == |x.bytes| ==> i == 0)
  {
    BytesBits(x.bytes[byte..End(x, byte)])[i..]
  }

  /** The rest of the packet and of the transfer from the level, ones count and unsent bits. */
  function Body(l: Line, ones: nat, bits: seq<bool>, cut: bool, tail: seq<Line>): seq<Line>
    requires ones <= 6
  {
    Nrzi(l, Raw(ones, bits, cut)) + Closing(tail)
  }

  function Closing(tail: seq<Line>): seq<Line> {
    [SE0, SE0, J, J] + tail
  }

  /** The raw bits still to come in the packet. */
  function Raw(ones: nat, bits: seq<bool>, cut: bool): seq<bool>
    requires ones <= 6
  {
    if cut then Stuff(bits, ones) else Stuffed(bits, ones)
  }

  // ---- The transmitter's position ------------------------------------------------------------

  /** The transmitter's state between intervals, as the position it stands for. */
  datatype At =
    | AtSync(byte: nat, i: nat)
    | AtSend(byte: nat, i: nat, l: Line, ones: nat)
    | AtEop0
    | AtEop(i: nat, cut: bool)
    | AtEnd

  predicate Position(x: Desc, p: At) {
    Sendable(x) &&
    match p
    case AtSync(byte, i) => i < 8 && byte < |x.bytes| && (byte == 0 || byte == x.dataStart)
    case AtSend(byte, i, l, ones) =>
      i < 8 && byte <= |x.bytes| && (byte == |x.bytes| ==> i == 0) && l != SE0 && ones <= 6
    case AtEop0 => TwoPackets(x)
    case AtEop(i, cut) => i < 3 && (cut ==> TwoPackets(x))
    case AtEnd => true
  }

  /** The machine state stands for the position. */
  predicate Where(t: Tx, x: Desc, dnpu: bool, p: At) {
    match p
    case AtSync(byte, i) => t.state == ST_SYNC && i < 8 && t.bit == OneHot(i) && t.byte == byte
    case AtSend(byte, i, l, ones) =>
      t.state == ST_SEND && i < 8 && t.bit == OneHot(i) && t.byte == byte
      && Shows(t.driving, dnpu, l) && t.driving.oe && Trailing(t.linebits, ones)
    case AtEop0 => t.state == ST_EOP0 && t.byte == x.dataStart && t.bit == 1
    case AtEop(i, cut) =>
      t.state == ST_EOP && i < 3 && t.bit == OneHot(i) && t.byte == (if cut then x.dataStart else |x.bytes|)
      && Shows(t.driving, dnpu, if i < 2 then SE0 else J) && t.driving.oe
    case AtEnd => t.state == ST_IDLE
  }

  /** The next line state. */
  function Emit(x: Desc, p: At): Line
    requires Position(x, p) && p != AtEnd
  {
    match p
    case AtSync(byte, i) => SYNC[i]
    case AtSend(byte, i, l, ones) =>
      if ones == 6 then Flip(l)
      else if byte == |x.bytes| then SE0
      else if Bit(x.bytes[byte], i) then l else Flip(l)
    case AtEop0 => SE0
    case AtEop(i, cut) => if i == 0 then SE0 else J
  }

  /** Whether the host drives it: the last state of each packet is left to the pull-up. */
  predicate Drives(p: At) { !(p.AtEop? && p.i == 2) }

  function Next(x: Desc, p: At): (q: At)
    requires Position(x, p) && p != AtEnd
    ensures Position(x, q)
  {
    match p
    case AtSync(byte, i) => if i < 7 then AtSync(byte, i + 1) else AtSend(byte, 0, K, 1)
    case AtSend(byte, i, l, ones) =>
      if ones == 6 then AtSend(byte, i, Flip(l), 0)
      else if byte == |x.bytes| then AtEop(0, false)
      else
        var o := if Bit(x.bytes[byte], i) then ones + 1 else 0;
        if i < 7 then AtSend(byte, i + 1, Emit(x, p), o)
        else if byte + 1 == x.dataStart then AtEop0
        else AtSend(byte + 1, 0, Emit(x, p), o)
    case AtEop0 => AtEop(0, true)
    case AtEop(i, cut) =>
      if i < 2 then AtEop(i + 1, cut) else if cut then AtSync(x.dataStart, 0) else AtEnd
  }

  /** Everything still to come on the line. */
  function Rest(x: Desc, p: At): seq<Line>
    requires Position(x, p)
  {
    match p
    case AtSync(byte, i) =>
      var cut := End(x, byte) < |x.bytes|;
      SYNC[i..] + Body(K, 1, Left(x, byte, 0), cut, After(x, cut))
    case AtSend(byte, i, l, ones) =>
      var cut := End(x, byte) < |x.bytes|;
      Body(l, ones, Left(x, byte, i), cut, After(x, cut))
    case AtEop0 => Closing(After(x, true))
    case AtEop(i, cut) => Closing(After(x, cut))[1 + i..]
    case AtEnd => []
  }

  /** Whether the host drives each line state of a packet and of the interval behind it. */
  function Enabled(n: nat): (r: seq<bool>)
    ensures |r| == n + 1 && r[n] == false && forall k :: 0 <= k < n ==> r[k] == true
  {
    seq(n, _ => true) + [false]
  }

  /** Whether the host drives each line state of the wave. */
  function Enables(x: Desc): seq<bool>
    requires Sendable(x)
  {
    if TwoPackets(x) then
      Enabled(|Packet(BytesBits(x.bytes[..x.dataStart]), false)|) + Enabled(|LastPacket(x, x.dataStart)| - 1)
    else Enabled(|LastPacket(x, 0)| - 1)
  }

  /** The same for n states, the last m of them in a second packet. */
  function Pattern(n: nat, m: nat): (r: seq<bool>)
    requires m < n || m == 0
    ensures |r| == n
  {
    if n == 0 then [] else if m == 0 then Enabled(n - 1) else Enabled(n - m - 1) + Enabled(m - 1)
  }

  /** The same for what is still to come. */
  function RestEnables(x: Desc, p: At): (r: seq<bool>)
    requires Position(x, p)
    ensures |r| == |Rest(x, p)|
  {
    RestLength(x, p);
    Pattern(|Rest(x, p)|, Behind(x, p))
  }

  /** The length of the second packet, if the first one is being sent. */
  function Behind(x: Desc, p: At): nat
    requires Position(x, p)
  {
    if InFirst(x, p) && TwoPackets(x) then |LastPacket(x, x.dataStart)| else 0
  }

  /** A data stage follows the packet being sent. */
  predicate InFirst(x: Desc, p: At)
    requires Position(x, p)
  {
    match p
    case AtSync(byte, _) => End(x, byte) < |x.bytes|
    case AtSend(byte, _, _, _) => End(x, byte) < |x.bytes|
    case AtEop0 => true
    case AtEop(_, cut) => cut
    case AtEnd => false
  }

  lemma RestLength(x: Desc, p: At)
    requires Position(x, p)
    ensures Behind(x, p) < |Rest(x, p)| || Behind(x, p) == 0
  {
    hide BytesBits, Nrzi, Raw, Packet;
  }

  // ---- One step of the position --------------------------------------------------------------

  lemma SyncLevels(i: nat)
    requires i < 8
    ensures SYNC[i] == if TestBit(USB_SYNC, OneHot(i)) then J else K
  {
    TestOneHot(USB_SYNC, i);
  }

  lemma BodyCons(l: Line, b: bool, w: seq<bool>, c: seq<Line>)
    ensures var n := if b then l else Flip(l);
            Nrzi(l, [b] + w) + c == [n] + (Nrzi(n, w) + c)
  {
    NrziCons(l, b, w);
  }

  lemma BodyStuffBit(l: Line, bits: seq<bool>, cut: bool, tail: seq<Line>)
    requires bits != [] || !cut
    ensures Body(l, 6, bits, cut, tail) == [Flip(l)] + Body(Flip(l), 0, bits, cut, tail)
  {
    StuffNext(bits, 6);
    BodyCons(l, false, Raw(0, bits, cut), Closing(tail));
  }

  lemma BodyDataBit(l: Line, ones: nat, bits: seq<bool>, cut: bool, tail: seq<Line>)
    requires bits != [] && ones < 6
    ensures var n := if bits[0] then l else Flip(l);
            Body(l, ones, bits, cut, tail) == [n] + Body(n, if bits[0] then ones + 1 else 0, bits[1..], cut, tail)
  {
    StuffNext(bits, ones);
    BodyCons(l, bits[0], Raw(if bits[0] then ones + 1 else 0, bits[1..], cut), Closing(tail));
  }

  lemma BodyEmpty(l: Line, ones: nat, cut: bool, tail: seq<Line>)
    requires ones < 6 || (ones == 6 && cut)
    ensures Body(l, ones, [], cut, tail) == Closing(tail)
  {}

  lemma NextBitLeft(x: Desc, byte: nat, i: nat)
    requires Sendable(x) && byte < |x.bytes| && i < 8
    ensures Left(x, byte, i) != [] && Left(x, byte, i)[0] == Bit(x.bytes[byte], i)
    ensures i < 7 ==> Left(x, byte, i + 1) == Left(x, byte, i)[1..]
    ensures i == 7 ==> Left(x, byte, i)[1..] == if byte + 1 == x.dataStart then [] else Left(x, byte + 1, 0)
  {
    var s := x.bytes[byte..End(x, byte)];
    BytesBitsAt(s, 0);
    BytesBitsDrop(s, 1);
    if i == 7 {
      assert s[1..] == if byte + 1 == x.dataStart then [] else x.bytes[byte + 1..End(x, byte + 1)];
    }
  }

  // ---- The machine follows the position ------------------------------------------------------

  lemma SendFollows(t: Tx, x: Desc, d2p: D2p, p: At)
    requires Position(x, p) && Where(t, x, d2p.dnpu, p) && p.AtSend?
    ensures Where(TxStep(t, x, d2p), x, d2p.dnpu, Next(x, p))
    ensures Shows(TxStep(t, x, d2p).driving, d2p.dnpu, Emit(x, p)) && TxStep(t, x, d2p).driving.oe == Drives(p)
  {
    InvShows(t.driving, d2p.dnpu, p.l);
    if p.ones < 6 {
      assert !SixOnes(t.linebits);
      if p.byte < |x.bytes| {
        TestOneHot(x.bytes[p.byte], p.i);
        TrailingPush(t.linebits, p.ones, Bit(x.bytes[p.byte], p.i));
      }
    }
  }

  lemma Follows(t: Tx, x: Desc, d2p: D2p, p: At)
    requires Position(x, p) && Where(t, x, d2p.dnpu, p) && p != AtEnd && d2p.Pullup()
    ensures Where(TxStep(t, x, d2p), x, d2p.dnpu, Next(x, p))
    ensures Shows(TxStep(t, x, d2p).driving, d2p.dnpu, Emit(x, p)) && TxStep(t, x, d2p).driving.oe == Drives(p)
  {
    match p
    case AtSync(byte, i) =>
      SyncLevels(i);
      assert Trailing(ONE, 1);
    case AtSend(_, _, _, _) => SendFollows(t, x, d2p, p);
    case AtEop0 =>
    case AtEop(_, _) =>
  }

  // ---- The position unrolls the wave ---------------------------------------------------------

  lemma SendUnrolls(x: Desc, p: At)
    requires Position(x, p) && p.AtSend?
    ensures Rest(x, p) == [Emit(x, p)] + Rest(x, Next(x, p))
  {
    var bits, cut := Left(x, p.byte, p.i), End(x, p.byte) < |x.bytes|;
    var tail := After(x, cut);
    if p.byte < |x.bytes| {
      NextBitLeft(x, p.byte, p.i);
    }
    if p.ones == 6 {
      BodyStuffBit(p.l, bits, cut, tail);
    } else if p.byte == |x.bytes| {
      BodyEmpty(p.l, p.ones, false, tail);
      ClosingStep(tail, 0);
    } else {
      DataUnrolls(x, p, tail);
    }
  }

  lemma DataUnrolls(x: Desc, p: At, tail: seq<Line>)
    requires Position(x, p) && p.AtSend? && p.ones < 6 && p.byte < |x.bytes|
    requires tail == After(x, End(x, p.byte) < |x.bytes|)
    ensures Rest(x, p) == [Emit(x, p)] + Rest(x, Next(x, p))
  {
    hide Body, Stuff, Stuffed, Nrzi, BytesBits;
    var bits := Left(x, p.byte, p.i);
    NextBitLeft(x, p.byte, p.i);
    BodyDataBit(p.l, p.ones, bits, End(x, p.byte) < |x.bytes|, tail);
    BodyEmpty(Emit(x, p), if bits[0] then p.ones + 1 else 0, true, tail);
  }

  lemma ClosingStep(tail: seq<Line>, i: nat)
    requires i < 4
    ensures Closing(tail)[i..] == [Closing(tail)[i]] + Closing(tail)[i + 1..]
    ensures Closing(tail)[i] == if i < 2 then SE0 else J
    ensures Closing(tail)[0..] == Closing(tail) && Closing(tail)[4..] == tail
  {}

  lemma Unrolls(x: Desc, p: At)
    requires Position(x, p) && p != AtEnd
    ensures Rest(x, p) == [Emit(x, p)] + Rest(x, Next(x, p))
  {
    hide Body, Left, LastPacket, Closing;
    match p
    case AtSync(byte, i) =>
      var cut := End(x, byte) < |x.bytes|;
      SyncStep(i, Body(K, 1, Left(x, byte, 0), cut, After(x, cut)));
    case AtSend(_, _, _, _) => SendUnrolls(x, p);
    case AtEop0 => ClosingStep(After(x, true), 0);
    case AtEop(i, cut) =>
      ClosingStep(After(x, cut), 1 + i);
      if i == 2 && cut {
        SecondPacket(x);
      }
  }

  lemma PatternCons(n: nat, m: nat)
    requires m < n
    ensures n > m + 1 ==> Pattern(n, m) == [true] + Pattern(n - 1, m)
    ensures n == m + 1 ==> Pattern(n, m) == [false] + Pattern(m, 0)
  {}

  lemma UnrollsLength(x: Desc, p: At)
    requires Position(x, p) && p != AtEnd
    ensures |Rest(x, p)| == 1 + |Rest(x, Next(x, p))|
  {
    hide *;
    Unrolls(x, p);
  }

  lemma EopLeft(x: Desc, p: At)
    requires Position(x, p) && p != AtEnd
    ensures Behind(x, p) < |Rest(x, p)|
    ensures if Drives(p) then Next(x, p) != AtEnd && Behind(x, Next(x, p)) == Behind(x, p)
            else |Rest(x, p)| == 1 + Behind(x, p) && Behind(x, Next(x, p)) == 0
  {
    hide BytesBits, Nrzi, Raw, Packet;
  }

  lemma EnablesUnroll(x: Desc, p: At)
    requires Position(x, p) && p != AtEnd
    ensures RestEnables(x, p) == [Drives(p)] + RestEnables(x, Next(x, p))
  {
    hide Rest, Behind, Next, Position, Pattern, Drives;
    UnrollsLength(x, p);
    EopLeft(x, p);
    PatternCons(|Rest(x, p)|, Behind(x, p));
    if Drives(p) {
      EopLeft(x, Next(x, p));
    }
  }

  lemma SyncStep(i: nat, tail: seq<Line>)
    requires i < 8
    ensures SYNC[i..] + tail == [SYNC[i]] + (SYNC[i + 1..] + tail)
    ensures SYNC[8..] + tail == tail
  {}

  lemma PacketIsBody(bits: seq<bool>, cut: bool, tail: seq<Line>)
    ensures Packet(bits, !cut) + [J] + tail == SYNC[0..] + Body(K, 1, bits, cut, tail)
  {
    hide Nrzi, Stuff, Stuffed;
    var c := Nrzi(K, Raw(1, bits, cut));
    assert EOP + [J] == [SE0, SE0, J, J];
    Regrouped(SYNC, c, EOP, [J], tail);
    assert SYNC[0..] == SYNC;
  }

  lemma Regrouped<T>(a: seq<T>, b: seq<T>, c: seq<T>, d: seq<T>, e: seq<T>)
    ensures a + b + c + d + e == a + (b + ((c + d) + e))
  {}

  lemma SecondPacket(x: Desc)
    requires Sendable(x) && TwoPackets(x)
    ensures After(x, true) == Rest(x, AtSync(x.dataStart, 0))
  {
    PacketIsBody(Left(x, x.dataStart, 0), false, []);
  }

  // ---- Whole transfers -----------------------------------------------------------------------

  /** The transmitter after n intervals; d2ps[k] are the device's signals in interval k. */
  function TxAfter(t: Tx, x: Desc, d2ps: seq<D2p>): Tx
    decreases |d2ps|
  {
    if d2ps == [] then t else TxAfter(TxStep(t, x, d2ps[0]), x, d2ps[1..])
  }

  predicate Steady(d2ps: seq<D2p>, dnpu: bool) {
    forall k :: 0 <= k < |d2ps| ==> d2ps[k].dnpu == dnpu && d2ps[k].Pullup()
  }

  lemma EndRestsEmpty(x: Desc, p: At)
    requires Position(x, p)
    ensures Rest(x, p) == [] <==> p == AtEnd
  {}

  lemma TxAfterNext(t: Tx, x: Desc, d2ps: seq<D2p>, dnpu: bool)
    requires Steady(d2ps, dnpu)
    ensures d2ps == [] ==> TxAfter(t, x, d2ps) == t
    ensures d2ps != [] ==>
              && TxAfter(t, x, d2ps) == TxAfter(TxStep(t, x, d2ps[0]), x, d2ps[1..])
              && d2ps[0].dnpu == dnpu && d2ps[0].Pullup() && Steady(d2ps[1..], dnpu)
  {}

  /** After n intervals the n-th state of the wave is on the line and the rest is still to come. */
  lemma {:induction false} RunsAlong(t: Tx, x: Desc, d2ps: seq<D2p>, dnpu: bool, p: At) returns (q: At)
    requires Position(x, p) && Where(t, x, dnpu, p) && Steady(d2ps, dnpu) && |d2ps| <= |Rest(x, p)|
    ensures Position(x, q) && Where(TxAfter(t, x, d2ps), x, dnpu, q) && Rest(x, q) == Rest(x, p)[|d2ps|..]
    ensures |d2ps| > 0 ==> var driving := TxAfter(t, x, d2ps).driving;
      Shows(driving, dnpu, Rest(x, p)[|d2ps| - 1]) && driving.oe == RestEnables(x, p)[|d2ps| - 1]
    decreases |d2ps|
  {
    hide *;
    TxAfterNext(t, x, d2ps, dnpu);
    if d2ps == [] {
      q := p;
    } else {
      var d2p, later := d2ps[0], d2ps[1..];
      EndRestsEmpty(x, p);
      Unrolls(x, p);
      EnablesUnroll(x, p);
      Follows(t, x, d2p, p);
      var m, t1 := Next(x, p), TxStep(t, x, d2p);
      q := RunsAlong(t1, x, later, dnpu, m);
      TxAfterNext(t1, x, later, dnpu);
      assert Rest(x, p)[|d2ps|..] == Rest(x, m)[|later|..];
      assert |later| > 0 ==> Rest(x, p)[|d2ps| - 1] == Rest(x, m)[|later| - 1];
    }
  }

  lemma StartsAtWave(x: Desc)
    requires Sendable(x)
    ensures Rest(x, AtSync(0, 0)) == Wave(x) && RestEnables(x, AtSync(0, 0)) == Enables(x)
  {
    var cut := End(x, 0) < |x.bytes|;
    PacketIsBody(Left(x, 0, 0), cut, After(x, cut));
    assert TwoPackets(x) ==> x.bytes[0..x.dataStart] == x.bytes[..x.dataStart];
  }

  /** Every transfer puts exactly its wave on the line, one state per interval, and ends idle at
      the wave's end and not before. */
  lemma TransmitsWave(t: Tx, x: Desc, d2ps: seq<D2p>, dnpu: bool)
    requires Sendable(x) && Steady(d2ps, dnpu) && 0 < |d2ps| <= |Wave(x)|
    ensures var s := TxAfter(Start(t), x, d2ps);
            && |Enables(x)| == |Wave(x)|
            && Shows(s.driving, dnpu, Wave(x)[|d2ps| - 1]) && s.driving.oe == Enables(x)[|d2ps| - 1]
            && (s.state == ST_IDLE <==> |d2ps| == |Wave(x)|)
            && s.state != ST_GET
  {
    StartsAtWave(x);
    var q := RunsAlong(Start(t), x, d2ps, dnpu, AtSync(0, 0));
    EndRestsEmpty(x, q);
  }
}
