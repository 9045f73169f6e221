/** The two SystemVerilog receivers, sampling in the middle of a bit: receive_from_dut of the driver drops a stuff bit
    when it meets it, get_next_bit of the monitor consumes it ahead of time. */
module AgentReceivers {
  import opened BitSeq
  import opened UsbCrc
  import opened CrcRoutines
  import opened LineCode
  import opened AgentDriver
  import Seqs

  // ---- Grouping bits into bytes ------------------------------------------------------------------

  /** The bits of the unfinished byte. */
  function Rem(bits: Bits): (r: Bits)
    ensures |r| == |bits| % 8
    decreases |bits|
  {
    if |bits| < 8 then bits else Rem(bits[8..])
  }

  /** One more bit extends the unfinished byte or completes it. */
  lemma {:induction false} GroupPush(bits: Bits, b: bool)
    ensures |Rem(bits)| < 7 ==> Group(bits + [b]) == Group(bits) && Rem(bits + [b]) == Rem(bits) + [b]
    ensures |Rem(bits)| == 7 ==> Group(bits + [b]) == Group(bits) + [FromBits(Rem(bits) + [b])] && Rem(bits + [b]) == []
    decreases |bits|
  {
    var s := bits + [b];
    if |bits| < 7 {
    } else if |bits| == 7 {
      assert s[..8] == s && s[8..] == [];
      assert Group([]) == [] && Rem([]) == [];
    } else {
      assert s[..8] == bits[..8] && s[8..] == bits[8..] + [b];
      var rest := bits[8..];
      GroupPush(rest, b);
      hide *;
      GroupHead(bits);
      GroupHead(s);
      if |Rem(rest)| == 7 {
        Seqs.Assoc([FromBits(bits[..8])], Group(rest), [FromBits(Rem(rest) + [b])]);
      }
    }
  }

  lemma GroupHead(bits: Bits)
    requires |bits| >= 8
    ensures Group(bits) == [FromBits(bits[..8])] + Group(bits[8..]) && Rem(bits) == Rem(bits[8..])
  {}

  // ---- receive_from_dut --------------------------------------------------------------------------

  /** Samples up to the first SE0, or to the end of the recording. */
  function UpToSE0(w: seq<Line>): (n: nat)
    ensures n <= |w| && (n < |w| ==> w[n] == SE0) && forall k :: 0 <= k < n ==> w[k] != SE0
  {
    if w == [] || w[0] == SE0 then 0 else 1 + UpToSE0(w[1..])
  }

  /** The data bits of the samples before SE0, the line having rested at J. */
  function ReceivedBits(w: seq<Line>): Bits {
    Unstuff(Unnrzi(J, w[..UpToSE0(w)]), 0)
  }

  /** The clocks in the middle of the bits. */
  function Middles(w: seq<Line>): (r: seq<Line>)
    ensures |r| == (|w| + 1) / 4
  {
    seq((|w| + 1) / 4, i requires 0 <= i < (|w| + 1) / 4 => w[4 * i + 2])
  }

  lemma {:induction false} MiddlesOf(w: seq<Line>, after: seq<Line>)
    ensures Middles(Clocks(w) + after) == w + Middles(after)
    decreases |w|
  {
    if w == [] {
      assert [] + after == after;
      assert [] + Middles(after) == Middles(after);
    } else {
      var x, rest := w[0], Clocks(w[1..]) + after;
      assert Clocks(w) == [x, x, x, x] + Clocks(w[1..]) && w == [x] + w[1..];
      hide Clocks, Middles;
      MiddlesOf(w[1..], after);
      MiddlesNext(x, rest);
      Seqs.Assoc([x, x, x, x], Clocks(w[1..]), after);
      Seqs.Assoc([x], w[1..], Middles(after));
    }
  }

  lemma MiddlesNext(x: Line, rest: seq<Line>)
    ensures Middles([x, x, x, x] + rest) == [x] + Middles(rest)
  {}

  /** receive_from_dut from the clock on in which the device begins to drive: the bytes, and the number of bits left
      over, which it reports as an error when there are any. */
  method ReceiveFromDut(wave: seq<Line>) returns (pkt: seq<bv8>, left: nat)
    ensures pkt == Group(ReceivedBits(Middles(wave))) && left == |ReceivedBits(Middles(wave))| % 8
  {
    pkt := [];
    ghost var mid := Middles(wave);
    ghost var n, raw, got := UpToSE0(mid), Unnrzi(J, mid[..UpToSE0(mid)]), [];
    var onesCnt, prev, curByte := 0, J, [];
    var pos := 2;
    ghost var i := 0;
    assert raw[0..] == raw && [] + Unstuff(raw, 0) == Unstuff(raw, 0);
    assert ReceivedBits(mid) == Unstuff(raw, 0);
    assert Unstuff([], 0) == [];
    hide UpToSE0, Unnrzi, Unstuff, Group, Rem;
    while pos < |wave| && wave[pos] != SE0
      invariant pos == 4 * i + 2 && i <= n && onesCnt <= 6 && prev == (if i == 0 then J else mid[i - 1])
      invariant got + Unstuff(raw[i..], onesCnt) == Unstuff(raw, 0)
      invariant curByte == Rem(got) && pkt == Group(got)
    {
      assert i < |mid| && mid[i] == wave[pos];
      UnnrziAt(J, mid[..n], i);
      UnstuffStep(raw, i, onesCnt);
      if onesCnt == 6 {
        onesCnt := 0;
      } else {
        var b := wave[pos] == prev;
        Seqs.Assoc(got, [b], Unstuff(raw[i + 1..], if b then onesCnt + 1 else 0));
        GroupPush(got, b);
        onesCnt := if b then onesCnt + 1 else 0;
        curByte := curByte + [b];
        got := got + [b];
        if |curByte| == 8 {
          pkt := pkt + [FromBits(curByte)];
          curByte := [];
        }
      }
      prev := wave[pos];
      pos := pos + CYCLES_PER_BIT;
      i := i + 1;
    }
    assert pos >= |wave| ==> i >= |mid|;
    assert i < |mid| ==> mid[i] == wave[pos];
    assert i == n && raw[i..] == [];
    UnstuffNone(raw[i..], onesCnt);
    assert got + [] == got;
    left := |curByte|;
  }

  lemma UnstuffStep(raw: Bits, pos: nat, ones: nat)
    requires pos < |raw| && ones <= 6
    ensures ones == 6 ==> Unstuff(raw[pos..], 6) == Unstuff(raw[pos + 1..], 0)
    ensures ones < 6 ==>
      Unstuff(raw[pos..], ones) == [raw[pos]] + Unstuff(raw[pos + 1..], if raw[pos] then ones + 1 else 0)
  {
    assert raw[pos..][1..] == raw[pos + 1..] && raw[pos..][0] == raw[pos];
  }

  lemma UnstuffNone(raw: Bits, ones: nat)
    requires raw == [] && ones <= 6
    ensures Unstuff(raw, ones) == []
  {}

  lemma {:induction false} UnnrziAt(l: Line, r: seq<Line>, k: nat)
    requires k < |r|
    ensures Unnrzi(l, r)[k] == (r[k] == (if k == 0 then l else r[k - 1]))
    decreases k
  {
    if k > 0 {
      UnnrziAt(r[0], r[1..], k - 1);
    }
  }

  lemma UpToSE0Is(w: seq<Line>, v: seq<Line>)
    requires forall k :: 0 <= k < |w| ==> w[k] != SE0
    requires v != [] && v[0] == SE0
    ensures UpToSE0(w + v) == |w|
  {
    assert (w + v)[|w|] == v[0];
    assert forall k :: 0 <= k < |w| ==> (w + v)[k] == w[k];
  }

  /** On a driver's packet receive_from_dut finds exactly SYNC, the packet's bits, and nothing else,
      with or without the stuff bit owed at the end. */
  lemma ReceivesPacket(bits: Bits, flush: bool, after: seq<Line>)
    ensures ReceivedBits(Packet(bits, flush) + after) == ByteBits(0x80) + bits
  {
    var all := ByteBits(0x80) + bits;
    var raw := if flush then Stuffed(all, 0) else Stuff(all, 0);
    PacketAsRaw(bits, flush);
    NrziNoSE0(J, raw);
    var w, v := Nrzi(J, raw), EOP + after;
    assert Packet(bits, flush) + after == w + v;
    UpToSE0Is(w, v);
    assert (w + v)[..|w|] == w;
    NrziRoundTrip(J, raw);
    StuffRoundTrip(all, 0);
  }

  lemma {:induction false} EagerOnesIs(bits: Bits, ones: nat)
    requires ones < 6
    ensures EagerOnes(bits, ones) == if OnesAfter(bits, ones) == 6 then 0 else OnesAfter(bits, ones)
    decreases |bits|
  {
    if bits != [] {
      EagerOnesIs(bits[1..], if bits[0] && ones < 5 then ones + 1 else 0);
      if bits[0] && ones == 5 && bits[1..] != [] {
        assert OnesAfter(bits[1..], 6) == OnesAfter(bits[1..], 0);
      }
    }
  }

  lemma PacketAsRaw(bits: Bits, flush: bool)
    ensures var all := ByteBits(0x80) + bits;
            Packet(bits, flush) == Nrzi(J, if flush then Stuffed(all, 0) else Stuff(all, 0)) + EOP
  {
    var s := ByteBits(0x80);
    var raw := if flush then Stuffed(bits, 1) else Stuff(bits, 1);
    SyncIsByte();
    EagerIsStuffed(s, 0);
    EagerOnesIs(s, 0);
    StuffConcat(s, bits, 0);
    assert Stuff(bits, 1) == if bits == [] then [] else Stuff(bits, 1);
    assert Packet(bits, flush) == SYNC + Nrzi(K, raw) + EOP;
    hide ByteBits, EagerStuff, Stuff, OnesAfter, EagerOnes, Nrzi, NrziEnd;
    assert Stuff(s, 0) == EagerStuff(s, 0);
    var all := if flush then Stuffed(s + bits, 0) else Stuff(s + bits, 0);
    assert all == Stuff(s, 0) + raw by {
      Seqs.Assoc(Stuff(s, 0), Stuff(bits, 1), Flush(OnesAfter(bits, 1)));
    }
    hide *;
    NrziConcat(J, Stuff(s, 0), raw);
    Seqs.Assoc(SYNC, Nrzi(K, raw), EOP);
  }

  // ---- get_device_response ---------------------------------------------------------------------------

  /** What get_device_response complains of. */
  datatype Complaint = BitsLeft | BadSync | PidMissing | BadPid | ShortData

  datatype Response = Response(none: bool, pid: Bits, data: seq<bv8>, complaints: seq<Complaint>)

  function When<T>(c: bool, x: T): seq<T> { if c then [x] else [] }

  predicate DataNibble(pid: Bits) { pid == Nibble(DATA0) || pid == Nibble(DATA1) }

  /** Of the bytes behind the PID two are the CRC16. */
  function ResponseOf(pkt: seq<bv8>, left: nat): Response {
    var bits := When(left != 0, BitsLeft);
    if pkt == [] then Response(true, Fill(false, 4), [], bits)
    else
      var sync := bits + When(pkt[0] != 0x80, BadSync);
      if |pkt| < 2 then Response(false, Fill(false, 4), [], sync + [PidMissing])
      else
        var pid := ByteBits(pkt[1]);
        var all := sync + When(pid[4..] != Not(pid[..4]), BadPid);
        if !DataNibble(pid[..4]) then Response(false, pid[..4], [], all)
        else if |pkt| < 4 then Response(false, pid[..4], [], all + [ShortData])
        else Response(false, pid[..4], pkt[2..|pkt| - 2], all)
  }

  /** The response to the driver's request, from the clocks in which the device drives. */
  method GetDeviceResponse(wave: seq<Line>) returns (rsp: Response)
    ensures rsp == ResponseOf(Group(ReceivedBits(Middles(wave))), |ReceivedBits(Middles(wave))| % 8)
  {
    var pkt, left := ReceiveFromDut(wave);
    hide ReceivedBits, Group, Middles, ByteBits;
    rsp := Response(false, Fill(false, 4), [], When(left != 0, BitsLeft));
    if pkt == [] {
      rsp := rsp.(none := true);
      return;
    }
    if pkt[0] != 0x80 {
      rsp := rsp.(complaints := rsp.complaints + [BadSync]);
    }
    if |pkt| < 2 {
      rsp := rsp.(complaints := rsp.complaints + [PidMissing]);
      return;
    }
    var pid := ByteBits(pkt[1]);
    if pid[4..] != Not(pid[..4]) {
      rsp := rsp.(complaints := rsp.complaints + [BadPid]);
    }
    rsp := rsp.(pid := pid[..4]);
    if DataNibble(rsp.pid) {
      if |pkt| < 4 {
        rsp := rsp.(complaints := rsp.complaints + [ShortData]);
        return;
      }
      rsp := rsp.(data := pkt[2..|pkt| - 2]);
    }
  }

  lemma DataSent(data: seq<bv8>, bits: Bits)
    requires bits == BytesBits(data) + Crc16Of(data)
    ensures |bits| % 8 == 0 && |Group(bits)| == |data| + 2 && Group(bits)[..|data|] == data
  {
    BytesBitsConcat(data, Crc16Bytes(data));
    GroupOfBytes(data + Crc16Bytes(data));
  }

  /** The bytes of an item's packet: SYNC, the PID, and what follows it. */
  lemma ItemBytes(t: Item, bits: Bits, more: Bits)
    requires WellFormed(t) && bits == ByteBits(0x80) + ItemBits(t) && ItemBits(t) == ByteBits(PidByte(t.pid)) + more
    ensures Group(bits) == [0x80, PidByte(t.pid)] + Group(more) && |bits| % 8 == |more| % 8
  {
    hide ItemBits, PidByte, Group;
    var b := ItemBits(t);
    FirstByte(0x80, b, bits);
    FirstByte(PidByte(t.pid), more, b);
    Seqs.Assoc([0x80], [PidByte(t.pid)], Group(more));
  }

  lemma FirstByte(x: bv8, more: Bits, bits: Bits)
    requires bits == ByteBits(x) + more
    ensures Group(bits) == [x] + Group(more)
  {
    GroupHead(bits);
    assert bits[..8] == ByteBits(x) && bits[8..] == more;
    SameBits(FromBits(bits[..8]), x);
  }

  /** The driver returns what the device has sent: the PID, and the data of a data packet, with no complaint. */
  lemma AnswerReturned(t: Item, after: seq<Line>)
    requires WellFormed(t)
    ensures var bits := ReceivedBits(Middles(Clocks(ItemWave(t)) + after));
      ResponseOf(Group(bits), |bits| % 8) == Response(false, Nibble(t.pid), if IsData(t.pid) then t.data else [], [])
  {
    var more := PayloadBits(t);
    MiddlesOf(ItemWave(t), after);
    assert ItemWave(t) == Packet(ItemBits(t), true);
    ItemBitsParts(t);
    PayloadGroups(t);
    assert ItemBits(t) == ByteBits(PidByte(t.pid)) + more;
    hide *;
    ReceivesPacket(ItemBits(t), true, Middles(after));
    ItemBytes(t, ByteBits(0x80) + ItemBits(t), more);
    PacketReturned(t.pid, Group(more));
  }

  lemma PayloadGroups(t: Item)
    requires WellFormed(t)
    ensures var more := PayloadBits(t);
      |more| % 8 == 0 && (IsData(t.pid) ==> |Group(more)| >= 2 && Group(more)[..|Group(more)| - 2] == t.data)
  {
    hide Group;
    if IsData(t.pid) {
      DataSent(t.data, PayloadBits(t));
    }
  }

  lemma PacketReturned(p: PidE, m: seq<bv8>)
    requires IsData(p) ==> |m| >= 2
    ensures ResponseOf([0x80, PidByte(p)] + m, 0)
         == Response(false, Nibble(p), if IsData(p) then m[..|m| - 2] else [], [])
  {
    DataNibbles(p);
    hide Nibble, PidByte, DataNibble;
    var pkt := [0x80, PidByte(p)] + m;
    assert IsData(p) ==> pkt[2..|pkt| - 2] == m[..|m| - 2];
  }

  /** The bits behind the PID. */
  function PayloadBits(t: Item): Bits
    requires WellFormed(t)
  {
    if IsToken(t.pid) || t.pid == SOF then Field(t) + Crc5Of(Field(t))
    else if IsData(t.pid) then BytesBits(t.data) + Crc16Of(t.data)
    else []
  }

  lemma DataNibbles(p: PidE)
    ensures DataNibble(Nibble(p)) <==> IsData(p)
    ensures var b := ByteBits(PidByte(p)); b[..4] == Nibble(p) && b[4..] == Not(Nibble(p))
  {}

  /** No answer is reported as none. */
  lemma SilenceReturned()
    ensures var bits := ReceivedBits(Middles([]));
      var r := ResponseOf(Group(bits), |bits| % 8);
      r.none && r.complaints == []
  {
    assert Middles([]) == [];
  }

  // ---- get_next_bit ------------------------------------------------------------------------------

  /** The bus in one clock: the host's pins, and the device's while it drives. Whoever reads it reads the device's pins
      then, and else the host's. */
  datatype Drive = Off | On(l: Line)

  datatype Pins = Pins(host: Line, dut: Drive)

  function LineOf(p: Pins): Line {
    if p.dut.On? then p.dut.l else p.host
  }

  /** One side drives, and the other one rests. */
  function Driven(l: Line, dev: bool): (p: Pins)
    ensures LineOf(p) == l && p.dut.On? == dev
  {
    if dev then Pins(J, On(l)) else Pins(l, Off)
  }

  function Pinned(w: seq<Line>, dev: bool): (r: seq<Pins>)
    ensures |r| == |w|
  {
    seq(|w|, i requires 0 <= i < |w| => Driven(w[i], dev))
  }

  /** A wave of bit intervals in clocks. */
  function OnWire(w: seq<Line>, dev: bool): (r: seq<Pins>)
    ensures |r| == CYCLES_PER_BIT * |w|
  {
    Pinned(Clocks(w), dev)
  }

  lemma OnWireConcat(a: seq<Line>, b: seq<Line>, dev: bool)
    ensures OnWire(a + b, dev) == OnWire(a, dev) + OnWire(b, dev)
  {
    ClocksConcat(a, b);
  }

  lemma OnWireOne(l: Line, dev: bool)
    ensures var p := Driven(l, dev); OnWire([l], dev) == [p, p, p, p]
  {
    ClocksOne(l);
  }

  /** The clocks from the current one on, the previous level of D+ and the ones counted. */
  datatype Cursor = Cursor(rest: seq<Pins>, prev: bool, ones: nat)

  /** Behind the end of the recording the line counts as SE0; nothing is reported that is read there. */
  function SampleAt(w: seq<Pins>, k: nat): Line {
    if k < |w| then LineOf(w[k]) else SE0
  }

  function Dp(l: Line): bool { l == J }

  function Drop<T>(w: seq<T>, k: nat): (r: seq<T>)
    ensures |r| <= |w| && (k > 0 && w != [] ==> |r| < |w|)
  {
    if k <= |w| then w[k..] else []
  }

  /** A sample in the middle of the bit; at SE0 half a bit is spent, and after the sixth one the stuff bit is consumed
      together with it. */
  function NextBit(c: Cursor): (bool, bool, Cursor) {
    if SampleAt(c.rest, 2) == SE0 then (false, true, c.(rest := Drop(c.rest, 2)))
    else
      var dp := Dp(SampleAt(c.rest, 2));
      var b := dp == c.prev;
      var ones := if b then c.ones + 1 else 0;
      if ones == 6 then (b, false, Cursor(Drop(c.rest, 8), Dp(SampleAt(c.rest, 6)), 0))
      else (b, false, Cursor(Drop(c.rest, 4), dp, ones))
  }

  /** n calls of get_next_bit; a call that meets SE0 reads a zero. */
  function ReadBits(c: Cursor, n: nat): (r: (Bits, Cursor))
    ensures |r.0| == n
    decreases n
  {
    if n == 0 then ([], c)
    else
      var (b, eop, c1) := NextBit(c);
      var (bits, c2) := ReadBits(c1, n - 1);
      ([b] + bits, c2)
  }

  /** get_next_bit until it reports the end of packet. */
  function ReadToEop(c: Cursor): (Bits, Cursor)
    decreases |c.rest|
  {
    var (b, eop, c1) := NextBit(c);
    if eop then ([], c1)
    else
      var (bits, c2) := ReadToEop(c1);
      ([b] + bits, c2)
  }

  /** The cursor stands where the code of `bits` begins, and `tail` follows it. */
  predicate Reads(c: Cursor, l: Line, ones: nat, bits: Bits, dev: bool, tail: seq<Pins>)
  {
    l != SE0 && ones < 6 && c == Cursor(OnWire(Sent(l, ones, bits), dev) + tail, Dp(l), ones)
  }

  lemma SentUncons(l: Line, ones: nat, bits: Bits)
    requires ones < 6 && bits != []
    ensures var b := bits[0];
            Sent(l, ones, bits) == Sent(l, ones, [b]) + Sent(SentEnd(l, ones, [b]), EagerOnes([b], ones), bits[1..])
  {
    var b := bits[0];
    assert bits == [b] + bits[1..];
    EagerConcat([b], bits[1..], ones);
    NrziConcat(l, EagerStuff([b], ones), EagerStuff(bits[1..], EagerOnes([b], ones)));
  }

  lemma FourClocks(l: Line, dev: bool, later: seq<Pins>)
    ensures var w := OnWire([l], dev) + later; SampleAt(w, 2) == l && Drop(w, 4) == later
  {
    OnWireOne(l, dev);
  }

  lemma EightClocks(l: Line, m: Line, dev: bool, later: seq<Pins>)
    ensures var w := OnWire([l, m], dev) + later; SampleAt(w, 2) == l && SampleAt(w, 6) == m && Drop(w, 8) == later
  {
    assert [l, m] == [l] + [m];
    OnWireConcat([l], [m], dev);
    OnWireOne(l, dev);
    OnWireOne(m, dev);
  }

  /** One call recovers one bit and its stuff bit. */
  lemma NextBitDecodes(c: Cursor, l: Line, ones: nat, bits: Bits, dev: bool, tail: seq<Pins>)
    requires Reads(c, l, ones, bits, dev, tail) && bits != []
    ensures var (b, eop, c1) := NextBit(c);
            b == bits[0] && !eop && Reads(c1, SentEnd(l, ones, [b]), EagerOnes([b], ones), bits[1..], dev, tail)
  {
    var b := bits[0];
    SentUncons(l, ones, bits);
    SentOne(l, ones, b);
    var more := Sent(SentEnd(l, ones, [b]), EagerOnes([b], ones), bits[1..]);
    var later := OnWire(more, dev) + tail;
    OnWireConcat(Sent(l, ones, [b]), more, dev);
    Seqs.Assoc(OnWire(Sent(l, ones, [b]), dev), OnWire(more, dev), tail);
    hide Sent, SentEnd, EagerOnes, OnWire, Drop, SampleAt;
    var n := if b then l else Flip(l);
    if b && ones == 5 {
      EightClocks(n, Flip(n), dev, later);
    } else {
      FourClocks(n, dev, later);
    }
  }

  lemma ReadBitsNext(c: Cursor, k: nat)
    ensures var (b, eop, c1) := NextBit(c);
            ReadBits(c, k + 1).0 == [b] + ReadBits(c1, k).0 && ReadBits(c, k + 1).1 == ReadBits(c1, k).1
  {
    hide NextBit;
  }

  lemma {:induction false} ReadBitsDecodes(c: Cursor, l: Line, ones: nat, bits: Bits, dev: bool, tail: seq<Pins>,
    n: nat)
      returns (m: Line, o: nat)
    requires Reads(c, l, ones, bits, dev, tail) && n <= |bits|
    ensures ReadBits(c, n).0 == bits[..n] && Reads(ReadBits(c, n).1, m, o, bits[n..], dev, tail)
    decreases n
  {
    if n == 0 {
      m, o := l, ones;
      assert bits[0..] == bits;
    } else {
      var b, later, k := bits[0], bits[1..], n - 1;
      assert ones < 6 && bits[..n] == [b] + later[..k] && later[k..] == bits[n..];
      hide *;
      NextBitDecodes(c, l, ones, bits, dev, tail);
      ReadBitsNext(c, k);
      m, o := ReadBitsDecodes(NextBit(c).2, SentEnd(l, ones, [b]), EagerOnes([b], ones), later, dev, tail, k);
    }
  }

  lemma {:induction false} ReadToEopDecodes(c: Cursor, l: Line, ones: nat, bits: Bits, dev: bool, tail: seq<Pins>)
    requires Reads(c, l, ones, bits, dev, tail) && SampleAt(tail, 2) == SE0
    ensures ReadToEop(c).0 == bits && ReadToEop(c).1.rest == Drop(tail, 2)
    decreases |bits|
  {
    if bits == [] {
      NothingLeft(c, l, ones, bits, dev, tail);
    } else {
      NextBitDecodes(c, l, ones, bits, dev, tail);
      hide NextBit, Reads;
      var b := bits[0];
      ReadToEopDecodes(NextBit(c).2, SentEnd(l, ones, [b]), EagerOnes([b], ones), bits[1..], dev, tail);
    }
  }

  lemma NothingLeft(c: Cursor, l: Line, ones: nat, bits: Bits, dev: bool, tail: seq<Pins>)
    requires Reads(c, l, ones, bits, dev, tail) && bits == []
    ensures c.rest == tail
  {
    assert OnWire([], dev) + tail == tail;
  }
}
