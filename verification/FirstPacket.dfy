/** The first packet a monitor sees. It has counted no one for the K K of SYNC, so where the sender stuffs a bit
    after five ones the monitor takes that bit for data. */
module FirstPacket {
  import opened BitSeq
  import opened Words
  import opened LineCode
  import opened UsbCrc
  import opened UsbMonitor
  import opened Wires

  // ---- The bit taken for data ------------------------------------------------------------------------

  /** The data bits as the monitor then reads them. */
  function Inserted(bits: Bits): Bits
    requires |bits| >= 5
  {
    bits[..5] + [false] + bits[5..]
  }

  const FIVE: Bits := Fill(true, 5)

  lemma {:induction false} OnesStuffed(n: nat, ones: nat)
    requires n + ones <= 6
    ensures Stuff(Fill(true, n), ones) == Fill(true, n) && OnesAfter(Fill(true, n), ones) == n + ones
    decreases n
  {
    if n == 0 {
      assert Fill(true, 0) == [];
    } else {
      OnesStuffed(n - 1, ones + 1);
      assert Fill(true, n) == [true] + Fill(true, n - 1);
      StuffCons(true, Fill(true, n - 1), ones);
    }
  }

  /** What the sender stuffs, counting from one, is what it would stuff into the other bits, counting from none. */
  lemma StuffedAlike(bits: Bits)
    requires |bits| > 5 && bits[..5] == FIVE
    ensures Stuff(bits, 1) == Stuff(Inserted(bits), 0) && OnesAfter(bits, 1) == OnesAfter(Inserted(bits), 0)
  {
    hide *;
    var rest := bits[5..];
    InsertedSplit(bits);
    FiveIs();
    OnesStuffed(5, 1);
    OnesStuffed(5, 0);
    StuffConcat(FIVE, rest, 1);
    StuffConcat(FIVE, [false] + rest, 0);
    StuffCons(false, rest, 5);
    StuffNext(rest, 6);
    OnesNext(rest);
  }

  lemma FiveIs()
    ensures FIVE == Fill(true, 5)
  {}

  lemma InsertedSplit(bits: Bits)
    requires |bits| > 5 && bits[..5] == FIVE
    ensures bits == FIVE + bits[5..] && Inserted(bits) == FIVE + ([false] + bits[5..])
  {}

  lemma OnesNext(rest: Bits)
    requires rest != []
    ensures OnesAfter(rest, 6) == OnesAfter(rest, 0)
  {}

  /** The raw bits of the packet, unstuffed by the monitor. */
  lemma RawInserted(rawbits: Uint32, asm: Asm, bits: Bits, flush: bool) returns (ones: nat)
    requires |asm.bits| == 8 && Trailing(rawbits, 0) && |bits| > 5 && bits[..5] == FIVE
    ensures var r := RawRun(rawbits, asm, if flush then Stuffed(bits, 1) else Stuff(bits, 1));
      && r.1 == DataRun(asm, Inserted(bits)).0 && r.2 == DataRun(asm, Inserted(bits)).1 && Trailing(r.0, ones)
  {
    StuffedAlike(bits);
    ones := RawUnstuffs(rawbits, asm, Inserted(bits), 0, 0);
    var w := Stuff(bits, 1);
    assert Stuffed(bits, 1) == if ones == 6 then w + [false] else w;
    hide RawRun, DataRun, Stuff, OnesAfter, Inserted;
    if flush && ones == 6 {
      RawFlush(rawbits, asm, w);
      ones := 0;
    }
  }

  // ---- Bytes -------------------------------------------------------------------------------------------

  /** The bytes the monitor then reports. */
  function Misread(bytes: seq<bv8>): (r: seq<bv8>)
    requires bytes != []
    ensures |r| == |bytes|
  {
    Group(Inserted(BytesBits(bytes))[..8 * |bytes|])
  }

  /** The misread bytes, and one bit left over. */
  lemma MisreadBits(bytes: seq<bv8>) returns (last: bool)
    requires bytes != []
    ensures Inserted(BytesBits(bytes)) == BytesBits(Misread(bytes)) + [last]
  {
    var v := Inserted(BytesBits(bytes));
    var n := 8 * |bytes|;
    assert |v| == n + 1;
    BitsOfGroup(v[..n]);
    last := v[n];
    assert v == v[..n] + [v[n]];
  }

  /** The other bits begin with the bits themselves exactly if those behind the five ones are zeros. */
  lemma {:induction false} ShiftedSame(rest: Bits)
    requires rest != []
    ensures ([false] + rest)[..|rest|] == rest <==> rest == Fill(false, |rest|)
  {
    var v := ([false] + rest)[..|rest|];
    if v == rest {
      AllFalse(rest, |rest|);
    }
  }

  lemma {:induction false} AllFalse(rest: Bits, n: nat)
    requires n <= |rest| && ([false] + rest)[..|rest|] == rest
    ensures forall k :: 0 <= k < n ==> !rest[k]
    decreases n
  {
    if n > 0 {
      AllFalse(rest, n - 1);
      assert rest[n - 1] == ([false] + rest)[..|rest|][n - 1];
    }
  }

  predicate ZerosBehind(bytes: seq<bv8>) {
    bytes != [] && bytes[0] == 0x1F && forall k :: 1 <= k < |bytes| ==> bytes[k] == 0
  }

  lemma FiveFirst(bytes: seq<bv8>)
    requires bytes != [] && FiveOnes(bytes[0])
    ensures BytesBits(bytes)[..5] == FIVE
  {
    FiveOnesBits(bytes[0]);
    BytesBitsAt(bytes, 0);
    forall i | 0 <= i < 5
      ensures BytesBits(bytes)[i]
    {
      assert BytesBits(bytes)[8 * 0 + i] == Bit(bytes[0], i);
    }
  }

  lemma ByteOf(d: bv8)
    ensures d == 0 <==> forall b :: 0 <= b < 8 ==> !Bit(d, b)
    ensures FiveOnes(d) ==> (d == 0x1F <==> forall b :: 5 <= b < 8 ==> !Bit(d, b))
  {
    assert d & 0x1F == 0 <==> !Bit(d, 0) && !Bit(d, 1) && !Bit(d, 2) && !Bit(d, 3) && !Bit(d, 4);
    assert d & 0xE0 == 0 <==> !Bit(d, 5) && !Bit(d, 6) && !Bit(d, 7);
    assert d == 0 <==> d & 0x1F == 0 && d & 0xE0 == 0;
    assert FiveOnes(d) ==> (d == 0x1F <==> !Bit(d, 5) && !Bit(d, 6) && !Bit(d, 7));
  }

  /** From the fifth bit on there are only zeros. */
  predicate ZerosFrom5(s: Bits) { forall i :: 5 <= i < |s| ==> !s[i] }

  lemma BitsToBytes(bytes: seq<bv8>)
    requires bytes != [] && FiveOnes(bytes[0]) && ZerosFrom5(BytesBits(bytes))
    ensures ZerosBehind(bytes)
  {
    var s := BytesBits(bytes);
    hide BytesBits, Bit;
    forall k | 0 <= k < |bytes|
      ensures k == 0 ==> bytes[k] == 0x1F
      ensures k > 0 ==> bytes[k] == 0
    {
      BytesBitsAt(bytes, k);
      ByteOf(bytes[k]);
      forall b | 0 <= b < 8 && (k > 0 || b >= 5)
        ensures !Bit(bytes[k], b)
      {
        assert s[8 * k + b] == Bit(bytes[k], b);
      }
    }
  }

  lemma BytesToBits(bytes: seq<bv8>)
    requires ZerosBehind(bytes)
    ensures ZerosFrom5(BytesBits(bytes))
  {
    var s := BytesBits(bytes);
    forall i | 5 <= i < |s|
      ensures !s[i]
    {
      var k, b := i / 8, i % 8;
      BytesBitsAt(bytes, k);
      ByteOf(bytes[k]);
      assert s[8 * k + b] == Bit(bytes[k], b);
    }
  }

  /** The bytes survive exactly if only zeros follow the five ones. */
  lemma MisreadSame(bytes: seq<bv8>)
    requires bytes != [] && FiveOnes(bytes[0])
    ensures Misread(bytes) == bytes <==> ZerosBehind(bytes)
  {
    hide *;
    var s, n := BytesBits(bytes), 8 * |bytes|;
    FiveFirst(bytes);
    InsertedSplit(s);
    var last := MisreadBits(bytes);
    PrefixSame(s, BytesBits(Misread(bytes)), last);
    if ZerosFrom5(s) {
      BytesBitsInjective(Misread(bytes), bytes);
      BitsToBytes(bytes);
    }
    if ZerosBehind(bytes) {
      BytesToBits(bytes);
    }
  }

  lemma PrefixSame(s: Bits, t: Bits, last: bool)
    requires |s| > 5 && |t| == |s| && FIVE + ([false] + s[5..]) == t + [last] && s == FIVE + s[5..]
    ensures t == s <==> ZerosFrom5(s)
  {
    var rest := s[5..];
    assert t == (t + [last])[..|s|] == (FIVE + ([false] + rest))[..|s|] == FIVE + ([false] + rest)[..|rest|];
    ShiftedSame(rest);
    SameBehind(s, t);
    assert t[5..] == ([false] + rest)[..|rest|];
    assert forall i :: 5 <= i < |s| ==> s[i] == rest[i - 5];
    AllFill(rest);
  }

  lemma SameBehind<T>(s: seq<T>, t: seq<T>)
    requires |s| == |t| >= 5 && t[..5] == s[..5]
    ensures t == s <==> t[5..] == s[5..]
  {
    assert t == t[..5] + t[5..] && s == s[..5] + s[5..];
  }

  lemma AllFill(s: Bits)
    ensures s == Fill(false, |s|) <==> forall i :: 0 <= i < |s| ==> !s[i]
  {}

  // ---- The packet ------------------------------------------------------------------------------------------

  lemma EventAt(bytes: seq<bv8>, i: nat)
    requires i < |bytes|
    ensures |PacketEvents(bytes)| == |bytes| + 2
    ensures PacketEvents(bytes)[1 + i] == if i == 0 then Pid(bytes[0]) else Byte(bytes[i])
  {}

  lemma ReceivedInjective(a: seq<bv8>, b: seq<bv8>)
    requires |a| == |b|
    ensures PacketEvents(a) == PacketEvents(b) <==> a == b
  {
    hide *;
    if PacketEvents(a) == PacketEvents(b) {
      forall i | 0 <= i < |a|
        ensures a[i] == b[i]
      {
        EventAt(a, i);
        EventAt(b, i);
      }
    }
  }

  /** What the first packet causes if it begins with five ones: the callbacks of other bytes. */
  lemma FirstMisread(m: Mon, bytes: seq<bv8>, flush: bool)
    requires BetweenPackets(m) && Trailing(m.rawbits, 0) && bytes != [] && FiveOnes(bytes[0])
    ensures var r := MonRun(m, Packet(BytesBits(bytes), flush));
      r.1 == PacketEvents(Misread(bytes)) && BetweenPackets(r.0) && r.0.line[0] == JS && Trailing(r.0.rawbits, 1)
  {
    hide *;
    var bits := BytesBits(bytes);
    var w := if flush then Stuffed(bits, 1) else Stuff(bits, 1);
    IdleShape(m);
    SyncDetected(m);
    var m1 := MonRun(m, SYNC).0;
    FiveFirst(bytes);
    MonDecodesNrzi(m1, K, w);
    NrziEndIsLevel(K, w);
    var ones := RawInserted(m1.rawbits, m1.asm, bits, flush);
    OneLeft(m1.asm, bytes);
    var m2 := MonRun(m1, Nrzi(K, w)).0;
    LevelSampled(NrziEnd(K, w));
    EopDetected(m2, ones);
    PacketParts(bits, flush);
    MonRunConcat(m, SYNC + Nrzi(K, w), EOP);
    MonRunConcat(m, SYNC, Nrzi(K, w));
    EventParts(Misread(bytes));
  }

  lemma IdleShape(m: Mon)
    requires BetweenPackets(m)
    ensures Valid(m) && m.asm.state == MS_IDLE && m.line[0] != KS && SampleOf(K) == KS
  {}

  lemma LevelSampled(l: Line)
    requires l != SE0
    ensures SampleOf(l) == JS || SampleOf(l) == KS
  {}

  lemma PacketParts(bits: Bits, flush: bool)
    ensures Packet(bits, flush) == (SYNC + Nrzi(K, if flush then Stuffed(bits, 1) else Stuff(bits, 1))) + EOP
  {}

  lemma EventParts(bytes: seq<bv8>)
    ensures PacketEvents(bytes) == ([Sync] + Received(bytes)) + [Eop]
  {}

  /** The misread bytes are assembled, and one bit is left over. */
  lemma OneLeft(asm: Asm, bytes: seq<bv8>)
    requires |asm.bits| == 8 && asm.state == MS_GET_PID && asm.needbits == 8 && bytes != []
    ensures var r := DataRun(asm, Inserted(BytesBits(bytes)));
      r.1 == Received(Misread(bytes)) && r.0.state != MS_IDLE && r.0.needbits == 7 && |r.0.bits| == 8
  {
    hide *;
    var last := MisreadBits(bytes);
    AllBytes(asm, Misread(bytes));
    var a := DataRun(asm, BytesBits(Misread(bytes))).0;
    PartialByte(a, [last]);
    DataRunConcat(asm, BytesBits(Misread(bytes)), [last]);
  }

  /** A monitor that has seen no packet yet calls back for the first one exactly as it should if and only if that does
      not begin with five ones, or has only zeros behind them. Either way it is ready for the next one. */
  lemma FirstReceived(m: Mon, bytes: seq<bv8>, flush: bool)
    requires BetweenPackets(m) && Trailing(m.rawbits, 0)
    ensures var r := MonRun(m, Packet(BytesBits(bytes), flush));
      && (r.1 == PacketEvents(bytes) <==> bytes == [] || !FiveOnes(bytes[0]) || ZerosBehind(bytes))
      && BetweenPackets(r.0) && Trailing(r.0.rawbits, 1)
  {
    hide *;
    if bytes == [] || !FiveOnes(bytes[0]) {
      PacketReceived(m, bytes, flush);
    } else {
      FirstMisread(m, bytes, flush);
      MisreadSame(bytes);
      ReceivedInjective(Misread(bytes), bytes);
    }
  }

  /** It happens: a new monitor reads 0xFF as 0xDF. */
  lemma FirstReceivedExample(flush: bool)
    ensures BetweenPackets(Init()) && Trailing(Init().rawbits, 0)
    ensures MonRun(Init(), Packet(BytesBits([0xFF]), flush)).1 == [Sync, Pid(0xDF), Eop]
  {
    FirstMisread(Init(), [0xFF], flush);
    MisreadExample();
    hide MonRun, Packet, BytesBits, Misread;
    assert PacketEvents([0xDF]) == [Sync, Pid(0xDF), Eop];
  }

  lemma MisreadExample()
    ensures Misread([0xFF]) == [0xDF]
  {
    BytesBitsOne(0xFF);
    var v := Inserted(BytesBits([0xFF]))[..8];
    assert v == ByteBits(0xDF);
    SameBits(FromBits(v), 0xDF);
    assert v[..8] == v && v[8..] == [] && Group([]) == [];
  }
}
