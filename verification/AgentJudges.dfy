/** What the SystemVerilog receivers make of packets no driver would send. */
module AgentJudges {
  import opened BitSeq
  import opened UsbCrc
  import opened CrcRoutines
  import opened LineCode
  import opened AgentDriver
  import opened AgentReceivers
  import opened AgentMonitor
  import Seqs

  // ---- collect_packet ----------------------------------------------------------------------------------

  /** The upper half of the PID is the complement of the lower one. */
  predicate PidHolds(pid: Bits)
    requires |pid| == 8
  {
    forall i :: 0 <= i < 4 ==> pid[i + 4] != pid[i]
  }

  /** The four low bits are one of the PIDs, as section 8.3.1 numbers them. */
  predicate Means(pid: Bits, p: PidE)
    requires |pid| == 8
  {
    pid[0] == (p == OUT || p == IN || p == SOF || p == SETUP || p == DATA0 || p == DATA1)
    && pid[1] == (p == DATA0 || p == DATA1 || p == ACK || p == NAK || p == STALL)
    && pid[2] == (p == SOF || p == SETUP || p == STALL || p == PRE)
    && pid[3] == (p == IN || p == SETUP || p == DATA1 || p == NAK || p == STALL || p == PRE)
  }

  lemma MeansNibble(pid: Bits, p: PidE)
    requires |pid| == 8
    ensures Means(pid, p) <==> pid[..4] == Nibble(p)
  {
    var n := Nibble(p);
    assert pid[..4] == n <==> pid[0] == n[0] && pid[1] == n[1] && pid[2] == n[2] && pid[3] == n[3];
  }

  /** The packet with these bits, SYNC included, is one that the monitor takes. */
  predicate Taken(bits: Bits, p: PidE)
    requires |bits| >= 16
  {
    && bits[..8] == [false, false, false, false, false, false, false, true]
    && PidHolds(bits[8..16]) && Means(bits[8..16], p) && p != PRE
    && (IsData(p) ==> (|bits| - 16) % 8 == 0 && |bits| >= 16 + 16)
  }

  /** And the transaction it becomes: address, endpoint and frame from the sixteen bits behind the PID, data from those
      before the last two bytes. */
  predicate Becomes(bits: Bits, t: Item)
    requires |bits| >= 16
  {
    && (IsToken(t.pid) && |bits| >= 32 ==> t.addr == bits[16..23] && t.endp == bits[23..27])
    && (t.pid == SOF && |bits| >= 32 ==> t.frame == bits[16..27])
    && (IsData(t.pid) ==> |bits| >= 32 && BytesBits(t.data) == bits[16..|bits| - 16])
  }

  lemma SyncBits()
    ensures ByteBits(0x80) == [false, false, false, false, false, false, false, true]
  {}

  lemma NibbleMeans(pid: Bits)
    requires |pid| == 8
    ensures match PidOf(pid[..4]) { case SomePid(p) => Means(pid, p) && p != PRE case NoPid => true }
    ensures PidOf(pid[..4]).NoPid? ==> forall p :: Means(pid, p) ==> p == PRE
    ensures forall p, q :: Means(pid, p) && Means(pid, q) ==> p == q
  {
    forall p: PidE
      ensures Means(pid, p) <==> pid[..4] == Nibble(p)
    {
      MeansNibble(pid, p);
    }
    hide Means;
  }

  /** The code of any bits holds no SE0. */
  lemma {:induction false} SkipCode(w: seq<Line>, dev: bool, tail: seq<Pins>)
    requires forall k :: 0 <= k < |w| ==> w[k] != SE0
    ensures SkipToSE0(OnWire(w, dev) + tail) == SkipToSE0(tail)
    decreases |w|
  {
    if w == [] {
      assert OnWire(w, dev) + tail == tail;
    } else {
      var later := OnWire(w[1..], dev) + tail;
      SkipCode(w[1..], dev, tail);
      assert w == [w[0]] + w[1..];
      OnWireConcat([w[0]], w[1..], dev);
      BitClocks(w[0]);
      Seqs.Assoc(OnWire([w[0]], dev), OnWire(w[1..], dev), tail);
      LevelSkipped(w[0], 4, dev, later);
    }
  }

  /** From anywhere in a packet the monitor finds its end. */
  lemma FindsEnd(c: Cursor, l: Line, ones: nat, bits: Bits, dev: bool, after: seq<Pins>)
    requires Reads(c, l, ones, bits, dev, OnWire(EOP, dev) + after)
    ensures SkipSE0(SkipToSE0(c.rest)) == OnWire([J], dev) + after
  {
    var tail := OnWire(EOP, dev) + after;
    NrziNoSE0(l, EagerStuff(bits, ones));
    SkipCode(Sent(l, ones, bits), dev, tail);
    EndOfPacket(0, dev, after);
    assert Drop(tail, 0) == tail;
    hide OnWire, SkipToSE0, SkipSE0, Sent;
  }

  /** collect_packet on any bits whatever, sent as a packet by either side: it takes exactly those with SYNC, a PID
      whose halves are complements and mean a PID it supports, and, for data, whole bytes with room for the CRC16;
      what it takes has the fields that were sent. Taken or not, it stands at the J behind the packet. */
  lemma CollectJudges(bits: Bits, dev: bool, after: seq<Pins>)
    requires |bits| >= 16 && (forall p :: IsToken(p) || p == SOF ==> !Means(bits[8..16], p) || |bits| >= 32)
    ensures var r := Collect(Cursor(OnWire(Sent(J, 0, bits) + EOP, dev) + after, true, 0));
      && (r.0.Valid? <==> exists p :: Taken(bits, p))
      && (r.0.Valid? ==> Taken(bits, r.0.t.pid) && Becomes(bits, r.0.t)) && r.1 == OnWire([J], dev) + after
  {
    var c := Cursor(OnWire(Sent(J, 0, bits) + EOP, dev) + after, true, 0);
    hide *;
    CodeBegins(bits, dev, after);
    var tail := OnWire(EOP, dev) + after;
    var l1, o1 := ReadBitsDecodes(c, J, 0, bits, dev, tail, 8);
    var c1 := ReadBits(c, 8).1;
    var l2, o2 := ReadBitsDecodes(c1, l1, o1, bits[8..], dev, tail, 8);
    var c2 := ReadBits(c1, 8).1;
    var pid := bits[8..16];
    assert bits[8..][..8] == pid && bits[8..][8..] == bits[16..];
    NibbleMeans(pid);
    FindsEnd(c2, l2, o2, bits[16..], dev, after);
    CollectCases(c, bits[..8], pid);
    if bits[..8] == ByteBits(0x80) && pid[4..] == Not(pid[..4]) && PidOf(pid[..4]).SomePid? {
      PayloadJudges(bits, PidOf(pid[..4]).p, c2, l2, o2, dev, after);
    }
    Conclude(bits, Collect(c).0, Payload(PidOf(pid[..4]), c2).0);
  }

  lemma CodeBegins(bits: Bits, dev: bool, after: seq<Pins>)
    ensures Reads(Cursor(OnWire(Sent(J, 0, bits) + EOP, dev) + after, true, 0), J, 0, bits, dev,
      OnWire(EOP, dev) + after)
  {
    OnWireConcat(Sent(J, 0, bits), EOP, dev);
    Seqs.Assoc(OnWire(Sent(J, 0, bits), dev), OnWire(EOP, dev), after);
    hide OnWire, Sent;
  }

  /** The steps of collect_packet. */
  lemma CollectCases(c: Cursor, sync: Bits, pid: Bits)
    requires |pid| == 8 && ReadBits(c, 8).0 == sync && ReadBits(ReadBits(c, 8).1, 8).0 == pid
    ensures var c2, r := ReadBits(ReadBits(c, 8).1, 8).1, Collect(c);
      var f := Payload(PidOf(pid[..4]), c2);
      if sync == ByteBits(0x80) && pid[4..] == Not(pid[..4]) && PidOf(pid[..4]).SomePid? then
        r.0 == f.0 && r.1 == SkipSE0(SkipToSE0(f.1.rest))
      else r.0 == Invalid && r.1 == SkipSE0(SkipToSE0(c2.rest))
  {
    var c2 := ReadBits(ReadBits(c, 8).1, 8).1;
    PayloadOfOthers(ACK, c2);
    hide ReadBits, Payload, PidOf, ByteBits, SkipSE0, SkipToSE0;
  }

  lemma Conclude(bits: Bits, found: Finding, f: Finding)
    requires |bits| >= 16
    requires var pid := bits[8..16];
      if bits[..8] == ByteBits(0x80) && pid[4..] == Not(pid[..4]) && PidOf(pid[..4]).SomePid? then
        found == f && PayloadRight(bits, PidOf(pid[..4]).p, f)
      else found == Invalid
    ensures (found.Valid? <==> exists p :: Taken(bits, p))
      && (found.Valid? ==> Taken(bits, found.t.pid) && Becomes(bits, found.t))
  {
    var pid := bits[8..16];
    SyncBits();
    HoldsNot(pid);
    NibbleMeans(pid);
    hide ByteBits, PidOf, Means, PidHolds, Becomes;
    if found.Valid? {
      assert Taken(bits, found.t.pid);
    }
  }

  lemma HoldsNot(pid: Bits)
    requires |pid| == 8
    ensures PidHolds(pid) <==> pid[4..] == Not(pid[..4])
  {}

  predicate PayloadRight(bits: Bits, p: PidE, f: Finding)
    requires |bits| >= 16
  {
    && (f.Valid? <==> (IsData(p) ==> (|bits| - 16) % 8 == 0 && |bits| >= 32))
    && (f.Valid? ==> f.t.pid == p && Becomes(bits, f.t))
  }

  lemma PayloadJudges(bits: Bits, p: PidE, c: Cursor, l: Line, ones: nat, dev: bool, after: seq<Pins>)
    requires |bits| >= 16 && Reads(c, l, ones, bits[16..], dev, OnWire(EOP, dev) + after)
    requires p != PRE && (IsToken(p) || p == SOF ==> |bits| >= 32)
    ensures var r := Payload(SomePid(p), c);
      PayloadRight(bits, p, r.0) && SkipSE0(SkipToSE0(r.1.rest)) == OnWire([J], dev) + after
  {
    hide *;
    var more, tail := bits[16..], OnWire(EOP, dev) + after;
    if p == OUT || p == IN || p == SETUP || p == SOF {
      Kinds(p);
      var m, o := ReadBitsDecodes(c, l, ones, more, dev, tail, 16);
      FindsEnd(ReadBits(c, 16).1, m, o, more[16..], dev, after);
      PayloadOfFields(p, c);
      FieldsJudged(bits, p);
    } else if p == DATA0 || p == DATA1 {
      Kinds(p);
      EndOfPacket(2, dev, after);
      ReadToEopDecodes(c, l, ones, more, dev, tail);
      DataJudged(bits, p, c);
    } else {
      Kinds(p);
      FindsEnd(c, l, ones, more, dev, after);
      PayloadOfOthers(p, c);
      OtherJudged(bits, p);
    }
  }

  lemma Kinds(p: PidE)
    ensures IsToken(p) <==> p == OUT || p == IN || p == SETUP
    ensures IsData(p) <==> p == DATA0 || p == DATA1
  {}

  lemma FieldsJudged(bits: Bits, p: PidE)
    requires |bits| >= 32 && (IsToken(p) || p == SOF)
    ensures var f := bits[16..][..16];
      PayloadRight(bits, p, Valid(if p == SOF then Blank(p).(frame := f[..11])
                                  else Blank(p).(addr := f[..7], endp := f[7..11])))
  {
    var f := bits[16..][..16];
    assert f[..11] == bits[16..27] && f[..7] == bits[16..23] && f[7..11] == bits[23..27];
  }

  lemma OtherJudged(bits: Bits, p: PidE)
    requires |bits| >= 16 && !IsToken(p) && !IsData(p) && p != SOF
    ensures PayloadRight(bits, p, Valid(Blank(p)))
  {}

  lemma DataJudged(bits: Bits, p: PidE, c: Cursor)
    requires |bits| >= 16 && IsData(p) && ReadToEop(c).0 == bits[16..]
    ensures var r := Payload(SomePid(p), c); PayloadRight(bits, p, r.0) && r.1 == ReadToEop(c).1
  {
    DataCases(p, c);
    DataField(bits);
    hide ReadToEop, Group, Payload, BytesBits;
  }

  lemma DataField(bits: Bits)
    requires |bits| >= 16
    ensures var more, g := bits[16..], Group(bits[16..]);
      && |g| == (|bits| - 16) / 8
      && (|more| % 8 == 0 && |g| >= 2 ==> BytesBits(g[..|g| - 2]) == bits[16..|bits| - 16])
  {
    var more, g := bits[16..], Group(bits[16..]);
    hide Group, BytesBits;
    if |more| % 8 == 0 && |g| >= 2 {
      BitsOfGroup(more);
      BytesBitsDrop(g, |g| - 2);
      assert more[..8 * (|g| - 2)] == bits[16..|bits| - 16];
    }
  }

  lemma DataCases(p: PidE, c: Cursor)
    requires IsData(p)
    ensures var bits, r := ReadToEop(c).0, Payload(SomePid(p), c);
      && r.1 == ReadToEop(c).1
      && r.0 == (if |bits| % 8 != 0 || |Group(bits)| < 2 then Invalid
                 else Valid(Blank(p).(data := Group(bits)[..|Group(bits)| - 2])))
  {
    hide ReadToEop, Group, Blank;
  }

  // ---- collect_bus_reset -------------------------------------------------------------------------------

  /** SE0 by either side for any number of clocks: a bus reset from 2.5 microseconds on, reported with its whole
      microseconds; and the direction and the endpoint are forgotten, however short it was. */
  lemma ResetJudged(n: nat, dev: bool, w: seq<Pins>, k: Token)
    requires n > 0
    ensures CollectTrans(Pinned(Level(SE0, n), dev) + (OnWire([J], dev) + w), k)
         == (if 2 * n >= 5 * 48 then [Reset(n / 48, dev)] else []) + CollectTrans(w, Token(false, Fill(false, 4)))
  {
    SE0Reported(n, dev, w, k);
    MovesOn(dev, w, NoToken());
    LongEnough(n, dev);
    assert NoToken() == Token(false, Fill(false, 4));
    hide *;
  }

  lemma LongEnough(n: nat, dev: bool)
    ensures ReportReset(n, dev) == if 2 * n >= 5 * 48 then [Reset(n / 48, dev)] else []
  {}

  // ---- get_device_response -----------------------------------------------------------------------------

  /** What there is to complain of. */
  predicate Cause(x: Complaint, pkt: seq<bv8>, left: nat) {
    match x
    case BitsLeft => left != 0
    case BadSync => pkt != [] && pkt[0] != 0x80
    case PidMissing => |pkt| == 1
    case BadPid => |pkt| >= 2 && !PidHolds(ByteBits(pkt[1]))
    case ShortData => 2 <= |pkt| < 4 && (Means(ByteBits(pkt[1]), DATA0) || Means(ByteBits(pkt[1]), DATA1))
  }

  lemma InWhen(x: Complaint, c: bool, y: Complaint)
    ensures x in When(c, y) <==> c && x == y
  {}

  lemma InBoth(x: Complaint, a: seq<Complaint>, b: seq<Complaint>)
    ensures x in a + b <==> x in a || x in b
  {}

  lemma InOne(x: Complaint, y: Complaint)
    ensures x in [y] <==> x == y
  {}

  lemma FewBytes(x: Complaint, pkt: seq<bv8>, left: nat)
    requires |pkt| < 2
    ensures x in ResponseOf(pkt, left).complaints <==> Cause(x, pkt, left)
  {
    hide When;
    var bits := When(left != 0, BitsLeft);
    InWhen(x, left != 0, BitsLeft);
    if pkt != [] {
      var sync := When(pkt[0] != 0x80, BadSync);
      InWhen(x, pkt[0] != 0x80, BadSync);
      InBoth(x, bits, sync);
      InBoth(x, bits + sync, [PidMissing]);
      InOne(x, PidMissing);
    }
  }

  /** The complaints are exactly the ones there is cause for. */
  lemma ComplainsExactly(x: Complaint, pkt: seq<bv8>, left: nat)
    ensures x in ResponseOf(pkt, left).complaints <==> Cause(x, pkt, left)
  {
    if |pkt| < 2 {
      FewBytes(x, pkt, left);
    } else {
      var pid := ByteBits(pkt[1]);
      var bits, sync, bad := When(left != 0, BitsLeft), When(pkt[0] != 0x80, BadSync),
        When(pid[4..] != Not(pid[..4]), BadPid);
      var short := DataNibble(pid[..4]) && |pkt| < 4;
      ResponseParts(pkt, left);
      CauseParts(x, pkt, left);
      hide *;
      InWhen(x, left != 0, BitsLeft);
      InWhen(x, pkt[0] != 0x80, BadSync);
      InWhen(x, pid[4..] != Not(pid[..4]), BadPid);
      InWhen(x, short, ShortData);
      InBoth(x, bits, sync);
      InBoth(x, bits + sync, bad);
      InBoth(x, bits + sync + bad, When(short, ShortData));
    }
  }

  lemma ResponseParts(pkt: seq<bv8>, left: nat)
    requires |pkt| >= 2
    ensures var pid := ByteBits(pkt[1]);
      ResponseOf(pkt, left).complaints ==
        When(left != 0, BitsLeft) + When(pkt[0] != 0x80, BadSync) + When(pid[4..] != Not(pid[..4]), BadPid)
        + When(DataNibble(pid[..4]) && |pkt| < 4, ShortData)
  {
    var pid := ByteBits(pkt[1]);
    var all := When(left != 0, BitsLeft) + When(pkt[0] != 0x80, BadSync) + When(pid[4..] != Not(pid[..4]), BadPid);
    assert all + [] == all;
    hide ByteBits, DataNibble;
  }

  lemma CauseParts(x: Complaint, pkt: seq<bv8>, left: nat)
    requires |pkt| >= 2
    ensures var pid := ByteBits(pkt[1]);
      Cause(x, pkt, left) <==>
        || (left != 0 && x == BitsLeft) || (pkt[0] != 0x80 && x == BadSync) || (pid[4..] != Not(pid[..4])
          && x == BadPid)
        || (DataNibble(pid[..4]) && |pkt| < 4 && x == ShortData)
  {
    var pid := ByteBits(pkt[1]);
    HoldsNot(pid);
    MeansNibble(pid, DATA0);
    MeansNibble(pid, DATA1);
    hide ByteBits, Means, PidHolds, Nibble;
  }
}
