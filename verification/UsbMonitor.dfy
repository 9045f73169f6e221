/** The receiver of the C model, usb_monitor: SYNC and EOP detection, NRZI decoding, unstuffing and
    byte assembly, one call per bit interval. */
module UsbMonitor {
  import opened BitSeq
  import opened UsbCrc
  import opened Words
  import opened LineCode
  import opened Transfer
  import opened Wires

  datatype MonState = MS_IDLE | MS_GET_PID | MS_GET_BYTES

  /** The calls of the data callback. */
  datatype Event = Sync | Pid(pid: bv8) | Byte(d: bv8) | Eop

  /** Byte assembly: `bits` is an 8-bit shift register, newest bit last. */
  datatype Asm = Asm(state: MonState, bits: Bits, needbits: int, lastpid: bv8)

  /** `line` holds the last sixteen samples and `rawbits` the last 32 raw bits, newest first. */
  datatype Mon = Mon(line: seq<Sample>, rawbits: Uint32, asm: Asm)

  predicate Valid(m: Mon) { |m.line| == 16 && |m.asm.bits| == 8 }

  function Zero(): (r: seq<Sample>)
    ensures |r| == 16
  {
    seq(16, _ => Sample(false, false))
  }

  function Init(): (m: Mon)
    ensures Valid(m)
  {
    Mon(Zero(), Fill(false, 32), Asm(MS_IDLE, Fill(false, 8), 0, 0))
  }

  // ---- Sampling the wires --------------------------------------------------------------------

  /** The line as the monitor reads it: swapped back when the pull-up is on D-. */
  function SampleWires(p2d: P2d, d2p: D2p): Sample {
    var s :=
      if d2p.Driving() then
        if d2p.txUseDSe0 then
          if d2p.se0 || !d2p.dEn then Sample(false, false) else Sample(d2p.d, !d2p.d)
        else Sample(d2p.dpEn && d2p.dp, d2p.dnEn && d2p.dn)
      else if d2p.rxEnable then
        if p2d.dp || p2d.dn then Sample(p2d.d, !p2d.d) else Sample(false, false)
      else Sample(p2d.dp, p2d.dn);
    if d2p.dnpu then Sample(s.dn, s.dp) else s
  }

  // ---- One bit interval ----------------------------------------------------------------------

  const SE0S: Sample := Sample(false, false)
  const JS: Sample := Sample(true, false)
  const KS: Sample := Sample(false, true)

  predicate SopPattern(line: seq<Sample>)
    requires |line| == 16
  {
    line[0] == KS && line[1] == KS && line[2] == JS && line[3] == KS && line[4] == JS && line[5] == KS
  }

  predicate EopPattern(line: seq<Sample>)
    requires |line| == 16
  {
    line[0] == JS && line[1] == SE0S && line[2] == SE0S
  }

  function Shift(line: seq<Sample>, s: Sample): (r: seq<Sample>)
    requires |line| == 16
    ensures |r| == 16 && r[0] == s && forall i :: 1 <= i < 16 ==> r[i] == line[i - 1]
  {
    seq(16, i requires 0 <= i < 16 => if i == 0 then s else line[i - 1])
  }

  function MonStep(m: Mon, hdrive: bool, p2d: P2d, d2p: D2p): (Mon, seq<Event>)
    requires Valid(m)
  {
    if d2p.Driving() || hdrive then MonSample(m, SampleWires(p2d, d2p))
    else (m.(line := Zero()), [])
  }

  function MonSample(m: Mon, s: Sample): (r: (Mon, seq<Event>))
    requires Valid(m)
    ensures Valid(r.0)
  {
    var line := Shift(m.line, s);
    if m.asm.state == MS_IDLE then
      if SopPattern(line) then (Mon(line, m.rawbits, m.asm.(state := MS_GET_PID, needbits := 8)), [Sync])
      else (m.(line := line), [])
    else if EopPattern(line) then (Mon(line, m.rawbits, m.asm.(state := MS_IDLE)), [Eop])
    else
      var newbit := line[1] == line[0];
      var (raw, asm, ev) := RawBit(m.rawbits, m.asm, newbit);
      (Mon(line, raw, asm), ev)
  }

  /** One NRZI-decoded bit: dropped after six ones. */
  function RawBit(rawbits: Uint32, asm: Asm, newbit: bool): (r: (Uint32, Asm, seq<Event>))
    requires |asm.bits| == 8
    ensures |r.1.bits| == 8 && (asm.state != MS_IDLE ==> r.1.state != MS_IDLE)
  {
    var raw := Push(rawbits, newbit);
    if raw[1] && raw[2] && raw[3] && raw[4] && raw[5] && raw[6] then (raw, asm, [])
    else
      var (a, ev) := DataBit(asm, newbit);
      (raw, a, ev)
  }

  /** One data bit into the byte being assembled. */
  function DataBit(asm: Asm, newbit: bool): (r: (Asm, seq<Event>))
    requires |asm.bits| == 8
    ensures |r.0.bits| == 8 && (asm.state != MS_IDLE ==> r.0.state != MS_IDLE)
  {
    var a := asm.(bits := asm.bits[1..] + [newbit], needbits := asm.needbits - 1);
    if a.needbits != 0 then (a, [])
    else
      var d := FromBits(a.bits);
      match a.state
      case MS_GET_PID =>
        (a.(state := MS_GET_BYTES, needbits := 8, lastpid := if ValidPid(d) then d else a.lastpid), [Pid(d)])
      case MS_GET_BYTES => (a.(needbits := 8), [Byte(d)])
      case MS_IDLE => (a, [])
  }

  // ---- Runs ------------------------------------------------------------------------------------

  function MonRun(m: Mon, line: seq<Line>): (r: (Mon, seq<Event>))
    requires Valid(m)
    ensures Valid(r.0)
    decreases |line|
  {
    if line == [] then (m, [])
    else
      var (m1, e1) := MonSample(m, SampleOf(line[0]));
      var (m2, e2) := MonRun(m1, line[1..]);
      (m2, e1 + e2)
  }

  function RawRun(rawbits: Uint32, asm: Asm, w: seq<bool>): (r: (Uint32, Asm, seq<Event>))
    requires |asm.bits| == 8
    ensures |r.1.bits| == 8
    decreases |w|
  {
    if w == [] then (rawbits, asm, [])
    else
      var (r1, a1, e1) := RawBit(rawbits, asm, w[0]);
      var (r2, a2, e2) := RawRun(r1, a1, w[1..]);
      (r2, a2, e1 + e2)
  }

  function DataRun(asm: Asm, bits: seq<bool>): (r: (Asm, seq<Event>))
    requires |asm.bits| == 8
    ensures |r.0.bits| == 8
    decreases |bits|
  {
    if bits == [] then (asm, [])
    else
      var (a1, e1) := DataBit(asm, bits[0]);
      var (a2, e2) := DataRun(a1, bits[1..]);
      (a2, e1 + e2)
  }

  lemma {:induction false} MonRunConcat(m: Mon, a: seq<Line>, b: seq<Line>)
    requires Valid(m)
    ensures var (m1, e1) := MonRun(m, a);
            var (m2, e2) := MonRun(m1, b);
            MonRun(m, a + b).0 == m2 && MonRun(m, a + b).1 == e1 + e2
    decreases |a|
  {
    hide MonSample;
    if a == [] {
      assert a + b == b;
    } else {
      var (m1, e1) := MonSample(m, SampleOf(a[0]));
      MonRunConcat(m1, a[1..], b);
      assert (a + b)[0] == a[0] && (a + b)[1..] == a[1..] + b;
      var (m2, e2) := MonRun(m1, a[1..]);
      assert e1 + (e2 + MonRun(m2, b).1) == (e1 + e2) + MonRun(m2, b).1;
    }
  }

  lemma {:induction false} DataRunConcat(asm: Asm, a: seq<bool>, b: seq<bool>)
    requires |asm.bits| == 8
    ensures var (a1, e1) := DataRun(asm, a);
            var (a2, e2) := DataRun(a1, b);
            DataRun(asm, a + b).0 == a2 && DataRun(asm, a + b).1 == e1 + e2
    decreases |a|
  {
    if a == [] {
      assert a + b == b;
    } else {
      var (a1, e1) := DataBit(asm, a[0]);
      DataRunConcat(a1, a[1..], b);
      assert (a + b)[0] == a[0] && (a + b)[1..] == a[1..] + b;
      var (a2, e2) := DataRun(a1, a[1..]);
      assert e1 + (e2 + DataRun(a2, b).1) == (e1 + e2) + DataRun(a2, b).1;
    }
  }

  // ---- Layer 1: NRZI -----------------------------------------------------------------------------

  /** Inside a packet the monitor recovers the raw bits from the line. */
  lemma {:induction false} MonDecodesNrzi(m: Mon, l: Line, w: seq<bool>)
    requires Valid(m) && l != SE0 && m.line[0] == SampleOf(l) && m.asm.state != MS_IDLE
    ensures var r := MonRun(m, Nrzi(l, w));
            && r.0.line[0] == SampleOf(NrziEnd(l, w))
            && var q := RawRun(m.rawbits, m.asm, w);
            && r.0.rawbits == q.0 && r.0.asm == q.1 && r.1 == q.2
    decreases |w|
  {
    if w != [] {
      var n := if w[0] then l else Flip(l);
      var (m1, e1) := MonSample(m, SampleOf(n));
      assert (m1.rawbits, m1.asm, e1) == RawBit(m.rawbits, m.asm, w[0]);
      MonDecodesNrzi(m1, n, w[1..]);
    }
  }

  // ---- Layer 2: bit stuffing -----------------------------------------------------------------------

  /** A zero comes before six ones are counted: from there on a receiver that counted fewer ones
      than the sender agrees with it. */
  predicate Settles(bits: seq<bool>, ones: nat)
    decreases |bits|
  {
    bits != [] && (bits[0] ==> ones < 5 && Settles(bits[1..], ones + 1))
  }

  /** The monitor recovers the data bits from the raw bits when its count of ones is the sender's, or
      is behind but settles. */
  lemma {:induction false} RawUnstuffs(rawbits: Uint32, asm: Asm, bits: seq<bool>, sent: nat,
    seen: nat) returns (ones: nat)
    requires |asm.bits| == 8 && sent <= 6 && Trailing(rawbits, seen)
    requires seen == sent || (seen < sent < 6 && Settles(bits, sent))
    ensures var r := RawRun(rawbits, asm, Stuff(bits, sent));
            && r.1 == DataRun(asm, bits).0 && r.2 == DataRun(asm, bits).1
            && Trailing(r.0, ones)
    ensures ones == OnesAfter(bits, sent)
    decreases |bits|, sent
  {
    StuffNext(bits, sent);
    if bits == [] {
      ones := seen;
    } else if sent == 6 {
      TrailingPush(rawbits, 6, false);
      var raw := Push(rawbits, false);
      assert RawBit(rawbits, asm, false) == (raw, asm, []);
      ones := RawUnstuffs(raw, asm, bits, 0, 0);
      RawRunCons(rawbits, asm, false, Stuff(bits, 0));
    } else {
      var b := bits[0];
      TrailingPush(rawbits, seen, b);
      var raw := Push(rawbits, b);
      var (a, e) := DataBit(asm, b);
      assert RawBit(rawbits, asm, b) == (raw, a, e);
      var o := if b then sent + 1 else 0;
      ones := RawUnstuffs(raw, a, bits[1..], o, if b then seen + 1 else 0);
      RawRunCons(rawbits, asm, b, Stuff(bits[1..], o));
    }
  }

  lemma RawRunCons(rawbits: Uint32, asm: Asm, b: bool, w: seq<bool>)
    requires |asm.bits| == 8
    ensures var (r1, a1, e1) := RawBit(rawbits, asm, b);
            var (r2, a2, e2) := RawRun(r1, a1, w);
            var r := RawRun(rawbits, asm, [b] + w);
            r.0 == r2 && r.1 == a2 && r.2 == e1 + e2
  {
    assert ([b] + w)[1..] == w;
  }

  // ---- Layer 3: bytes --------------------------------------------------------------------------------

  lemma {:induction false} PartialByte(asm: Asm, s: seq<bool>)
    requires |asm.bits| == 8 && |s| < asm.needbits <= 8
    ensures DataRun(asm, s).0 == asm.(bits := asm.bits[|s|..] + s, needbits := asm.needbits - |s|)
    ensures DataRun(asm, s).1 == []
    decreases |s|
  {
    if s == [] {
      assert asm.bits[0..] + s == asm.bits;
    } else {
      var a := DataBit(asm, s[0]).0;
      PartialByte(a, s[1..]);
      assert a.bits[|s| - 1..] + s[1..] == asm.bits[|s|..] + s;
    }
  }

  /** The eighth bit completes the byte. */
  lemma OneByte(asm: Asm, d: bv8)
    requires |asm.bits| == 8 && asm.needbits == 8
    ensures DataRun(asm, ByteBits(d)).0 == Completed(asm, d).0 && DataRun(asm, ByteBits(d)).1 == Completed(asm, d).1
  {
    var s := ByteBits(d);
    PartialByte(asm, s[..7]);
    var a := DataRun(asm, s[..7]).0;
    assert a.bits[1..] + [s[7]] == s;
    SameBits(FromBits(s), d);
    assert s == s[..7] + [s[7]];
    DataRunConcat(asm, s[..7], [s[7]]);
    assert DataRun(a, [s[7]]).1 == DataBit(a, s[7]).1;
  }

  function Completed(asm: Asm, d: bv8): (Asm, seq<Event>)
  {
    match asm.state
    case MS_GET_PID =>
      (Asm(MS_GET_BYTES, ByteBits(d), 8, if ValidPid(d) then d else asm.lastpid), [Pid(d)])
    case MS_GET_BYTES => (Asm(MS_GET_BYTES, ByteBits(d), 8, asm.lastpid), [Byte(d)])
    case MS_IDLE => (asm.(bits := ByteBits(d), needbits := 0), [])
  }

  function ByteEvents(d: seq<bv8>): (r: seq<Event>)
    ensures |r| == |d|
  {
    seq(|d|, i requires 0 <= i < |d| => Byte(d[i]))
  }

  lemma {:induction false} ManyBytes(asm: Asm, d: seq<bv8>) returns (a: Asm)
    requires |asm.bits| == 8 && asm.needbits == 8 && asm.state == MS_GET_BYTES
    ensures DataRun(asm, BytesBits(d)).0 == a && DataRun(asm, BytesBits(d)).1 == ByteEvents(d)
    ensures |a.bits| == 8 && a.needbits == 8 && a.state == MS_GET_BYTES && a.lastpid == asm.lastpid
    decreases |d|
  {
    if d == [] {
      a := asm;
    } else {
      OneByte(asm, d[0]);
      DataRunConcat(asm, ByteBits(d[0]), BytesBits(d[1..]));
      a := ManyBytes(Completed(asm, d[0]).0, d[1..]);
      assert [Byte(d[0])] + ByteEvents(d[1..]) == ByteEvents(d);
    }
  }

  // ---- Packets -----------------------------------------------------------------------------------------

  /** The callbacks a packet of these bytes has to cause. */
  function PacketEvents(bytes: seq<bv8>): seq<Event> {
    [Sync] + Received(bytes) + [Eop]
  }

  function Received(bytes: seq<bv8>): seq<Event> {
    if bytes == [] then [] else [Pid(bytes[0])] + ByteEvents(bytes[1..])
  }

  function LastPid(bytes: seq<bv8>, before: bv8): bv8 {
    if bytes != [] && ValidPid(bytes[0]) then bytes[0] else before
  }

  /** Between packets: the last line state was no K, and the raw-bit history, which SYNC does not
      reset, ends in exactly one one (it stands for the K K of the next SYNC) or, in a monitor that
      has seen no packet yet, in none. */
  predicate BetweenPackets(m: Mon) {
    Valid(m) && m.asm.state == MS_IDLE && m.line[0] != KS && (Trailing(m.rawbits, 1) || Trailing(m.rawbits, 0))
  }

  /** The five bits that go first are ones. */
  predicate FiveOnes(d: bv8) { d & 0x1F == 0x1F }

  lemma FiveOnesBits(d: bv8)
    ensures FiveOnes(d) <==> forall i :: 0 <= i < 5 ==> Bit(d, i)
  {
    assert FiveOnes(d) <==> Bit(d, 0) && Bit(d, 1) && Bit(d, 2) && Bit(d, 3) && Bit(d, 4);
  }

  lemma ValidPidBreaks(d: bv8)
    requires ValidPid(d)
    ensures !FiveOnes(d)
  {}

  lemma NoRunSettles(bytes: seq<bv8>)
    requires bytes != [] && !FiveOnes(bytes[0])
    ensures Settles(BytesBits(bytes), 1)
  {
    var s, d := BytesBits(bytes), bytes[0];
    FiveOnesBits(d);
    assert s == ByteBits(d) + BytesBits(bytes[1..]);
    var k :| 0 <= k < 5 && !Bit(d, k);
    assert s[k] == Bit(d, k);
    SettlesAt(s, 1, k);
  }

  lemma {:induction false} SettlesAt(bits: seq<bool>, ones: nat, k: nat)
    requires k < |bits| && !bits[k] && k + ones <= 5
    ensures Settles(bits, ones)
    decreases k
  {
    if bits[0] {
      SettlesAt(bits[1..], ones + 1, k - 1);
    }
  }

  /** Idle intervals only shift the line history as long as no K repeats. */
  lemma QuietKJ(m: Mon)
    requires Valid(m) && m.asm.state == MS_IDLE && m.line[0] != KS
    ensures MonRun(m, [K, J]).0 == m.(line := Shift(Shift(m.line, KS), JS)) && MonRun(m, [K, J]).1 == []
  {
    var m1 := m.(line := Shift(m.line, KS));
    var m2 := m.(line := Shift(Shift(m.line, KS), JS));
    assert MonSample(m, KS) == (m1, []);
    assert MonSample(m1, JS) == (m2, []);
    hide MonSample;
    assert [K, J][1..] == [J] && [J][1..] == [];
    assert MonRun(m1, [J]).0 == m2 && MonRun(m1, [J]).1 == [];
  }

  lemma ClosingKK(m: Mon)
    requires Valid(m) && m.asm.state == MS_IDLE
    requires m.line[0] == JS && m.line[1] == KS && m.line[2] == JS && m.line[3] == KS
    ensures MonRun(m, [K, K]).0 == Mon(Shift(Shift(m.line, KS), KS), m.rawbits, m.asm.(state := MS_GET_PID,
      needbits := 8))
    ensures MonRun(m, [K, K]).1 == [Sync]
  {
    var m1 := m.(line := Shift(m.line, KS));
    var m2 := Mon(Shift(Shift(m.line, KS), KS), m.rawbits, m.asm.(state := MS_GET_PID, needbits := 8));
    assert MonSample(m, KS) == (m1, []);
    assert MonSample(m1, KS) == (m2, [Sync]);
    hide MonSample;
    assert [K, K][1..] == [K] && [K][1..] == [];
    assert MonRun(m1, [K]).0 == m2 && MonRun(m1, [K]).1 == [Sync];
  }

  lemma SyncSplit()
    ensures SYNC == [K, J] + ([K, J] + ([K, J] + [K, K]))
  {}

  lemma SyncDetected(m: Mon)
    requires Valid(m) && m.asm.state == MS_IDLE && m.line[0] != KS
    ensures var r := MonRun(m, SYNC);
            && r.1 == [Sync] && r.0.line[0] == KS && r.0.rawbits == m.rawbits
            && r.0.asm == m.asm.(state := MS_GET_PID, needbits := 8)
  {
    QuietKJ(m);
    var m1 := MonRun(m, [K, J]).0;
    QuietKJ(m1);
    var m2 := MonRun(m1, [K, J]).0;
    QuietKJ(m2);
    var m3 := MonRun(m2, [K, J]).0;
    ClosingKK(m3);
    hide *;
    SyncSplit();
    MonRunConcat(m, [K, J], [K, J] + ([K, J] + [K, K]));
    MonRunConcat(m1, [K, J], [K, J] + [K, K]);
    MonRunConcat(m2, [K, J], [K, K]);
  }

  /** After the data, with up to five bits of an unfinished byte, the two SE0 states add at most two stray bits. */
  lemma EopDetected(m: Mon, ones: nat)
    requires Valid(m) && m.asm.state != MS_IDLE && m.asm.needbits >= 3 && (m.line[0] == JS || m.line[0] == KS)
    requires Trailing(m.rawbits, ones)
    ensures var r := MonRun(m, EOP);
            r.1 == [Eop] && BetweenPackets(r.0) && r.0.line[0] == JS && Trailing(r.0.rawbits, 1)
            && r.0.asm.lastpid == m.asm.lastpid
  {
    var (m1, e1) := MonSample(m, SE0S);
    assert m1.rawbits == Push(m.rawbits, false) && m1.asm.needbits >= 2 && m1.asm.state != MS_IDLE && e1 == [];
    assert m1.line[0] == SE0S && m1.asm.lastpid == m.asm.lastpid;
    assert Trailing(m1.rawbits, 0);
    var (m2, e2) := MonSample(m1, SE0S);
    assert m2.rawbits == Push(m1.rawbits, true) && m2.asm.needbits >= 1 && m2.asm.state != MS_IDLE && e2 == [];
    assert m2.line[0] == SE0S && m2.line[1] == SE0S && m2.asm.lastpid == m.asm.lastpid;
    TrailingPush(m1.rawbits, 0, true);
    var (m3, e3) := MonSample(m2, JS);
    assert e3 == [Eop] && m3.rawbits == m2.rawbits && m3.asm == m2.asm.(state := MS_IDLE) && m3.line[0] == JS;
    hide MonSample;
    assert EOP[1..] == [SE0, J] && [SE0, J][1..] == [J] && [J][1..] == [];
    assert MonRun(m2, [J]).0 == m3 && MonRun(m2, [J]).1 == [Eop];
    assert MonRun(m1, [SE0, J]).0 == m3 && MonRun(m1, [SE0, J]).1 == [Eop];
  }

  /** The data part of a packet, whether or not the stuff bit owed at its end is sent. */
  lemma BodyReceived(m: Mon, bytes: seq<bv8>, flush: bool) returns (ones: nat)
    requires Valid(m) && m.asm.state == MS_GET_PID && m.asm.needbits == 8 && m.line[0] == KS
    requires Trailing(m.rawbits, 1) || (Trailing(m.rawbits, 0) && (bytes == [] || Settles(BytesBits(bytes), 1)))
    ensures var r := MonRun(m, Nrzi(K, if flush then Stuffed(BytesBits(bytes), 1) else Stuff(BytesBits(bytes), 1)));
            && r.1 == Received(bytes) && Valid(r.0) && r.0.asm.state != MS_IDLE && r.0.asm.needbits == 8
            && (r.0.line[0] == JS || r.0.line[0] == KS) && Trailing(r.0.rawbits, ones)
            && r.0.asm.lastpid == LastPid(bytes, m.asm.lastpid)
  {
    var bits := BytesBits(bytes);
    var w := if flush then Stuffed(bits, 1) else Stuff(bits, 1);
    MonDecodesNrzi(m, K, w);
    NrziEndIsLevel(K, w);
    ones := StuffedReceived(m.rawbits, m.asm, bits, flush);
    AllBytes(m.asm, bytes);
  }

  lemma {:induction false} NrziEndIsLevel(l: Line, w: seq<bool>)
    requires l != SE0
    ensures NrziEnd(l, w) != SE0
  {}

  lemma StuffedReceived(rawbits: Uint32, asm: Asm, bits: seq<bool>, flush: bool) returns (ones: nat)
    requires |asm.bits| == 8
    requires Trailing(rawbits, 1) || (Trailing(rawbits, 0) && (bits == [] || Settles(bits, 1)))
    ensures var r := RawRun(rawbits, asm, if flush then Stuffed(bits, 1) else Stuff(bits, 1));
            && r.1 == DataRun(asm, bits).0 && r.2 == DataRun(asm, bits).1 && Trailing(r.0, ones)
  {
    if bits == [] {
      ones := if Trailing(rawbits, 1) then 1 else 0;
    } else {
      ones := RawUnstuffs(rawbits, asm, bits, 1, if Trailing(rawbits, 1) then 1 else 0);
      var w := Stuff(bits, 1);
      assert Stuffed(bits, 1) == if ones == 6 then w + [false] else w;
      if flush && ones == 6 {
        RawFlush(rawbits, asm, w);
        ones := 0;
      }
    }
  }

  /** A stuff bit after the last data bit is dropped like any other. */
  lemma {:induction false} RawFlush(rawbits: Uint32, asm: Asm, w: seq<bool>)
    requires |asm.bits| == 8 && Trailing(RawRun(rawbits, asm, w).0, 6)
    ensures var r, q := RawRun(rawbits, asm, w), RawRun(rawbits, asm, w + [false]);
            q.1 == r.1 && q.2 == r.2 && Trailing(q.0, 0)
    decreases |w|
  {
    if w == [] {
      assert w + [false] == [false] && [false][1..] == [];
      TrailingPush(rawbits, 6, false);
    } else {
      var (r1, a1, e1) := RawBit(rawbits, asm, w[0]);
      RawFlush(r1, a1, w[1..]);
      assert (w + [false])[1..] == w[1..] + [false];
    }
  }

  lemma AllBytes(asm: Asm, bytes: seq<bv8>)
    requires |asm.bits| == 8 && asm.state == MS_GET_PID && asm.needbits == 8
    ensures var r := DataRun(asm, BytesBits(bytes));
            && r.1 == Received(bytes) && r.0.state != MS_IDLE && r.0.needbits == 8
            && r.0.lastpid == LastPid(bytes, asm.lastpid)
  {
    if bytes != [] {
      OneByte(asm, bytes[0]);
      var a := ManyBytes(Completed(asm, bytes[0]).0, bytes[1..]);
      DataRunConcat(asm, ByteBits(bytes[0]), BytesBits(bytes[1..]));
    }
  }

  /** A whole packet causes exactly the callbacks it should and leaves the monitor between packets; the first one
      if it does not begin with five ones. */
  lemma PacketReceived(m: Mon, bytes: seq<bv8>, flush: bool)
    requires BetweenPackets(m) && (bytes != [] ==> Trailing(m.rawbits, 1) || !FiveOnes(bytes[0]))
    ensures var r := MonRun(m, Packet(BytesBits(bytes), flush));
            && r.1 == PacketEvents(bytes) && BetweenPackets(r.0) && r.0.line[0] == JS && Trailing(r.0.rawbits, 1)
            && r.0.asm.lastpid == LastPid(bytes, m.asm.lastpid)
  {
    var bits := BytesBits(bytes);
    var body := Nrzi(K, if flush then Stuffed(bits, 1) else Stuff(bits, 1));
    SyncDetected(m);
    var m1 := MonRun(m, SYNC).0;
    if bytes != [] && !FiveOnes(bytes[0]) {
      NoRunSettles(bytes);
    }
    var ones := BodyReceived(m1, bytes, flush);
    var m2 := MonRun(m1, body).0;
    EopDetected(m2, ones);
    hide MonRun, SYNC, EOP;
    MonRunConcat(m, SYNC + body, EOP);
    MonRunConcat(m, SYNC, body);
  }
}
