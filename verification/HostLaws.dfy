/** Laws of the C host function over runs: the last PID, the frame number, VBUS and recovery. */
module HostLaws {
  import opened BitSeq
  import opened UsbCrc
  import opened LineCode
  import opened Words
  import opened Transfer
  import opened Wires
  import opened HostDriver
  import opened HostModel
  import opened UsbMonitor
  import HostRoundTrip
  import AgentDriver

  // ---- The last PID ------------------------------------------------------------------------------------

  /** A record of PIDs follows what is reported: the last valid one stays. */
  predicate Records(ev: seq<Event>, before: bv8, after: bv8) {
    if |ev| == 1 && ev[0].Pid? && ValidPid(ev[0].pid) then after == ev[0].pid else after == before
  }

  lemma DataRecords(asm: Asm, b: bool)
    requires |asm.bits| == 8
    ensures Records(DataBit(asm, b).1, asm.lastpid, DataBit(asm, b).0.lastpid) && |DataBit(asm, b).1| <= 1
  {
    hide ValidPid, FromBits;
  }

  lemma SampleRecords(m: Mon, s: Sample)
    requires Valid(m)
    ensures Records(MonSample(m, s).1, m.asm.lastpid, MonSample(m, s).0.asm.lastpid) && |MonSample(m, s).1| <= 1
  {
    DataRecords(m.asm, true);
    DataRecords(m.asm, false);
    hide ValidPid, DataBit, SopPattern, EopPattern, Push;
  }

  lemma StepRecords(m: Mon, hdrive: bool, p2d: P2d, d2p: D2p)
    requires Valid(m)
    ensures var r := MonStep(m, hdrive, p2d, d2p); Records(r.1, m.asm.lastpid, r.0.asm.lastpid) && |r.1| <= 1
  {
    SampleRecords(m, SampleWires(p2d, d2p));
    hide MonSample, ValidPid, SampleWires;
  }

  /** The interval, taken apart: behind the monitor's call and VBUS, the device is found detached or recovering, or the
      frame clock and the driver have their turn. */
  lemma Parts(h: Host, i: In) returns (h1: Host)
    requires ValidHost(h) && Proper(i)
    ensures ValidHost(h1)
    ensures var (g, ev) := HostInterval(h, i);
      && h1 == h.(mon := h1.mon, lastrxpid := h1.lastrxpid, tx := h.tx.(driving := h1.tx.driving))
      && h1.tx.driving == h.tx.driving.(sense := h.tx.driving.sense || h.tickBits == SENSE_AT)
      && h1.lastrxpid == PidAfter(ev, h.lastrxpid)
      && (h1.mon, ev) == MonStep(h.mon, Transmitting(h.tx.state), h.tx.driving, i.d2p)
      && g == if !i.d2p.Pullup() then
                h1.(tx := h1.tx.(state := ST_IDLE), recoveryTime := (h.tick + RECOVERY_TICKS) % TWO32)
              else if h.tick < h.recoveryTime then
                h1.(tx := h1.tx.(state := ST_IDLE, driving := SetDriving(h1.tx.driving, i.d2p, J, false)),
                    frameStart := h.tickBits)
              else HostModel.Arm(FrameCheck(h1, i.suspended), i.d2p, i.act)
  {
    var (mon, ev) := MonStep(h.mon, Transmitting(h.tx.state), h.tx.driving, i.d2p);
    assert UsbMonitor.Valid(mon);
    hide MonStep, PidAfter, SetDriving, HostModel.Arm, FrameCheck, UsbMonitor.Valid, Sendable;
    h1 := Sensed(h.(mon := mon, lastrxpid := PidAfter(ev, h.lastrxpid)));
  }

  /** What the frame clock leaves alone. */
  lemma FrameKeeps(h: Host, suspended: bool)
    requires ValidHost(h)
    ensures var g := FrameCheck(h, suspended);
      && g.tick == h.tick && g.tickBits == h.tickBits && g.mon == h.mon && g.lastrxpid == h.lastrxpid
      && g.tx.driving == h.tx.driving
  {
    hide SofDesc, Sub32, Sendable;
  }

  /** And the driver. */
  lemma ArmKeeps(h: Host, d2p: D2p, act: Act)
    requires ValidHost(h) && (act.Begin? ==> Sendable(act.x))
    ensures var g := HostModel.Arm(h, d2p, act);
      && g.tick == h.tick && g.tickBits == h.tickBits && g.mon == h.mon && g.lastrxpid == h.lastrxpid
      && g.frame == h.frame && g.frameStart == h.frameStart && g.tx.driving.sense == h.tx.driving.sense
      && g.framepend == h.framepend
      && (h.tx.state != ST_IDLE ==> g.sending == h.sending)
  {
    SenseStays(h.tx, h.sending, d2p);
    hide TxStep, Sendable;
  }

  lemma SenseStays(t: Tx, x: Desc, d2p: D2p)
    ensures TxStep(t, x, d2p).driving.sense == t.driving.sense
  {
    hide TestBit, SixOnes, Push;
  }

  /** Both records, the host's and its monitor's, follow the same reports. */
  lemma IntervalRecords(h: Host, i: In)
    requires ValidHost(h) && Proper(i)
    ensures var (g, ev) := HostInterval(h, i);
      && |ev| <= 1 && Records(ev, h.lastrxpid, g.lastrxpid) && Records(ev, h.mon.asm.lastpid, g.mon.asm.lastpid)
  {
    hide HostInterval, MonStep, ValidPid, SetDriving, FrameCheck, HostModel.Arm, UsbMonitor.Valid, Sendable;
    StepRecords(h.mon, Transmitting(h.tx.state), h.tx.driving, i.d2p);
    var h1 := Parts(h, i);
    FrameKeeps(h1, i.suspended);
    ArmKeeps(FrameCheck(h1, i.suspended), i.d2p, i.act);
    PidRecords(HostInterval(h, i).1, h.lastrxpid);
  }

  lemma PidRecords(ev: seq<Event>, before: bv8)
    ensures Records(ev, before, PidAfter(ev, before))
  {
    hide ValidPid;
  }

  /** The PID that the streams look at is the monitor's. */
  lemma LastPidFollows(h: Host, i: In)
    requires ValidHost(h) && Proper(i) && h.lastrxpid == h.mon.asm.lastpid
    ensures HostInterval(h, i).0.lastrxpid == HostInterval(h, i).0.mon.asm.lastpid
  {
    IntervalRecords(h, i);
    hide HostInterval, ValidPid;
  }

  lemma {:induction false} LastPidFollowsRun(h: Host, ins: seq<In>)
    requires ValidHost(h) && (forall k :: 0 <= k < |ins| ==> Proper(ins[k])) && h.lastrxpid == h.mon.asm.lastpid
    ensures HostRun(h, ins).0.lastrxpid == HostRun(h, ins).0.mon.asm.lastpid
    decreases |ins|
  {
    if ins != [] {
      LastPidFollows(Later(h), ins[0]);
      hide HostInterval;
      LastPidFollowsRun(HostInterval(Later(h), ins[0]).0, ins[1..]);
    }
  }

  /** The last valid PID reported, or what was there before. */
  function LastReported(ev: seq<Event>, before: bv8): bv8
    decreases |ev|
  {
    if ev == [] then before
    else
      var e := ev[|ev| - 1];
      if e.Pid? && ValidPid(e.pid) then e.pid else LastReported(ev[..|ev| - 1], before)
  }

  lemma {:induction false} ReportedConcat(a: seq<Event>, b: seq<Event>, before: bv8)
    ensures LastReported(a + b, before) == LastReported(b, LastReported(a, before))
    decreases |b|
  {
    if b == [] {
      assert a + b == a;
    } else {
      var n := |b| - 1;
      assert (a + b)[..|a| + n] == a + b[..n] && (a + b)[|a| + n] == b[n];
      ReportedConcat(a, b[..n], before);
    }
  }

  lemma ReportedOne(ev: seq<Event>, before: bv8, after: bv8)
    requires |ev| <= 1 && Records(ev, before, after)
    ensures after == LastReported(ev, before)
  {}

  lemma {:induction false} RunRecords(h: Host, ins: seq<In>)
    requires ValidHost(h) && forall k :: 0 <= k < |ins| ==> Proper(ins[k])
    ensures HostRun(h, ins).0.lastrxpid == LastReported(HostRun(h, ins).1, h.lastrxpid)
    decreases |ins|
  {
    if ins != [] {
      var (g, ev) := HostInterval(Later(h), ins[0]);
      IntervalRecords(Later(h), ins[0]);
      ReportedOne(ev, h.lastrxpid, g.lastrxpid);
      hide HostInterval, LastReported, Records;
      RunRecords(g, ins[1..]);
      ReportedConcat(ev, HostRun(g, ins[1..]).1, h.lastrxpid);
    }
  }

  lemma {:induction false} BytesReportNone(d: seq<bv8>, before: bv8)
    ensures LastReported(ByteEvents(d), before) == before
    decreases |d|
  {
    if d != [] {
      var n := |d| - 1;
      assert ByteEvents(d)[..n] == ByteEvents(d[..n]) && ByteEvents(d)[n] == Byte(d[n]);
      BytesReportNone(d[..n], before);
    }
  }

  lemma PacketReports(bytes: seq<bv8>, before: bv8)
    requires bytes != []
    ensures LastReported(PacketEvents(bytes), before) == if ValidPid(bytes[0]) then bytes[0] else before
  {
    var pid := [Pid(bytes[0])];
    assert PacketEvents(bytes) == [Sync] + (pid + ByteEvents(bytes[1..])) + [Eop];
    assert [Sync][..0] == [] && pid[..0] == [] && [Eop][..0] == [];
    assert LastReported([], before) == before;
    assert LastReported([Sync], before) == before;
    var after := if ValidPid(bytes[0]) then bytes[0] else before;
    assert LastReported(pid, before) == after;
    assert LastReported([Eop], after) == after by {
      assert LastReported([], after) == after;
    }
    BytesReportNone(bytes[1..], after);
    hide LastReported, ValidPid, ByteEvents, PacketEvents;
    ReportedConcat(pid, ByteEvents(bytes[1..]), before);
    ReportedConcat([Sync], pid + ByteEvents(bytes[1..]), before);
    ReportedConcat([Sync] + (pid + ByteEvents(bytes[1..])), [Eop], before);
  }

  /** A packet that the device drives leaves its PID with the host, if that is valid, and nothing otherwise; whatever
      the host is doing. */
  lemma DevicePid(h: Host, ins: seq<In>, bytes: seq<bv8>, flush: bool)
    requires ValidHost(h) && (forall k :: 0 <= k < |ins| ==> Proper(ins[k]))
    requires BetweenPackets(h.mon) && bytes != [] && (Trailing(h.mon.rawbits, 1) || !FiveOnes(bytes[0]))
    requires var w := Packet(BytesBits(bytes), flush);
      |ins| == |w| && forall k :: 0 <= k < |ins| ==> HostRoundTrip.DeviceShows(ins[k].d2p, w[k])
    ensures HostRun(h, ins).0.lastrxpid == if ValidPid(bytes[0]) then bytes[0] else h.lastrxpid
    ensures BetweenPackets(HostRun(h, ins).0.mon) && Trailing(HostRun(h, ins).0.mon.rawbits, 1)
  {
    hide *;
    HostRoundTrip.DeviceHeard(h, ins, Packet(BytesBits(bytes), flush));
    PacketReceived(h.mon, bytes, flush);
    RunRecords(h, ins);
    PacketReports(bytes, h.lastrxpid);
  }

  // ---- The idle bus ------------------------------------------------------------------------------------

  /** When nobody drives, the monitor forgets the line: whatever came before, a packet is only seen to begin behind six
      more driven intervals. */
  lemma IdleForgets(m: Mon, p2d: P2d, d2p: D2p, w: seq<Line>)
    requires Valid(m) && m.asm.state == MS_IDLE && !d2p.Driving() && |w| < 6
    ensures var r := MonStep(m, false, p2d, d2p);
      Valid(r.0) && r.1 == [] && r.0 == m.(line := r.0.line) && MonRun(r.0, w).1 == []
  {
    var m0 := MonStep(m, false, p2d, d2p).0;
    hide Push, RawBit;
    NoSop(m0, w, 0);
  }

  lemma {:induction false} NoSop(m: Mon, w: seq<Line>, k: nat)
    requires Valid(m) && m.asm.state == MS_IDLE && k + |w| < 6 && m.line[k] == SE0S
    ensures MonRun(m, w).1 == []
    decreases |w|
  {
    if w != [] {
      var r := MonSample(m, SampleOf(w[0]));
      assert r.0.line[k + 1] == m.line[k];
      assert !SopPattern(r.0.line);
      NoSop(r.0, w[1..], k + 1);
    }
  }

  // ---- The frame number --------------------------------------------------------------------------------

  /** In this interval a frame begins. */
  predicate Begins(h: Host, i: In)
    requires ValidHost(h)
  {
    i.d2p.Pullup() && h.recoveryTime <= h.tick && h.tx.state == ST_IDLE
    && Sub32(h.tickBits, h.frameStart) >= FRAME_INTERVAL
  }

  /** A frame that begins has the next number, and its SOF carries it; otherwise the number stays. One that is due
      while the driver is busy is pending until it begins. */
  lemma FrameNumber(h: Host, i: In)
    requires ValidHost(h) && Proper(i)
    ensures var g := HostInterval(h, i).0;
      if Begins(h, i) then
        && g.frame == (h.frame + 1) % 0x1_0000 && g.frameStart == h.tickBits
        && (!i.suspended ==> g.sending == SofDesc(g.frame) && Transmitting(g.tx.state))
        && !g.framepend
      else
        && g.frame == h.frame
        && (g.framepend <==> h.framepend || (i.d2p.Pullup() && h.recoveryTime <= h.tick && h.tx.state != ST_IDLE
                                             && Sub32(h.tickBits, h.frameStart) >= FRAME_INTERVAL))
  {
    var h1 := Parts(h, i);
    FrameBegins(h1, i.suspended);
    ArmKeeps(FrameCheck(h1, i.suspended), i.d2p, i.act);
    SyncSends(FrameCheck(h1, i.suspended), i.d2p, i.act);
    hide HostInterval, MonStep, SetDriving, SofDesc, Sub32, FrameCheck, HostModel.Arm, PidAfter, ValidHost;
  }

  lemma FrameBegins(h: Host, suspended: bool)
    requires ValidHost(h)
    ensures var g := FrameCheck(h, suspended);
      if Sub32(h.tickBits, h.frameStart) >= FRAME_INTERVAL && h.tx.state == ST_IDLE then
        && g.frame == (h.frame + 1) % 0x1_0000 && g.frameStart == h.tickBits
        && (!suspended ==> g.sending == SofDesc(g.frame) && g.tx.state == ST_SYNC && g.tx.bit == 1)
        && !g.framepend
      else
        && g.frame == h.frame
        && g.framepend == (h.framepend || Sub32(h.tickBits, h.frameStart) >= FRAME_INTERVAL)
  {
    hide SofDesc, Sub32, Sendable;
  }

  lemma SyncSends(h: Host, d2p: D2p, act: Act)
    requires ValidHost(h) && (act.Begin? ==> Sendable(act.x))
    ensures h.tx.state == ST_SYNC ==> Transmitting(HostModel.Arm(h, d2p, act).tx.state)
  {}

  /** How many frames begin. */
  function Frames(h: Host, ins: seq<In>): nat
    requires ValidHost(h) && forall k :: 0 <= k < |ins| ==> Proper(ins[k])
    decreases |ins|
  {
    if ins == [] then 0
    else (if Begins(Later(h), ins[0]) then 1 else 0) + Frames(HostInterval(Later(h), ins[0]).0, ins[1..])
  }

  function Begun(h: Host, i: In): nat
    requires ValidHost(h)
  {
    if Begins(h, i) then 1 else 0
  }

  lemma OneFrame(h: Host, i: In)
    requires ValidHost(h) && Proper(i)
    ensures ValidHost(Later(h)) && HostInterval(Later(h), i).0.frame == (h.frame + Begun(Later(h), i)) % 0x1_0000
  {
    FrameBound(h);
    assert Begun(Later(h), i) == if Begins(Later(h), i) then 1 else 0;
    hide *;
    FrameNumber(Later(h), i);
  }

  lemma FrameBound(h: Host)
    requires ValidHost(h)
    ensures ValidHost(Later(h)) && Later(h).frame == h.frame && h.frame % 0x1_0000 == h.frame
  {}

  lemma RunNext(h: Host, ins: seq<In>)
    requires ValidHost(h) && ins != [] && forall k :: 0 <= k < |ins| ==> Proper(ins[k])
    ensures ValidHost(Later(h)) && (forall k :: 0 <= k < |ins[1..]| ==> Proper(ins[1..][k]))
    ensures var g := HostInterval(Later(h), ins[0]).0;
      && HostRun(h, ins).0 == HostRun(g, ins[1..]).0 && Frames(h, ins) == Begun(Later(h), ins[0]) + Frames(g, ins[1..])
  {
    hide HostInterval, Begins;
  }

  lemma NoRun(h: Host, ins: seq<In>)
    requires ValidHost(h) && ins == []
    ensures HostRun(h, ins).0 == h && Frames(h, ins) == 0 && h.frame % 0x1_0000 == h.frame
  {}

  lemma {:induction false} FramesCounted(h: Host, ins: seq<In>)
    requires ValidHost(h) && forall k :: 0 <= k < |ins| ==> Proper(ins[k])
    ensures HostRun(h, ins).0.frame == (h.frame + Frames(h, ins)) % 0x1_0000
    decreases |ins|
  {
    hide *;
    if ins == [] {
      NoRun(h, ins);
    } else {
      RunNext(h, ins);
      OneFrame(h, ins[0]);
      var g := HostInterval(Later(h), ins[0]).0;
      FramesCounted(g, ins[1..]);
      Wraps(h.frame, Begun(Later(h), ins[0]), Frames(g, ins[1..]));
    }
  }

  lemma Wraps(a: nat, n: nat, k: nat)
    ensures ((a + n) % 0x1_0000 + k) % 0x1_0000 == (a + (n + k)) % 0x1_0000
  {}

  lemma LowBits(a: nat)
    ensures (a % 0x1_0000) % 2048 == a % 2048
  {}

  lemma FieldOnly(f: nat)
    ensures SofDesc(f) == SofDesc(f % 2048)
  {
    var q, u, v := Split(f);
    Fields(f, q, u, v);
    Fields(f % 2048, 0, u, v);
    hide TokenBytes;
  }

  lemma Split(f: nat) returns (q: nat, u: nat, v: nat)
    ensures f == 2048 * q + f % 2048 && f % 2048 == 128 * u + v && u < 16 && v < 128
  {
    q, u, v := f / 2048, (f % 2048) / 128, (f % 2048) % 128;
  }

  lemma Fields(f: nat, q: nat, u: nat, v: nat)
    requires f == 2048 * q + (128 * u + v) && u < 16 && v < 128
    ensures f % 128 == v && (f / 128) % 16 == u
  {
    Low128(f, 16 * q + u, v);
    Low16(16 * q + u, q, u);
  }

  lemma Low128(x: nat, a: nat, b: nat)
    requires x == 128 * a + b && b < 128
    ensures x % 128 == b && x / 128 == a
  {}

  lemma Low16(x: nat, a: nat, b: nat)
    requires x == 16 * a + b && b < 16
    ensures x % 16 == b
  {}

  /** The SOF of the frame behind number f. */
  lemma NextSof(a: nat, f: nat, g: nat)
    requires f == a % 0x1_0000 && g == (f + 1) % 0x1_0000
    ensures SofDesc(g) == SofDesc((a + 1) % 2048)
  {
    hide SofDesc;
    Wraps(a, 0, 1);
    LowBits(a + 1);
    FieldOnly(a + 1);
    FieldOnly(g);
  }

  /** Over every run: the frame that begins behind n others is announced on the wire by an SOF token with n + 1 more
      than the first number, modulo 2048, in its eleven bits. */
  lemma SofOnWire(h: Host, ins: seq<In>, i: In)
    requires ValidHost(h) && (forall k :: 0 <= k < |ins| ==> Proper(ins[k])) && Proper(i) && !i.suspended
    requires Begins(Later(HostRun(h, ins).0), i)
    ensures var g, n := HostInterval(Later(HostRun(h, ins).0), i).0, h.frame + Frames(h, ins) + 1;
      && Transmitting(g.tx.state)
      && BytesBits(g.sending.bytes) == AgentDriver.ItemBits(
           AgentDriver.Item(AgentDriver.SOF, Fill(false, 7), Fill(false, 4), AgentDriver.FrameBits(n % 2048), []))
  {
    hide *;
    var r, n := HostRun(h, ins).0, h.frame + Frames(h, ins);
    FramesCounted(h, ins);
    OneFrame(r, i);
    SofSent(r, i);
    NextSof(n, r.frame, HostInterval(Later(r), i).0.frame);
    AgentDriver.SameSofBits((n + 1) % 2048);
  }

  lemma SofSent(h: Host, i: In)
    requires ValidHost(h) && Proper(i) && !i.suspended && Begins(Later(h), i)
    ensures ValidHost(Later(h)) && Begun(Later(h), i) == 1
    ensures var g := HostInterval(Later(h), i).0; g.sending == SofDesc(g.frame) && Transmitting(g.tx.state)
  {
    FrameNumber(Later(h), i);
    hide HostInterval, Begins, SofDesc, Transmitting, UsbMonitor.Valid, Sendable;
  }

  // ---- VBUS --------------------------------------------------------------------------------------------

  /** VBUS is applied 160 bit intervals after the start, and stays. */
  lemma SenseRises(h: Host, i: In)
    requires ValidHost(h) && Proper(i)
    ensures HostInterval(h, i).0.tx.driving.sense == (h.tx.driving.sense || h.tickBits == 160)
  {
    var h1 := Parts(h, i);
    FrameKeeps(h1, i.suspended);
    ArmKeeps(FrameCheck(h1, i.suspended), i.d2p, i.act);
    hide HostInterval, MonStep, SetDriving, FrameCheck, HostModel.Arm, PidAfter;
  }

  lemma {:induction false} SenseOverRun(h: Host, ins: seq<In>)
    requires ValidHost(h) && (forall k :: 0 <= k < |ins| ==> Proper(ins[k])) && h.tick % 4 == 0
    requires h.tick + 4 * |ins| < 0x1_0000_0000 && h.tx.driving.sense == (h.tickBits >= 160)
    ensures HostRun(h, ins).0.tx.driving.sense == (h.tickBits + |ins| >= 160)
    decreases |ins|
  {
    if ins == [] {
      NoRun(h, ins);
    } else {
      SenseOnce(h, ins[0]);
      RunNext(h, ins);
      hide *;
      SenseOverRun(HostInterval(Later(h), ins[0]).0, ins[1..]);
    }
  }

  lemma SenseOnce(h: Host, i: In)
    requires ValidHost(h) && Proper(i) && h.tick % 4 == 0 && h.tick + 4 < 0x1_0000_0000
    requires h.tx.driving.sense == (h.tickBits >= 160)
    ensures ValidHost(Later(h))
    ensures var g := HostInterval(Later(h), i).0;
      g.tick == h.tick + 4 && g.tickBits == h.tickBits + 1 && g.tx.driving.sense == (g.tickBits >= 160)
  {
    SenseRises(Later(h), i);
    TickMoves(Later(h), i);
    hide HostInterval, Sub32, UsbMonitor.Valid, Sendable, Transmitting;
  }

  lemma TickMoves(h: Host, i: In)
    requires ValidHost(h) && Proper(i)
    ensures HostInterval(h, i).0.tick == h.tick
  {
    var h1 := Parts(h, i);
    FrameKeeps(h1, i.suspended);
    ArmKeeps(FrameCheck(h1, i.suspended), i.d2p, i.act);
    hide HostInterval, MonStep, SetDriving, FrameCheck, HostModel.Arm, PidAfter;
  }

  // ---- Recovery ----------------------------------------------------------------------------------------

  /** The host leaves the bus alone. */
  predicate LeavesAlone(h: Host) { h.tx.state == ST_IDLE && !h.tx.driving.oe }

  /** A device that is not attached, or has been for less than 48 bit intervals, is not talked to. */
  lemma DetachedOrNew(h: Host, i: In)
    requires ValidHost(h) && Proper(i)
    ensures var g := HostInterval(h, i).0;
      && (!i.d2p.Pullup() && h.tick + 192 < 0x1_0000_0000 ==>
            g.tx.state == ST_IDLE && g.recoveryTime == h.tick + 4 * 48)
      && (i.d2p.Pullup() && h.tick < h.recoveryTime ==>
            LeavesAlone(g) && Shows(g.tx.driving, i.d2p.dnpu, J) && g.recoveryTime == h.recoveryTime
            && g.frameStart == h.tickBits)
  {
    var h1 := Parts(h, i);
    hide HostInterval, MonStep, FrameCheck, HostModel.Arm, PidAfter;
  }

  /** So a device that has just been attached is left alone until 48 bit intervals after the last one in which it was
      not: no SOF, nothing of the streams, and the first frame is counted from there. */
  lemma {:induction false} Recovers(h: Host, ins: seq<In>)
    requires ValidHost(h) && ins != [] && forall k :: 0 <= k < |ins| ==> Proper(ins[k]) && ins[k].d2p.Pullup()
    requires h.tick + 4 * |ins| < h.recoveryTime && h.tick % 4 == 0
    ensures var g := HostRun(h, ins).0;
      LeavesAlone(g) && g.frameStart == g.tickBits == h.tickBits + |ins| && Frames(h, ins) == 0
    decreases |ins|
  {
    RecoversOnce(h, ins[0]);
    RunNext(h, ins);
    var g := HostInterval(Later(h), ins[0]).0;
    if |ins| > 1 {
      hide *;
      Recovers(g, ins[1..]);
    } else {
      hide *;
      NoRun(g, ins[1..]);
    }
  }

  lemma RecoversOnce(h: Host, i: In)
    requires ValidHost(h) && Proper(i) && i.d2p.Pullup() && h.tick + 4 < h.recoveryTime && h.tick % 4 == 0
    ensures ValidHost(Later(h)) && Begun(Later(h), i) == 0
    ensures var g := HostInterval(Later(h), i).0;
      && LeavesAlone(g) && g.recoveryTime == h.recoveryTime && g.tick == h.tick + 4
      && g.frameStart == g.tickBits == h.tickBits + 1
  {
    LaterBegins(h, i);
    hide HostInterval, Begins, Sub32, UsbMonitor.Valid, Sendable, Transmitting, Shows, ValidHost, Later, Begun;
    DetachedOrNew(Later(h), i);
    TickMoves(Later(h), i);
    TickBits(HostInterval(Later(h), i).0, h.tick + 4);
  }

  lemma TickBits(g: Host, tick: nat)
    requires ValidHost(g) && g.tick == tick
    ensures g.tickBits == tick / 4
  {}

  lemma LaterBegins(h: Host, i: In)
    requires ValidHost(h) && i.d2p.Pullup() && h.tick + 4 < h.recoveryTime && h.tick % 4 == 0
    ensures ValidHost(Later(h)) && Begun(Later(h), i) == 0 && Later(h).tick == h.tick + 4
      && Later(h).tickBits == h.tickBits + 1 && Later(h).recoveryTime == h.recoveryTime
      && h.tickBits == h.tick / 4 && (h.tick + 4) / 4 == h.tick / 4 + 1
  {
    hide Sub32, UsbMonitor.Valid, Sendable, Transmitting;
  }
}
