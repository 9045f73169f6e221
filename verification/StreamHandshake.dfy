/** Handshakes of the whole system: what the device drives reaches the streams as a PID and a bus state, and what they
    make of it, from the wires to the wires. */
module StreamHandshake {
  import opened BitSeq
  import opened LineCode
  import opened Transfer
  import opened Wires
  import opened Streams
  import opened StreamPackets
  import opened StreamMoves
  import opened StreamRuns
  import opened StreamAnswers
  import opened HostModel
  import opened StreamSystem
  import opened Seqs
  import HostDriver
  import HostRoundTrip
  import HostLaws
  import Reception
  import UsbMonitor

  // ---- The device drives -------------------------------------------------------------------------------

  /** The driver listens, or is about to: it is not sending, and the device's wires change. */
  predicate Listens(s: Sys, i: Input)
    requires ValidHost(s.h)
  {
    s.h.tx.state == HostDriver.ST_GET || (s.h.tx.state == HostDriver.ST_IDLE && i.d2p != s.wires)
  }

  lemma PinsShown(d: D2p, l: Line)
    requires HostRoundTrip.DeviceShows(d, l)
    ensures DevicePins(d) == SampleOf(l) && (DevicePins(d) == Sample(false, false) <==> l == SE0)
  {}

  lemma PinsIdle(d: D2p)
    requires d.Pullup() && !d.Driving()
    ensures DevicePins(d) == Sample(true, false)
  {}

  lemma ReachedGet(s: Sys, i: Input)
    requires Coupled(s) && Plausible(i) && i.d2p.Driving() && Listens(s, i) && HostRoundTrip.Awake(s.h, 1)
    ensures var h := Reached(s, i);
      h == Later(s.h).(tx := s.h.tx.(state := HostDriver.ST_GET)) && !Recovering(h)
  {}

  /** The host function in such an interval. */
  lemma GetInterval(h: Host, d2p: D2p)
    requires ValidHost(h) && h.tx.state == HostDriver.ST_GET && d2p.Pullup() && !Recovering(h)
    ensures var (g, ev), m := HostInterval(h, In(d2p, Quiet, false)),
      UsbMonitor.MonStep(h.mon, false, h.tx.driving, d2p);
      && g.tx.state == HostDriver.ST_GET && g.mon == m.0 && ev == m.1 && g.tick == h.tick
      && g.recoveryTime == h.recoveryTime && g.frameStart == h.frameStart
  {
    hide HostInterval, UsbMonitor.MonStep, FrameCheck, Arm, PidAfter, HostDriver.SetDriving, Sub32, UsbMonitor.Valid,
      Sendable;
    var i := In(d2p, Quiet, false);
    var h1 := HostLaws.Parts(h, i);
    HostLaws.FrameKeeps(h1, false);
    GetStays(h1, d2p);
    HostLaws.ArmKeeps(FrameCheck(h1, false), d2p, Quiet);
    hide ValidHost;
  }

  lemma GetStays(h: Host, d2p: D2p)
    requires ValidHost(h) && h.tx.state == HostDriver.ST_GET
    ensures var g := Arm(FrameCheck(h, false), d2p, Quiet);
      g.tx.state == HostDriver.ST_GET && g.recoveryTime == h.recoveryTime && g.frameStart == h.frameStart
  {
    StaysOff(h.tx, h.sending, d2p);
    hide Sub32, SofDesc, Sendable, HostDriver.TxStep, UsbMonitor.Valid;
  }

  /** While the driver is not idle, the streams only listen. */
  lemma NotServed(s: Sys, i: Input, h: Host)
    requires Coupled(s) && Plausible(i) && h == Reached(s, i) && !Recovering(h) && h.tx.state == HostDriver.ST_GET
    ensures Interval(s, i).Going? && Coupled(Interval(s, i).s) && Interval(s, i).s.wires == i.d2p
    ensures var (g, ev) := HostInterval(h, In(i.d2p, Quiet, false));
      && Interval(s, i).s.h == g && Interval(s, i).ev == ev
      && Interval(s, i).s.c == Heard(s, i).(transmitting := Transmitting(g.tx.state))
  {
    HeardValid(s, i);
    var h1 := LaterHost(s, i);
    assert Directed(h, Heard(s, i)) == Proceed(Quiet, Heard(s, i)) by {
      hide ValidCtx, Heard, Service, Used, Sub32;
    }
    hide HostInterval, ValidCtx, Heard, Reached, Directed, Joint;
    assert Interval(s, i).Going?;
    IntervalCoupled(s, i);
  }

  /** While the device drives, the driver keeps listening and the streams are left alone but for what they hear. */
  lemma ListenInterval(s: Sys, i: Input, l: Line)
    requires Coupled(s) && Plausible(i) && HostRoundTrip.DeviceShows(i.d2p, l) && Listens(s, i)
    requires HostRoundTrip.Awake(s.h, 1)
    ensures Interval(s, i).Going? && Coupled(Interval(s, i).s) && UsbMonitor.Valid(s.h.mon)
    ensures var r, m := Interval(s, i), UsbMonitor.MonSample(s.h.mon, SampleOf(l));
      && r.s.h.tx.state == HostDriver.ST_GET && r.s.wires == i.d2p && r.s.h.mon == m.0 && r.ev == m.1
      && r.s.h.tick == s.h.tick + 4 && r.s.h.recoveryTime == s.h.recoveryTime && r.s.h.frameStart == s.h.frameStart
      && r.s.c == s.c.(recving := i.recving, lastPid := PidAfter(m.1, s.c.lastPid), tickBits := r.s.h.tickBits,
                       busState := if i.d2p != s.wires && l == SE0 then BusAfter(s.c.busState) else s.c.busState)
  {
    var h := Reached(s, i);
    HostRoundTrip.DeviceSample(h.tx.driving, i.d2p, l);
    PinsShown(i.d2p, l);
    ReachedGet(s, i);
    GetInterval(h, i.d2p);
    NotServed(s, i, h);
    HeardIs(s, i, h, l);
    hide Interval, Heard, HostInterval, Reached, HostRoundTrip.DeviceShows, Listens, UsbMonitor.MonSample;
  }

  lemma HeardIs(s: Sys, i: Input, h: Host, l: Line)
    requires Coupled(s) && h == Reached(s, i) && h == Later(s.h).(tx := s.h.tx.(state := HostDriver.ST_GET))
    requires i.d2p.Driving() && UsbMonitor.SampleWires(h.tx.driving, i.d2p) == SampleOf(l)
    requires DevicePins(i.d2p) == Sample(false, false) <==> l == SE0
    ensures var m := UsbMonitor.MonSample(s.h.mon, SampleOf(l));
      && Heard(s, i) == s.c.(recving := i.recving, lastPid := PidAfter(m.1, s.c.lastPid), tickBits := h.tickBits,
                             busState := if i.d2p != s.wires && l == SE0 then BusAfter(s.c.busState) else s.c.busState)
      && UsbMonitor.MonStep(h.mon, false, h.tx.driving, i.d2p) == m && !s.c.transmitting
  {
    hide UsbMonitor.MonSample, PidAfter, BusAfter, DevicePins, UsbMonitor.SampleWires, Turned;
  }

  lemma BusSettles(bus: BusState)
    ensures BusAfter(BusAfter(bus)) == BusAfter(bus)
  {}

  /** An end of packet that the wires still show has been taken note of. */
  predicate Noted(s: Sys) { DevicePins(s.wires) == Sample(false, false) ==> BusAfter(s.c.busState) == s.c.busState }

  /** What the streams know has changed, and nothing else of them. */
  predicate Knows(c: Ctx, d: Ctx, recving: Option<Desc>, pid: bv8, ticks: nat, bus: BusState) {
    d == c.(recving := recving, lastPid := pid, tickBits := ticks, busState := bus)
  }

  /** What the device has driven, once it is heard: the monitor has decoded it, the last PID is the last valid one
      reported, and an end of packet has moved the bus state on. */
  predicate HeardAll(s: Sys, ins: seq<Input>, w: seq<Line>, r: Result)
    requires UsbMonitor.Valid(s.h.mon)
  {
    HeardOf(s, ins, w, r, UsbMonitor.MonRun(s.h.mon, w))
  }

  predicate HeardOf(s: Sys, ins: seq<Input>, w: seq<Line>, r: Result, m: (UsbMonitor.Mon, seq<UsbMonitor.Event>)) {
    && r.Going? && Coupled(r.s) && r.s.h.mon == m.0 && r.ev == m.1
    && r.s.h.tick == s.h.tick + 4 * |ins| && r.s.h.recoveryTime == s.h.recoveryTime
    && r.s.h.frameStart == s.h.frameStart
    && (if ins == [] then r.s.h.tx == s.h.tx && r.s.wires == s.wires
        else r.s.h.tx.state == HostDriver.ST_GET && r.s.wires == ins[|ins| - 1].d2p)
    && Knows(s.c, r.s.c, if ins == [] then s.c.recving else ins[|ins| - 1].recving,
             HostLaws.LastReported(m.1, s.c.lastPid), r.s.h.tickBits,
             if SE0 in w then BusAfter(s.c.busState) else s.c.busState)
  }

  lemma {:induction false} ListenRun(s: Sys, ins: seq<Input>, w: seq<Line>)
    requires Coupled(s) && AllPlausible(ins) && |ins| == |w| && HostRoundTrip.Awake(s.h, |ins|) && Noted(s)
    requires forall k :: 0 <= k < |ins| ==> HostRoundTrip.DeviceShows(ins[k].d2p, w[k])
    requires ins != [] ==> Listens(s, ins[0])
    ensures UsbMonitor.Valid(s.h.mon) && HeardAll(s, ins, w, SysRun(s, ins))
    decreases |ins|
  {
    if ins == [] {
      NothingHeard(s, ins, w);
    } else {
      HostRoundTrip.AwakeNow(s.h, |ins|);
      ListenInterval(s, ins[0], w[0]);
      var t := Interval(s, ins[0]).s;
      HostRoundTrip.StillAwake(s.h, t.h, |ins|);
      StillNoted(s, ins[0], w[0]);
      assert |ins| > 1 ==> ins[1..][0] == ins[1] && Listens(t, ins[1]);
      hide Interval, HeardAll, Noted, Listens, HostRoundTrip.DeviceShows, Coupled, Plausible, UsbMonitor.MonSample;
      ListenRun(t, ins[1..], w[1..]);
      HearMore(s, ins, w);
    }
  }

  lemma NothingHeard(s: Sys, ins: seq<Input>, w: seq<Line>)
    requires Coupled(s) && ins == [] && w == []
    ensures UsbMonitor.Valid(s.h.mon) && HeardAll(s, ins, w, SysRun(s, ins))
  {
    assert HostLaws.LastReported([], s.c.lastPid) == s.c.lastPid;
  }

  lemma StillNoted(s: Sys, i: Input, l: Line)
    requires Coupled(s) && Noted(s) && HostRoundTrip.DeviceShows(i.d2p, l) && Plausible(i) && Interval(s, i).Going?
    requires Interval(s, i).s.wires == i.d2p
    requires Interval(s, i).s.c.busState == if i.d2p != s.wires && l == SE0 then BusAfter(s.c.busState)
      else s.c.busState
    ensures Noted(Interval(s, i).s)
    ensures l == SE0 ==> Interval(s, i).s.c.busState == BusAfter(s.c.busState)
  {
    PinsShown(i.d2p, l);
    BusSettles(s.c.busState);
    hide Interval, BusAfter, DevicePins;
  }

  /** One interval more in front. */
  predicate HeardOne(s: Sys, i: Input, l: Line, t: Sys, ev: seq<UsbMonitor.Event>) {
    && t.h.tx.state == HostDriver.ST_GET && t.wires == i.d2p
    && t.h.tick == s.h.tick + 4 && t.h.recoveryTime == s.h.recoveryTime && t.h.frameStart == s.h.frameStart
    && Knows(s.c, t.c, i.recving, PidAfter(ev, s.c.lastPid), t.h.tickBits, t.c.busState)
    && (t.c.busState == s.c.busState || t.c.busState == BusAfter(s.c.busState))
    && (l == SE0 ==> t.c.busState == BusAfter(s.c.busState)) && (l != SE0 ==> t.c.busState == s.c.busState)
  }

  lemma HearMore(s: Sys, ins: seq<Input>, w: seq<Line>)
    requires Coupled(s) && AllPlausible(ins) && |ins| == |w| && ins != [] && UsbMonitor.Valid(s.h.mon)
    requires Interval(s, ins[0]).Going?
    requires var r, m := Interval(s, ins[0]), UsbMonitor.MonSample(s.h.mon, SampleOf(w[0]));
      && Coupled(r.s) && r.s.h.mon == m.0 && r.ev == m.1 && UsbMonitor.Valid(r.s.h.mon)
      && HeardOne(s, ins[0], w[0], r.s, r.ev) && HeardAll(r.s, ins[1..], w[1..], SysRun(r.s, ins[1..]))
    ensures HeardAll(s, ins, w, SysRun(s, ins))
  {
    var r, m := Interval(s, ins[0]), UsbMonitor.MonSample(s.h.mon, SampleOf(w[0]));
    var n := UsbMonitor.MonRun(r.s.h.mon, w[1..]);
    hide Interval, SysRun, Coupled, UsbMonitor.MonSample, UsbMonitor.MonRun, Plausible, HeardOne, HeardOf,
      HostLaws.LastReported, PidAfter, UsbMonitor.Valid;
    HostRoundTrip.MonRunNext(s.h.mon, w);
    SysRunNext(s, ins);
    PidsJoin(m, s.h.mon, w[0], n.1, s.c.lastPid);
    var u := SysRun(r.s, ins[1..]);
    assert u.Going? && u.ev == n.1 by {
      HeardGoes(r.s, ins[1..], w[1..], u, n);
    }
    HeardJoined(s, ins, w, r.s, m.1, u, n);
  }

  lemma HeardGoes(s: Sys, ins: seq<Input>, w: seq<Line>, r: Result, m: (UsbMonitor.Mon, seq<UsbMonitor.Event>))
    requires HeardOf(s, ins, w, r, m)
    ensures r.Going? && r.ev == m.1
  {}

  lemma HeardJoined(s: Sys, ins: seq<Input>, w: seq<Line>, t: Sys, ev: seq<UsbMonitor.Event>, u: Result,
      n: (UsbMonitor.Mon, seq<UsbMonitor.Event>))
    requires ins != [] && |ins| == |w| && HeardOne(s, ins[0], w[0], t, ev) && HeardOf(t, ins[1..], w[1..], u, n)
      && u.Going?
    requires HostLaws.LastReported(n.1, PidAfter(ev, s.c.lastPid)) == HostLaws.LastReported(ev + n.1, s.c.lastPid)
    ensures HeardOf(s, ins, w, Going(u.s, ev + u.ev), (n.0, ev + n.1))
  {
    hide PidAfter, HostLaws.LastReported, BusAfter, Coupled;
    BusSettles(s.c.busState);
    assert w == [w[0]] + w[1..] && (SE0 in w <==> w[0] == SE0 || SE0 in w[1..]);
    assert |ins| > 1 ==> ins[1..][|ins| - 2] == ins[|ins| - 1];
  }

  lemma PidsJoin(m: (UsbMonitor.Mon, seq<UsbMonitor.Event>), mon: UsbMonitor.Mon, l: Line, ev: seq<UsbMonitor.Event>,
    pid: bv8)
    requires UsbMonitor.Valid(mon) && m == UsbMonitor.MonSample(mon, SampleOf(l))
    ensures HostLaws.LastReported(ev, PidAfter(m.1, pid)) == HostLaws.LastReported(m.1 + ev, pid)
  {
    hide *;
    HostLaws.SampleRecords(mon, SampleOf(l));
    HostLaws.PidRecords(m.1, pid);
    HostLaws.ReportedOne(m.1, pid, PidAfter(m.1, pid));
    HostLaws.ReportedConcat(m.1, ev, pid);
  }

  /** The device drives packet `bytes` in these intervals, the host not having sent for at least one, and is quiet in
      the interval behind them, in which no frame begins. */
  predicate DevicePacket(s: Sys, ins: seq<Input>, last: Input, bytes: seq<bv8>, flush: bool)
    requires ValidHost(s.h)
  {
    var w := Packet(BytesBits(bytes), flush);
    && AllPlausible(ins) && Plausible(last) && !last.d2p.Driving() && |ins| == |w|
    && (forall k :: 0 <= k < |ins| ==> HostRoundTrip.DeviceShows(ins[k].d2p, w[k]))
    && (s.h.tx.state == HostDriver.ST_IDLE || s.h.tx.state == HostDriver.ST_GET)
    && s.wires.Pullup() && !s.wires.Driving() && HostRoundTrip.Awake(s.h, |ins| + 1)
    && bytes != [] && ValidPid(bytes[0]) && UsbMonitor.BetweenPackets(s.h.mon)
    && Sub32((s.h.tickBits + |ins| + 1) % 0x1_0000_0000, s.h.frameStart) < FRAME_INTERVAL
  }

  /** The streams behind such a packet: they know its PID and that it is over, and nothing else has happened to them. */
  predicate Told(c: Ctx, d: Ctx, pid: bv8) {
    d == c.(recving := d.recving, lastPid := pid, tickBits := d.tickBits, busState := BusAfter(c.busState))
  }

  lemma PacketTold(s: Sys, ins: seq<Input>, last: Input, bytes: seq<bv8>, flush: bool)
    requires Coupled(s) && DevicePacket(s, ins, last, bytes, flush)
    ensures SysRun(s, ins).Going?
    ensures var t := SysRun(s, ins).s;
      && Coupled(t) && Told(s.c, t.c, bytes[0]) && t.h.tx.state == HostDriver.ST_GET && t.wires.Driving()
      && t.h.tick == s.h.tick + 4 * |ins| && t.h.recoveryTime == s.h.recoveryTime && t.h.frameStart == s.h.frameStart
      && UsbMonitor.BetweenPackets(t.h.mon)
  {
    var w := Packet(BytesBits(bytes), flush);
    PinsIdle(s.wires);
    UsbMonitor.ValidPidBreaks(bytes[0]);
    assert HostRoundTrip.Awake(s.h, |ins|);
    assert |w| >= 3 && w[|w| - 3] == SE0;
    HostRoundTrip.DeviceSample(s.h.tx.driving, ins[0].d2p, w[0]);
    HostRoundTrip.DeviceSample(s.h.tx.driving, ins[|ins| - 1].d2p, w[|w| - 1]);
    assert Listens(s, ins[0]) && Noted(s);
    hide Packet, BytesBits, HostRoundTrip.DeviceShows, ValidPid, DevicePins, Coupled, Plausible, Listens, Noted;
    ListenRun(s, ins, w);
    UsbMonitor.PacketReceived(s.h.mon, bytes, flush);
    HostLaws.PacketReports(bytes, s.c.lastPid);
    hide SysRun, UsbMonitor.MonRun, HostLaws.LastReported, UsbMonitor.PacketEvents, BusAfter;
  }

  /** The streams are served in the interval, with what they know. */
  predicate ServedIn(t: Sys, last: Input)
    requires Coupled(t) && Plausible(last)
  {
    var h, a := Reached(t, last), Found(t, last);
    && !Recovering(h) && Idle(h) && !FrameDue(h) && ValidCtx(a) && a.sending.Some? && !a.transmitting
    && a == t.c.(recving := last.recving, tickBits := h.tickBits, sending := a.sending)
    && h.frameStart == t.h.frameStart
    && (!Exhausted(Heard(t, last)) && Service(a).Next? ==> Interval(t, last).Going?)
    && (Interval(t, last).Going? ==>
          && Service(a).Next? && Interval(t, last).s.c == Service(a).c && Coupled(Interval(t, last).s))
  }

  /** The interval in which the device has stopped. */
  lemma ServedNext(t: Sys, last: Input)
    requires Coupled(t) && Plausible(last) && !last.d2p.Driving() && t.wires.Driving()
    requires t.h.tx.state == HostDriver.ST_GET && HostRoundTrip.Awake(t.h, 1)
    requires Sub32((t.h.tickBits + 1) % 0x1_0000_0000, t.h.frameStart) < FRAME_INTERVAL
    ensures ServedIn(t, last)
  {
    var h := Reached(t, last);
    assert h == Later(t.h).(tx := t.h.tx.(state := HostDriver.ST_IDLE));
    assert Heard(t, last) == t.c.(recving := last.recving, tickBits := h.tickBits);
    HeardValid(t, last);
    ProvidedValid(Heard(t, last));
    LaterTicks(t.h);
    if Interval(t, last).Going? {
      IntervalCoupled(t, last);
      var k, c, act, d := Parts(t, last);
      HandedOn(k, c, act, d, Interval(t, last).s.h);
      hide Interval, Service, ValidCtx, Heard, Reached, Sub32, ValidHost;
    }
  }

  lemma LaterTicks(h: Host)
    requires ValidHost(h) && HostRoundTrip.Awake(h, 1)
    ensures Later(h).tickBits == (h.tickBits + 1) % 0x1_0000_0000 && Later(h).tick == h.tick + 4
  {}

  lemma HandedOn(h: Host, c: Ctx, act: Act, d: Ctx, g: Host)
    requires Joint(h, c) && StreamsDo(h, c, act, d) && HostDoes(h, act, g)
    requires !Recovering(h) && Idle(h) && !FrameDue(h)
    ensures Service(Provided(c)) == Next(d) && d.(transmitting := Transmitting(g.tx.state)) == d
  {
    hide ValidCtx, Service, Sub32, ValidHost, Used;
  }

  /** There is a descriptor for whatever is to be sent. */
  predicate Room(c: Ctx) { Total(c.queues) + c.lost + 1 < MAX_TRANSFERS }

  /** Behind the device's packet the streams are served with its PID and the bus state it leaves. */
  lemma PacketServed(s: Sys, ins: seq<Input>, last: Input, bytes: seq<bv8>, flush: bool)
    requires Coupled(s) && Room(s.c) && DevicePacket(s, ins, last, bytes, flush)
    ensures SysRun(s, ins).Going? && Coupled(SysRun(s, ins).s) && Plausible(last) && bytes != [] && ValidCtx(s.c)
    ensures Passed(s, SysRun(s, ins).s, last, bytes[0])
  {
    hide *;
    CoupledIs(s);
    TellsLast(s, ins, last, bytes, flush);
    PacketTold(s, ins, last, bytes, flush);
    var t := SysRun(s, ins).s;
    CoupledIs(t);
    StillInFrame(s, t, |ins|);
    ServedNext(t, last);
    PassedOn(s, t, last, bytes[0]);
  }

  lemma TellsLast(s: Sys, ins: seq<Input>, last: Input, bytes: seq<bv8>, flush: bool)
    requires ValidHost(s.h) && DevicePacket(s, ins, last, bytes, flush)
    ensures AllPlausible(ins) && Plausible(last) && !last.d2p.Driving() && bytes != []
    ensures HostRoundTrip.Awake(s.h, |ins| + 1)
    ensures Sub32((s.h.tickBits + |ins| + 1) % 0x1_0000_0000, s.h.frameStart) < FRAME_INTERVAL
  {
    hide Packet, BytesBits, ValidPid, HostRoundTrip.DeviceShows;
  }

  lemma CoupledIs(s: Sys)
    requires Coupled(s)
    ensures ValidHost(s.h) && ValidCtx(s.c) && s.h.frameStart < 0x1_0000_0000
  {}

  /** What the streams make of it, if the call returns. */
  predicate Passed(s: Sys, t: Sys, last: Input, pid: bv8)
    requires Coupled(t) && Plausible(last) && ValidCtx(s.c)
  {
    var a, r := Found(t, last), Interval(t, last);
    && ValidCtx(a) && a.sending.Some? && !a.transmitting
    && a == s.c.(recving := last.recving, lastPid := pid, tickBits := a.tickBits, busState := BusAfter(s.c.busState),
                 sending := a.sending)
    && (Service(a).Next? ==> r.Going? && r.s.c == Service(a).c && Coupled(r.s))
  }

  lemma PassedOn(s: Sys, t: Sys, last: Input, pid: bv8)
    requires Coupled(t) && Plausible(last) && ValidCtx(s.c) && Room(s.c)
    requires Told(s.c, t.c, pid) && ServedIn(t, last)
    ensures Passed(s, t, last, pid)
  {
    RoomLeft(s.c, Heard(t, last));
    hide Interval, Service, ValidCtx, BusAfter, Exhausted, Room, Coupled, Plausible, Sub32;
  }

  // ---- OUT ---------------------------------------------------------------------------------------------

  /** A bulk or interrupt stream has a packet on the way, and the device has not answered yet. */
  predicate AwaitsAnswer(c: Ctx)
    requires ValidCtx(c)
  {
    var s := c.streams[c.streamOut];
    && c.hostSt == HS_WAITACK && c.queues[c.streamOut] != [] && (s.xfr == Bulk || s.xfr == Interrupt)
    && c.busState == OutState(s.xfr)
  }

  lemma OutBus(t: XfrType)
    requires t == Bulk || t == Interrupt
    ensures OutAnswered(t, BusAfter(OutState(t)))
  {}

  /** What the answer does: an ACK on the wires retires the packet and advances the toggle, a NAK rewinds the LFSR and
      keeps the packet, anything else is an error. */
  predicate AnswerDoes(c: Ctx, d: Ctx, pid: bv8)
    requires ValidCtx(c)
  {
    var id := c.streamOut;
    var s, next := c.streams[id], c.epOut[1 + id];
    if pid == PID_ACK then
      && c.queues[id] != [] && d.hostSt == HS_STREAMIN && d.queues == c.queues[id := c.queues[id][1..]]
      && d.streams == c.streams
      && d.epOut == c.epOut[1 + id := if next == PID_DATA0 then PID_DATA1 else PID_DATA0]
    else if pid == PID_NAK then
      && d.hostSt == HS_STREAMIN && d.queues == c.queues && d.epOut == c.epOut
      && d.streams == c.streams[id := s.(dpiLfsr := s.rewindLfsr)]
    else d.hostSt == HS_ERROR && d.queues == c.queues && d.epOut == c.epOut && d.streams == c.streams
  }

  lemma AnswerServed(c: Ctx, a: Ctx, pid: bv8)
    requires ValidCtx(c) && ValidCtx(a) && AwaitsAnswer(c) && a.sending.Some?
    requires a == c.(recving := a.recving, lastPid := pid, tickBits := a.tickBits, busState := BusAfter(c.busState),
                     sending := a.sending)
    ensures c.queues[c.streamOut] != [] && Service(a).Next? && AnswerDoes(c, Service(a).c, pid)
  {
    OutBus(c.streams[c.streamOut].xfr);
    AckGoes(a);
    AnswerTaken(a);
    hide ValidCtx, Service, BusAfter, OutAnswered, OutState;
  }

  lemma AckGoes(a: Ctx)
    requires ValidCtx(a) && a.hostSt == HS_WAITACK && a.sending.Some? && a.queues[a.streamOut] != []
    requires a.streams[a.streamOut].xfr != Control
    ensures Service(a).Next?
  {
    Lengths(a);
    hide ValidCtx, AnswerTo, ToggleAdvance;
  }

  /** The OUT handshake, from the device's wires to the stream: a packet with this PID, driven in either way,
    is the answer. */
  lemma OutHandshake(s: Sys, ins: seq<Input>, last: Input, pid: bv8, flush: bool)
    requires Coupled(s) && AwaitsAnswer(s.c) && Room(s.c) && DevicePacket(s, ins, last, [pid], flush)
    ensures SysRun(s, ins).Going? && Interval(SysRun(s, ins).s, last).Going?
    ensures AnswerDoes(s.c, Interval(SysRun(s, ins).s, last).s.c, pid)
  {
    PacketServed(s, ins, last, [pid], flush);
    hide Interval, Service, ValidCtx, BusAfter, AnswerDoes, AwaitsAnswer, SysRun, DevicePacket, Room, Coupled, Found;
    AnswerServed(s.c, Found(SysRun(s, ins).s, last), pid);
  }

  lemma StillInFrame(s: Sys, t: Sys, n: nat)
    requires ValidHost(s.h) && ValidHost(t.h) && HostRoundTrip.Awake(s.h, n + 1) && t.h.tick == s.h.tick + 4 * n
    requires t.h.recoveryTime == s.h.recoveryTime && t.h.frameStart == s.h.frameStart
    requires Sub32((s.h.tickBits + n + 1) % 0x1_0000_0000, s.h.frameStart) < FRAME_INTERVAL
    ensures HostRoundTrip.Awake(t.h, 1) && Sub32((t.h.tickBits + 1) % 0x1_0000_0000, t.h.frameStart) < FRAME_INTERVAL
  {
    assert t.h.tickBits == s.h.tickBits + n;
  }

  lemma RoomLeft(c: Ctx, a: Ctx)
    requires Room(c) && a.queues == c.queues && a.lost == c.lost
    ensures !Exhausted(a)
  {}

  // ---- IN ----------------------------------------------------------------------------------------------

  /** A bulk or interrupt stream past its signature has been polled, and means to consider what the device sends. */
  predicate AwaitsData(c: Ctx)
    requires ValidCtx(c)
  {
    var s := c.streams[c.streamIn];
    && c.hostSt == HS_ACKIFDATA && (s.xfr == Bulk || s.xfr == Interrupt) && c.busState == InState(s.xfr)
    && !s.sigExpected && !(s.retrying && s.nretries > 0)
  }

  lemma InBus(t: XfrType)
    requires t != Control
    ensures BusAfter(InState(t)) == DataState(t)
  {}

  /** A good packet is kept and answered with ACK, any other one is dropped and answered with NAK. */
  predicate Judges(c: Ctx, d: Ctx, x: Desc)
    requires ValidCtx(c)
  {
    var id := c.streamIn;
    var good := Good(x, c.streams[id], c.epIn[1 + id]);
    && d.transmitting && d.sending == Some(Desc([if good then PID_ACK else PID_NAK], NO_DATA_STAGE))
    && d.queues == if good then c.queues[id := c.queues[id] + [x]] else c.queues
  }

  lemma DataServed(c: Ctx, a: Ctx, x: Desc)
    requires ValidCtx(c) && ValidCtx(a) && AwaitsData(c) && a.sending.Some? && RxShape(x) && IsToggle(x.bytes[0])
    requires !TooShort(x)
    requires a == c.(recving := Some(x), lastPid := x.bytes[0], tickBits := a.tickBits,
      busState := BusAfter(c.busState),
                     sending := a.sending)
    ensures Service(a).Next? && Judges(c, Service(a).c, x)
  {
    Lengths(c);
    ToggleAt(c, c.streamIn);
    var s, next, a1 := c.streams[c.streamIn], c.epIn[Ep(c.streamIn)], a.(recving := None);
    InBus(s.xfr);
    CountedKeeps(s);
    Again(a, a1);
    ExaminedPlain(x, Counted(s), next);
    GoodCounted(x, s, next);
    assert ServeReply(a) == TakeData(a1, x) by {
      hide ValidCtx, TakeData, WithoutData, RxShape, BusAfter, InState;
    }
    hide BusAfter, InState, DataState, Good, TooShort, Examine, Counted, IsToggle;
    var r := Decide(a1, x);
    assert r == Examine(x, Counted(s), next);
    StatusIs();
    TakenJudges(a1, x, r);
    hide ValidCtx, Decide, RxShape, TakeData, Status;
  }

  lemma GoodCounted(x: Desc, s: Stream, next: bv8)
    ensures Good(x, Counted(s), next) <==> Good(x, s, next)
  {
    CountedKeeps(s);
    hide Counted, Intact, LfsrSeq;
  }

  lemma TakenJudges(c: Ctx, x: Desc, r: Taken)
    requires ValidCtx(c) && RxShape(x) && r == Decide(c, x) && r.Taken? && c.sending.Some?
    requires r.s.xfr != Isochronous && r.keep == r.accept
    ensures TakeData(c, x).Next?
    ensures var d := TakeData(c, x).c;
      && d.transmitting && d.sending == Some(Status(r.accept)) && |c.queues| == MAX_STREAMS
      && d.queues == if r.keep then c.queues[c.streamIn := c.queues[c.streamIn] + [x]] else c.queues
  {
    Lengths(c);
    hide ValidCtx, Decide, RxShape, Status;
  }

  /** The IN handshake, from the device's wires to the host's: a data packet the device drives, collected as it was
      sent, is kept if it has the PID whose turn it is, a right CRC16 and, with checking, the bytes expected, and the
      driver is about to send ACK; else it is dropped, and the driver is about to send NAK. */
  lemma InHandshake(s: Sys, ins: seq<Input>, last: Input, bytes: seq<bv8>, flush: bool)
    requires Coupled(s) && AwaitsData(s.c) && Room(s.c) && DevicePacket(s, ins, last, bytes, flush)
    requires IsToggle(bytes[0]) && |bytes| <= MAX_DATA && |bytes| != 2 && last.recving == Some(Reception.Arrived(bytes))
    ensures SysRun(s, ins).Going? && Interval(SysRun(s, ins).s, last).Going?
    ensures var r := Interval(SysRun(s, ins).s, last);
      && Judges(s.c, r.s.c, Reception.Arrived(bytes)) && Coupled(r.s)
      && Transmitting(r.s.h.tx.state) && Some(r.s.h.sending) == r.s.c.sending
  {
    PacketServed(s, ins, last, bytes, flush);
    ArrivedShape(bytes);
    var r := Interval(SysRun(s, ins).s, last);
    hide Interval, Service, ValidCtx, BusAfter, AwaitsData, SysRun, DevicePacket, Room, Found, Reception.Arrived,
      RxShape,
      TooShort, IsToggle, Good;
    DataServed(s.c, Found(SysRun(s, ins).s, last), Reception.Arrived(bytes));
  }

  lemma ArrivedShape(bytes: seq<bv8>)
    requires bytes != [] && IsToggle(bytes[0]) && |bytes| <= MAX_DATA && |bytes| != 2
    ensures var x := Reception.Arrived(bytes); RxShape(x) && x.bytes == bytes && !TooShort(x)
  {}

  lemma NakServed(c: Ctx, a: Ctx)
    requires ValidCtx(c) && ValidCtx(a) && AwaitsData(c) && a.sending.Some? && a.recving.Some?
    requires a == c.(recving := a.recving, lastPid := PID_NAK, tickBits := a.tickBits, busState := BusAfter(c.busState),
                     sending := a.sending)
    ensures Service(a) == Next(a.(hostSt := HS_STREAMOUT))
  {
    InBus(c.streams[c.streamIn].xfr);
    hide ValidCtx, TakeData, BusAfter, InState, DataState;
  }

  /** A device that has nothing to send answers the poll with NAK,
    and the host goes on to the next stream: nothing is kept,
      and nothing sent. */
  lemma InNothing(s: Sys, ins: seq<Input>, last: Input, flush: bool)
    requires Coupled(s) && AwaitsData(s.c) && Room(s.c) && DevicePacket(s, ins, last, [PID_NAK], flush)
    requires last.recving.Some?
    ensures SysRun(s, ins).Going? && Interval(SysRun(s, ins).s, last).Going?
    ensures var d := Interval(SysRun(s, ins).s, last).s.c;
      d.hostSt == HS_STREAMOUT && !d.transmitting && d.queues == s.c.queues && d.streams == s.c.streams
        && d.epIn == s.c.epIn
  {
    PacketServed(s, ins, last, [PID_NAK], flush);
    hide Interval, Service, ValidCtx, BusAfter, AwaitsData, SysRun, DevicePacket, Room, Found, RxShape;
    NakServed(s.c, Found(SysRun(s, ins).s, last));
  }
}
