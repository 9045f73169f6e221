/** The streaming host and the bit level as one system: in every bit interval the wires of the device go in, the driver,
    the monitor and the frame clock make their step, and when the driver is idle streams_service decides what is sent
    next. */
module StreamSystem {
  import opened LineCode
  import opened Transfer
  import opened Wires
  import opened Streams
  import opened StreamMoves
  import opened StreamRuns
  import opened StreamRestart
  import opened HostModel
  import HostDriver
  import HostRoundTrip
  import StreamWire
  import UsbMonitor

  /** The host, its streams, and the device's wires as they were in the interval before. */
  datatype Sys = Sys(h: Host, c: Ctx, wires: D2p)

  /** What a bit interval brings: the device's wires, and the packet collected so far. */
  datatype Input = Input(d2p: D2p, recving: Option<Desc>)

  predicate Plausible(i: Input) { i.d2p.Pullup() && (i.recving.Some? ==> RxShape(i.recving.value)) }

  predicate AllPlausible(ins: seq<Input>) { forall k :: 0 <= k < |ins| ==> Plausible(ins[k]) }

  /** The clocks agree, and what the driver is sending is what the streams have handed over. */
  predicate Joint(h: Host, c: Ctx) {
    && ValidHost(h) && ValidCtx(c)
    && c.tickBits == h.tickBits && c.frameStart == h.frameStart
    && c.transmitting == Transmitting(h.tx.state) && (c.transmitting ==> c.sending == Some(h.sending))
  }

  predicate Coupled(s: Sys) { Joint(s.h, s.c) }

  // ---- One bit interval --------------------------------------------------------------------------------

  /** The pins as usbdpi_device_to_host reads them. */
  function DevicePins(d: D2p): Sample {
    if d.txUseDSe0 then
      if d.dEn then
        if d.se0 then Sample(false, false) else if d.dnpu then Sample(!d.d, d.d) else Sample(d.d, !d.d)
      else Sample(d.Pullup(), false)
    else if d.dnpu then Sample(!d.dnEn || d.dn, d.dpEn && d.dp)
    else Sample(if d.dpEn then d.dp else d.dppu, d.dnEn && d.dn)
  }

  /** An end of packet from the device moves the bus state on. */
  function BusAfter(bus: BusState): BusState {
    match bus
    case IsoInToken => IsoInData
    case BulkOut => BulkOutAck
    case BulkInToken => BulkInData
    case InterruptOut => InterruptOutAck
    case InterruptInToken => InterruptInData
    case _ => bus
  }

  /** usbdpi_device_to_host: the driver listens while the device drives. */
  function Turned(h: Host, d2p: D2p): (r: Host)
    requires ValidHost(h)
    ensures ValidHost(r) && Transmitting(r.tx.state) == Transmitting(h.tx.state) && r == h.(tx := r.tx)
    ensures Transmitting(h.tx.state) ==> r == h
  {
    if d2p.Driving() && h.tx.state == HostDriver.ST_IDLE then h.(tx := h.tx.(state := HostDriver.ST_GET))
    else if !d2p.Driving() && h.tx.state == HostDriver.ST_GET then h.(tx := h.tx.(state := HostDriver.ST_IDLE))
    else h
  }

  /** The host when its turn in the interval comes: usbdpi_device_to_host has been called if the wires have changed. */
  function Reached(s: Sys, i: Input): (r: Host)
    requires ValidHost(s.h)
    ensures ValidHost(r)
  {
    Later(if i.d2p != s.wires then Turned(s.h, i.d2p) else s.h)
  }

  predicate EndSeen(s: Sys, i: Input)
    requires ValidHost(s.h)
  {
    i.d2p != s.wires && Reached(s, i).tx.state == HostDriver.ST_GET && DevicePins(i.d2p) == Sample(false, false)
  }

  /** What the streams know when their turn comes: the packet collected, the last PID the monitor has seen, and the bus
      state. */
  function Heard(s: Sys, i: Input): Ctx
    requires ValidHost(s.h)
  {
    var h := Reached(s, i);
    var ev := UsbMonitor.MonStep(h.mon, Transmitting(h.tx.state), h.tx.driving, i.d2p).1;
    s.c.(recving := i.recving, lastPid := PidAfter(ev, s.c.lastPid), tickBits := h.tickBits,
         busState := if EndSeen(s, i) then BusAfter(s.c.busState) else s.c.busState)
  }

  predicate Exhausted(c: Ctx) { c.sending.None? && Used(c) + c.lost >= MAX_TRANSFERS }

  /** The descriptor at hand, or a new one. */
  function Provided(c: Ctx): Ctx {
    if c.sending.Some? then c else c.(sending := Some(Desc([], NO_DATA_STAGE)))
  }

  function SofSent(h: Host, c: Ctx): Ctx {
    c.(hostSt := HS_STARTFRAME, frameStart := h.tickBits, sending := Some(SofDesc((h.frame + 1) % 0x1_0000)),
       transmitting := true)
  }

  predicate Recovering(h: Host) { h.tick < h.recoveryTime }

  predicate FrameDue(h: Host)
    requires ValidHost(h)
  {
    Sub32(h.tickBits, h.frameStart) >= FRAME_INTERVAL && h.tx.state == HostDriver.ST_IDLE
  }

  // ---- What the streams hand over can be sent ----------------------------------------------------------

  lemma TokenSendable(device: bv8, ep: bv8)
    ensures Sendable(Desc(TokenBytes(PID_IN, device, ep), NO_DATA_STAGE))
  {
    hide TokenField;
  }

  /** The clock has not moved; what is being sent, if it was not before, can be sent. */
  predicate Ordered(c: Ctx, d: Ctx) {
    d.tickBits == c.tickBits && d.frameStart == c.frameStart
      && (d.transmitting ==> c.transmitting || (d.sending.Some? && Sendable(d.sending.value)))
  }

  lemma OutSends(c: Ctx)
    requires ValidCtx(c) && ServeOut(c).Next?
    ensures Ordered(c, ServeOut(c).c)
  {
    Lengths(c);
    Bounds(c);
    var k := NextId(c.streamOut, c.nstreams);
    StreamAt(c, k);
    ToggleAt(c, k);
    var s, q := c.streams[k], c.queues[k];
    hide ValidCtx, Toggles, StreamsOk, TimeLeft, Reply, Kept, LfsrAt, ReplyFits, Scrambled, IsToggle, NextId, Sendable;
    if TimeLeft(c) > MIN_TIME_LEFT && s.send && q != [] {
      StreamWire.ReplySendable(q[0], s, k, c.epOut[Ep(k)], c.devAddr);
    }
  }

  lemma InSends(c: Ctx)
    requires ValidCtx(c) && ServeIn(c).Next?
    ensures Ordered(c, ServeIn(c).c)
  {
    Lengths(c);
    hide ValidCtx, TimeLeft, TokenBytes, NextId, Generated;
    TokenSendable(c.devAddr, Ep(NextId(c.streamIn, c.nstreams)) as bv8);
  }

  lemma AckSends(c: Ctx)
    requires ValidCtx(c) && ServeAck(c).Next?
    ensures Ordered(c, ServeAck(c).c)
  {
    Lengths(c);
    hide ValidCtx, AnswerTo, ToggleAdvance;
  }

  lemma ReplySends(c: Ctx)
    requires ValidCtx(c) && ServeReply(c).Next?
    ensures Ordered(c, ServeReply(c).c)
  {
    Lengths(c);
    ToggleAt(c, c.streamIn);
    hide ValidCtx, Toggles, StreamsOk, RxShape, Decide, IsToggle;
  }

  /** A call leaves the clock alone; and if it starts the driver, it is with a transfer that can be sent. */
  lemma ServiceSends(c: Ctx)
    requires ValidCtx(c) && c.sending.Some? && Service(c).Next?
    ensures ValidCtx(Service(c).c) && Ordered(c, Service(c).c)
  {
    ServiceMoves(c, 0);
    hide ServeOut, ServeIn, ServeAck, ServeReply, ValidCtx;
    match c.hostSt
    case HS_STARTFRAME => OutSends(c);
    case HS_STREAMOUT => OutSends(c);
    case HS_STREAMIN => InSends(c);
    case HS_WAITACK => AckSends(c);
    case HS_ACKIFDATA => ReplySends(c);
    case _ =>
  }

  // ---- The interval as a whole ---------------------------------------------------------------------------

  /** The streams' part of an interval: an assertion of the C code fails, or the driver is given something to send or
      nothing. */
  datatype Turn = Halt | Proceed(act: Act, c: Ctx)

  function Directed(h: Host, c: Ctx): (r: Turn)
    requires ValidHost(h) && ValidCtx(c) && c.transmitting == Transmitting(h.tx.state)
    ensures r.Proceed? && r.act.Begin? ==> Sendable(r.act.x)
  {
    if Recovering(h) then Proceed(Quiet, c.(frameStart := h.tickBits))
    else if h.tx.state != HostDriver.ST_IDLE then Proceed(Quiet, c)
    else if Exhausted(c) then Halt
    else if FrameDue(h) then Proceed(Quiet, SofSent(h, c))
    else
      match Service(Provided(c))
      case Fault => Halt
      case Next(d) =>
        ServiceSends(Provided(c));
        Proceed(if d.transmitting then Begin(d.sending.value) else Quiet, d)
  }

  datatype Result = Stopped | Going(s: Sys, ev: seq<UsbMonitor.Event>)

  function Bare(i: Input, act: Act): In { In(i.d2p, act, false) }

  function Interval(s: Sys, i: Input): Result
    requires Coupled(s) && Plausible(i)
  {
    var h := Reached(s, i);
    match Directed(h, Heard(s, i))
    case Halt => Stopped
    case Proceed(act, c) =>
      var (g, ev) := HostInterval(h, Bare(i, act));
      Going(Sys(g, c.(transmitting := Transmitting(g.tx.state)), i.d2p), ev)
  }

  predicate Idle(h: Host) { h.tx.state == HostDriver.ST_IDLE }

  /** What the host function makes of the interval, case by case. */
  predicate HostDoes(h: Host, act: Act, g: Host)
    requires ValidHost(h)
  {
    && ValidHost(g) && g.tickBits == h.tickBits
    && (if Recovering(h) then !Transmitting(g.tx.state) && g.frameStart == h.tickBits
        else if FrameDue(h) then g.frameStart == h.tickBits && g.sending == SofDesc((h.frame + 1) % 0x1_0000)
        else
          && g.frameStart == h.frameStart
          && (Idle(h) && act.Begin? ==> g.sending == act.x && g.tx == HostDriver.Start(g.tx))
          && (Idle(h) && act.Quiet? ==> !Transmitting(g.tx.state))
          && (!Idle(h) ==> g.sending == h.sending && (Transmitting(g.tx.state) ==> Transmitting(h.tx.state))))
  }

  lemma HostSide(h: Host, d2p: D2p, act: Act)
    requires ValidHost(h) && d2p.Pullup() && (act.Begin? ==> Sendable(act.x))
    ensures HostDoes(h, act, HostInterval(h, In(d2p, act, false)).0)
  {
    var (mon, ev) := UsbMonitor.MonStep(h.mon, Transmitting(h.tx.state), h.tx.driving, d2p);
    var h1 := Heeded(h, mon, PidAfter(ev, h.lastrxpid));
    FrameSide(h1);
    ArmSide(FrameCheck(h1, false), d2p, act);
    hide UsbMonitor.MonStep, SofDesc, HostDriver.SetDriving, PidAfter, Sub32, Arm, FrameCheck, ValidHost, Sensed;
  }

  lemma Heeded(h: Host, mon: UsbMonitor.Mon, pid: bv8) returns (g: Host)
    requires ValidHost(h) && UsbMonitor.Valid(mon)
    ensures g == Sensed(h.(mon := mon, lastrxpid := pid)) && ValidHost(g)
    ensures g == h.(mon := mon, lastrxpid := pid, tx := g.tx) && g.tx.state == h.tx.state
  {
    g := Sensed(h.(mon := mon, lastrxpid := pid));
  }

  lemma FrameSide(h: Host)
    requires ValidHost(h)
    ensures var g := FrameCheck(h, false);
      && g.tickBits == h.tickBits
      && (if FrameDue(h) then
            g.frameStart == h.tickBits && g.sending == SofDesc((h.frame + 1) % 0x1_0000) && Transmitting(g.tx.state)
          else g.frameStart == h.frameStart && g.sending == h.sending && g.tx == h.tx)
  {
    hide SofDesc, Sendable, Sub32;
  }

  lemma ArmSide(h: Host, d2p: D2p, act: Act)
    requires ValidHost(h) && (act.Begin? ==> Sendable(act.x))
    ensures var g := Arm(h, d2p, act);
      && g.tickBits == h.tickBits && g.frameStart == h.frameStart
      && (Idle(h) && act.Begin? ==> g.sending == act.x && g.tx == HostDriver.Start(g.tx))
      && (Idle(h) && act.Quiet? ==> g == h)
      && (!Idle(h) ==> g.sending == h.sending && (Transmitting(g.tx.state) ==> Transmitting(h.tx.state)))
  {
    StaysOff(h.tx, h.sending, d2p);
    hide HostDriver.TxStep, Sendable;
  }

  /** A driver that only listens starts nothing by itself. */
  lemma StaysOff(t: HostDriver.Tx, x: Desc, d2p: D2p)
    ensures !Transmitting(t.state) ==> HostDriver.TxStep(t, x, d2p).state == t.state
  {}

  /** What the streams' part makes of it. */
  predicate StreamsDo(h: Host, c: Ctx, act: Act, d: Ctx)
    requires ValidHost(h) && ValidCtx(c)
  {
    && ValidCtx(d) && d.tickBits == h.tickBits
    && (if Recovering(h) then act.Quiet? && d == c.(frameStart := h.tickBits)
        else if !Idle(h) then act.Quiet? && d == c
        else if FrameDue(h) then act.Quiet? && d == SofSent(h, c)
        else
          && ValidCtx(Provided(c)) && Provided(c).sending.Some? && Service(Provided(c)) == Next(d)
          && d.frameStart == c.frameStart
          && (act.Begin? <==> d.transmitting) && (act.Begin? ==> d.sending == Some(act.x)))
  }

  lemma HeardValid(s: Sys, i: Input)
    requires Coupled(s) && Plausible(i)
    ensures ValidCtx(Heard(s, i)) && Interlude(s.c, Heard(s, i))
  {
    hide Toggles, StreamsOk, RxShape, UsbMonitor.MonStep, PidAfter, BusAfter, EndSeen;
  }

  lemma ProvidedValid(c: Ctx)
    requires ValidCtx(c)
    ensures ValidCtx(Provided(c)) && Provided(c).sending.Some? && Interlude(c, Provided(c))
  {
    hide Toggles, StreamsOk, RxShape;
  }

  lemma RestartValid(h: Host, c: Ctx)
    requires ValidCtx(c) && h.tickBits < 0x1_0000_0000
    ensures ValidCtx(SofSent(h, c)) && ValidCtx(c.(frameStart := h.tickBits))
      && Interlude(c, c.(frameStart := h.tickBits))
  {
    hide Toggles, StreamsOk, RxShape, SofDesc;
  }

  lemma DirectedCases(h: Host, c: Ctx)
    requires ValidHost(h) && ValidCtx(c) && c.transmitting == Transmitting(h.tx.state) && c.tickBits == h.tickBits
    requires Directed(h, c).Proceed?
    ensures StreamsDo(h, c, Directed(h, c).act, Directed(h, c).c)
  {
    ProvidedValid(c);
    RestartValid(h, c);
    hide Service, SofDesc, Used, ValidCtx, Sub32, Sendable;
    if !Recovering(h) && Idle(h) && !FrameDue(h) {
      ServiceSends(Provided(c));
    }
  }

  lemma LaterHost(s: Sys, i: Input) returns (h: Host)
    requires Coupled(s) && Plausible(i)
    ensures ValidHost(h) && h == Reached(s, i) && h.tickBits < 0x1_0000_0000
    ensures Transmitting(h.tx.state) == s.c.transmitting && h.frameStart == s.c.frameStart
    ensures s.c.transmitting ==> !Idle(h) && s.c.sending == Some(h.sending)
  {
    h := Reached(s, i);
  }

  /** The interval, taken apart: the host when the switch is reached, the context it finds, and what is decided. */
  lemma Parts(s: Sys, i: Input) returns (h: Host, c: Ctx, act: Act, d: Ctx)
    requires Coupled(s) && Plausible(i) && Interval(s, i).Going?
    ensures ValidHost(h) && h == Reached(s, i) && Joint(h, c) && c == Heard(s, i)
    ensures Interlude(s.c, c) && StreamsDo(h, c, act, d) && Proper(Bare(i, act))
    ensures var g := Interval(s, i).s.h;
      && HostDoes(h, act, g) && Interval(s, i).s.c == d.(transmitting := Transmitting(g.tx.state))
      && HostInterval(h, Bare(i, act)) == (g, Interval(s, i).ev)
  {
    h := LaterHost(s, i);
    HeardValid(s, i);
    c := Heard(s, i);
    DirectedCases(h, c);
    var t := Directed(h, c);
    act, d := t.act, t.c;
    HostSide(h, i.d2p, act);
    hide HostInterval, Service, SofDesc, Turned, Reached, Heard, Used, ValidCtx, Sub32, Sendable, Directed, ValidHost,
      Later, StreamsDo,
      HostDoes, Interlude;
  }

  /** The coupling is kept. */
  lemma IntervalCoupled(s: Sys, i: Input)
    requires Coupled(s) && Plausible(i) && Interval(s, i).Going?
    ensures Coupled(Interval(s, i).s)
  {
    hide Interval, Later, Turned, Heard, Interlude;
    var h, c, act, d := Parts(s, i);
    CoupledAfter(h, c, act, d, Interval(s, i).s.h);
  }

  lemma CoupledAfter(h: Host, c: Ctx, act: Act, d: Ctx, g: Host)
    requires Joint(h, c) && StreamsDo(h, c, act, d) && HostDoes(h, act, g)
    ensures Joint(g, d.(transmitting := Transmitting(g.tx.state)))
  {
    FlagValid(d, Transmitting(g.tx.state));
    hide Service, SofDesc, Used, ValidCtx, Sub32, ValidHost, Provided, Interlude;
  }

  lemma FlagValid(c: Ctx, b: bool)
    requires ValidCtx(c)
    ensures ValidCtx(c.(transmitting := b)) && Interlude(c, c.(transmitting := b))
  {
    hide Toggles, StreamsOk, RxShape;
  }

  // ---- Runs of the system ----------------------------------------------------------------------------------

  /** Intervals in a row; the events of the monitor are joined. */
  function SysRun(s: Sys, ins: seq<Input>): (r: Result)
    requires Coupled(s) && AllPlausible(ins)
    ensures r.Going? ==> Coupled(r.s)
    decreases |ins|
  {
    if ins == [] then Going(s, [])
    else
      match Interval(s, ins[0])
      case Stopped => Stopped
      case Going(t, e) =>
        IntervalCoupled(s, ins[0]);
        match SysRun(t, ins[1..])
        case Stopped => Stopped
        case Going(u, f) => Going(u, e + f)
  }

  /** A step of a run, or a frame that begins when the last one has run out and the driver is idle. */
  predicate SystemStep(c: Ctx, d: Ctx)
    requires ValidCtx(c)
  {
    Step(c, d) || (Restarts(c, d) && AtBoundary(c))
  }

  predicate SystemRun(cs: seq<Ctx>) {
    && |cs| >= 1 && (forall k :: 0 <= k < |cs| ==> ValidCtx(cs[k]))
    && forall k :: 0 <= k < |cs| - 1 ==> SystemStep(cs[k], cs[k + 1])
  }

  predicate Unanswered(c: Ctx) { c.hostSt == HS_WAITACK || c.hostSt == HS_ERROR }

  /** It is a run of StreamRuns unless a frame interrupts an awaited answer. */
  lemma SystemIsRun(cs: seq<Ctx>)
    requires SystemRun(cs)
    requires forall k :: 0 <= k < |cs| && Unanswered(cs[k]) ==> !AtBoundary(cs[k])
    ensures Run(cs)
  {
    hide ValidCtx, AtBoundary, Service;
    forall k | 0 <= k < |cs| - 1
      ensures Step(cs[k], cs[k + 1])
    {
      if Restarts(cs[k], cs[k + 1]) && AtBoundary(cs[k]) {
        assert ValidCtx(cs[k + 1]);
      }
    }
  }

  /** The contexts of one interval. */
  lemma IntervalTrace(s: Sys, i: Input) returns (cs: seq<Ctx>)
    requires Coupled(s) && Plausible(i) && Interval(s, i).Going?
    ensures SystemRun(cs) && cs[0] == s.c && cs[|cs| - 1] == Interval(s, i).s.c
  {
    var h, c, act, d := Parts(s, i);
    var p := if !Recovering(h) && Idle(h) && !FrameDue(h) then Provided(c) else c;
    var e := Interval(s, i).s.c;
    hide Interval, Later, Turned, Heard, HostDoes;
    Decided(h, c, act, d, p);
    FlagValid(d, e.transmitting);
    hide ValidCtx, SystemStep, SystemRun, Interlude, StreamsDo, Coupled, Service;
    Interluding(s.c, c);
    Interluding(d, e);
    cs := FiveSteps(s.c, c, p, d, e);
  }

  lemma FiveSteps(a: Ctx, b: Ctx, c: Ctx, d: Ctx, e: Ctx) returns (cs: seq<Ctx>)
    requires ValidCtx(a) && ValidCtx(b) && ValidCtx(c) && ValidCtx(d) && ValidCtx(e)
    requires SystemStep(a, b) && SystemStep(b, c) && SystemStep(c, d) && SystemStep(d, e)
    ensures SystemRun(cs) && cs == [a, b, c, d, e]
  {
    hide ValidCtx, SystemStep;
    cs := [a, b, c, d, e];
  }

  lemma Interluding(c: Ctx, d: Ctx)
    requires ValidCtx(c) && Interlude(c, d)
    ensures ValidCtx(d) && SystemStep(c, d)
  {
    hide ValidCtx, Service;
  }

  lemma Decided(h: Host, c: Ctx, act: Act, d: Ctx, p: Ctx)
    requires Joint(h, c) && StreamsDo(h, c, act, d)
    requires p == if !Recovering(h) && Idle(h) && !FrameDue(h) then Provided(c) else c
    ensures ValidCtx(p) && ValidCtx(d) && SystemStep(c, p) && SystemStep(p, d)
  {
    ProvidedValid(c);
    RestartValid(h, c);
    FlagValid(c, c.transmitting);
    assert c.(transmitting := c.transmitting) == c;
    hide ValidCtx, Service, Sub32, ValidHost, Used, SofDesc;
  }

  lemma Joined(a: seq<Ctx>, b: seq<Ctx>) returns (cs: seq<Ctx>)
    requires SystemRun(a) && SystemRun(b) && a[|a| - 1] == b[0]
    ensures SystemRun(cs) && cs[0] == a[0] && cs[|cs| - 1] == b[|b| - 1]
  {
    hide ValidCtx, SystemStep;
    cs := a + b[1..];
    forall k | 0 <= k < |cs| - 1
      ensures SystemStep(cs[k], cs[k + 1])
    {
      if k >= |a| - 1 {
        assert cs[k] == b[k - |a| + 1] && cs[k + 1] == b[k - |a| + 2];
      }
    }
  }

  /** Whatever the device drives and whenever it does, the contexts of the streams form a run in which a frame begins
      only when the last one has run out and the driver is idle; and the driver is sending what they have handed
      over. */
  lemma {:induction false} SystemTrace(s: Sys, ins: seq<Input>) returns (cs: seq<Ctx>)
    requires Coupled(s) && AllPlausible(ins) && SysRun(s, ins).Going?
    ensures SystemRun(cs) && cs[0] == s.c && cs[|cs| - 1] == SysRun(s, ins).s.c && Coupled(SysRun(s, ins).s)
    decreases |ins|
  {
    if ins == [] {
      cs := [s.c];
    } else {
      IntervalCoupled(s, ins[0]);
      hide Coupled, Interval, SystemRun, Plausible;
      var a := IntervalTrace(s, ins[0]);
      var b := SystemTrace(Interval(s, ins[0]).s, ins[1..]);
      Ends(a);
      Ends(b);
      cs := Joined(a, b);
    }
  }

  lemma Ends(cs: seq<Ctx>)
    requires SystemRun(cs)
    ensures |cs| >= 1
  {}

  // ---- A reply on the wire -----------------------------------------------------------------------------

  /** The device leaves the wires alone. */
  predicate Hushed(ins: seq<Input>, dnpu: bool, rx: bool) {
    forall k :: 0 <= k < |ins| ==>
      Plausible(ins[k]) && !ins[k].d2p.Driving() && ins[k].d2p.dnpu == dnpu && ins[k].d2p.rxEnable == rx
  }

  function Bares(ins: seq<Input>): (r: seq<In>)
    ensures |r| == |ins|
  {
    seq(|ins|, k requires 0 <= k < |ins| => Bare(ins[k], Quiet))
  }

  lemma BaresSilent(ins: seq<Input>, dnpu: bool, rx: bool)
    requires Hushed(ins, dnpu, rx)
    ensures HostRoundTrip.Silent(Bares(ins), dnpu, rx) && AllPlausible(ins)
    ensures ins != [] ==> Bares(ins)[0] == Bare(ins[0], Quiet) && Bares(ins)[1..] == Bares(ins[1..])
    ensures ins != [] ==> Hushed(ins[1..], dnpu, rx)
  {}

  /** The streams are where they were; only time has passed. */
  predicate Waits(c: Ctx, d: Ctx) {
    d == c.(recving := d.recving, lastPid := d.lastPid, tickBits := d.tickBits, transmitting := d.transmitting)
  }

  /** While the driver is sending the streams are not served. */
  lemma BusyInterval(s: Sys, i: Input)
    requires Coupled(s) && Plausible(i) && s.c.transmitting && !Recovering(Later(s.h))
    ensures ValidHost(Later(s.h)) && Interval(s, i).Going? && Waits(s.c, Interval(s, i).s.c)
    ensures HostInterval(Later(s.h), Bare(i, Quiet)) == (Interval(s, i).s.h, Interval(s, i).ev)
  {
    var h := LaterHost(s, i);
    HeardValid(s, i);
    hide HostInterval, Service, ValidCtx, Sub32, Used, SofDesc, Interlude, Sendable;
  }

  /** So the system does what the host function does alone. */
  lemma {:induction false} SendingRun(s: Sys, ins: seq<Input>, dnpu: bool, rx: bool, p: HostDriver.At, l: Line)
    requires Coupled(s) && Hushed(ins, dnpu, rx) && HostRoundTrip.Awake(s.h, |ins|)
    requires HostDriver.Position(s.h.sending, p) && HostDriver.Where(s.h.tx, s.h.sending, dnpu, p)
    requires Shows(s.h.tx.driving, dnpu, l) && |ins| <= |HostDriver.Rest(s.h.sending, p)|
    ensures HostRoundTrip.Silent(Bares(ins), dnpu, rx) && AllPlausible(ins) && SysRun(s, ins).Going?
    ensures HostRun(s.h, Bares(ins)) == (SysRun(s, ins).s.h, SysRun(s, ins).ev) && Waits(s.c, SysRun(s, ins).s.c)
    decreases |ins|
  {
    BaresSilent(ins, dnpu, rx);
    if ins != [] {
      HostDriver.EndRestsEmpty(s.h.sending, p);
      HostRoundTrip.PositionTransmits(s.h, dnpu, p);
      AwakeNext(s.h, |ins|);
      BusyInterval(s, ins[0]);
      SysRunNext(s, ins);
      HostRoundTrip.HostRunNext(s.h, Bares(ins), dnpu, rx);
      hide SysRun, Coupled, Interval, HostInterval, HostRun, HostRoundTrip.Awake, HostRoundTrip.Silent, Shows,
        Plausible, HostDriver.Where, HostDriver.Position, HostDriver.Rest, Hushed, Bares;
      var g := HostRoundTrip.NextInterval(s.h, Bares(ins), dnpu, rx, p, l);
      SendingRun(Interval(s, ins[0]).s, ins[1..], dnpu, rx, HostDriver.Next(s.h.sending, p),
                 HostDriver.Emit(s.h.sending, p));
    }
  }

  lemma SysRunNext(s: Sys, ins: seq<Input>)
    requires Coupled(s) && AllPlausible(ins) && ins != [] && Interval(s, ins[0]).Going?
    ensures Coupled(Interval(s, ins[0]).s) && AllPlausible(ins[1..])
    ensures var r := SysRun(Interval(s, ins[0]).s, ins[1..]);
      r.Going? ==> SysRun(s, ins) == Going(r.s, Interval(s, ins[0]).ev + r.ev)
  {
    IntervalCoupled(s, ins[0]);
    hide Interval, Coupled;
  }

  lemma AwakeNext(h: Host, n: nat)
    requires HostRoundTrip.Awake(h, n) && n > 0
    ensures !Recovering(Later(h))
  {}

  /** The context that streams_service finds in an interval, if it is called. */
  function Found(s: Sys, i: Input): Ctx
    requires Coupled(s)
  {
    Provided(Heard(s, i))
  }

  /** In this interval streams_service is called and builds the reply for stream id. */
  predicate Builds(s: Sys, i: Input, id: nat)
    requires Coupled(s) && Plausible(i) && id < MAX_STREAMS
  {
    var h, a := Reached(s, i), Found(s, i);
    && !Recovering(h) && Idle(h) && !FrameDue(h) && Interval(s, i).Going?
    && ValidCtx(a) && Live(a, id) && a.sending.Some? && Service(a).Next? && ValidCtx(Service(a).c)
    && MoveOf(ViewOf(a, id), ViewOf(Service(a).c, id)).Build?
  }

  /** The reply is made of the oldest packet kept, and more than 800 bit intervals of the frame are left. */
  predicate Built(a: Ctx, d: Ctx, id: nat)
    requires ValidCtx(a) && id < MAX_STREAMS
  {
    && a.queues[id] != [] && Kept(a.queues[id][0], a.streams[id].xfr) && ReplyFits(a.queues[id][0])
    && d.sending == Some(Reply(a.queues[id][0], a.streams[id], id, a.epOut[Ep(id)], a.devAddr))
    && IsToggle(a.epOut[Ep(id)]) && d.transmitting && TimeLeft(a) > MIN_TIME_LEFT
  }

  lemma OutBuilds(a: Ctx, id: nat)
    requires ValidCtx(a) && id < MAX_STREAMS && ServeOut(a).Next? && a.hostSt != HS_WAITACK
    requires ServeOut(a).c.hostSt == HS_WAITACK && ServeOut(a).c.streamOut == id
    ensures Built(a, ServeOut(a).c, id)
  {
    Lengths(a);
    Bounds(a);
    ToggleAt(a, id);
    StreamAt(a, id);
    hide ValidCtx, Reply, Kept, LfsrAt, TimeLeft, Scrambled, Payload, IsToggle, Toggles, StreamsOk, ReplyFits, NextId,
      OutState;
  }

  lemma AckWaits(a: Ctx)
    requires ValidCtx(a) && ServeAck(a).Next? && ServeAck(a).c.hostSt == HS_WAITACK
    ensures ServeAck(a).c.streamOut == a.streamOut
  {
    hide ValidCtx, AnswerTo, ToggleAdvance;
    Lengths(a);
  }

  lemma InWaitsNot(a: Ctx)
    requires ValidCtx(a) && ServeIn(a).Next?
    ensures ServeIn(a).c.hostSt != HS_WAITACK
  {
    Lengths(a);
    hide ValidCtx, TimeLeft, TokenBytes, NextId, Generated, InState, ToggleAdvance;
  }

  lemma ReplyWaitsNot(a: Ctx)
    requires ValidCtx(a) && a.hostSt == HS_ACKIFDATA && ServeReply(a).Next?
    ensures ServeReply(a).c.hostSt != HS_WAITACK
  {
    Lengths(a);
    ToggleAt(a, a.streamIn);
    hide ValidCtx, Toggles, StreamsOk, RxShape, Decide, IsToggle;
  }

  lemma BuiltReply(a: Ctx, id: nat)
    requires ValidCtx(a) && id < MAX_STREAMS && a.sending.Some? && Service(a).Next? && ValidCtx(Service(a).c)
    requires MoveOf(ViewOf(a, id), ViewOf(Service(a).c, id)).Build?
    ensures Built(a, Service(a).c, id)
  {
    hide ValidCtx, ServeOut, ServeAck, ServeIn, ServeReply, Built;
    match a.hostSt
    case HS_STARTFRAME => OutBuilds(a, id);
    case HS_STREAMOUT => OutBuilds(a, id);
    case HS_WAITACK =>
      if Service(a).c.hostSt == HS_WAITACK {
        AckWaits(a);
      }
    case HS_STREAMIN => InWaitsNot(a);
    case HS_ACKIFDATA => ReplyWaitsNot(a);
    case _ =>
  }

  /** The reply has been handed to the driver, in the very descriptor whose wave follows. */
  lemma BuiltSends(s: Sys, i: Input, id: nat)
    requires Coupled(s) && Plausible(i) && id < MAX_STREAMS && Builds(s, i, id)
    ensures var a, t := Found(s, i), Interval(s, i).s;
      && Coupled(t) && Built(a, t.c, id) && t.c.sending == Some(t.h.sending) && t.h.tx == HostDriver.Start(t.h.tx)
      && t.c == Service(a).c && t.h.tickBits == a.tickBits && t.h.frameStart == a.frameStart && Sendable(t.h.sending)
      && Sub32(a.tickBits, a.frameStart) < FRAME_INTERVAL
  {
    IntervalCoupled(s, i);
    var h, c, act, d := Parts(s, i);
    var a, t := Found(s, i), Interval(s, i).s;
    BuiltReply(a, id);
    HandedOver(h, c, act, d, t.h);
    hide ValidCtx, Interval, Later, Turned, Service, Built, Sub32;
  }

  lemma HandedOver(h: Host, c: Ctx, act: Act, d: Ctx, g: Host)
    requires Joint(h, c) && StreamsDo(h, c, act, d) && HostDoes(h, act, g)
    requires !Recovering(h) && Idle(h) && !FrameDue(h) && d.transmitting
    ensures d == Service(Provided(c)).c && g.tx == HostDriver.Start(g.tx) && Transmitting(g.tx.state)
      && g.tickBits == c.tickBits && g.frameStart == c.frameStart
  {
    hide ValidCtx, Service, Sub32, ValidHost, Used;
  }

  lemma PidOut()
    ensures !UsbMonitor.FiveOnes(PID_OUT)
  {}

  /** Over these intervals the system has sent the reply and done nothing else: its wave is on the wires, bit for bit,
      the frame is not over, and the answer is awaited with the streams as they were; and the monitor has called back
      for the two packets exactly, unless the device combines a D- pull-up with RX_ENABLE. */
  predicate Delivered(t: Sys, a: Ctx, id: nat, ins: seq<Input>, dnpu: bool, rx: bool)
    requires Coupled(t) && ValidCtx(a) && id < MAX_STREAMS && Built(a, t.c, id)
    requires Hushed(ins, dnpu, rx) && Sendable(t.h.sending)
  {
    BaresSilent(ins, dnpu, rx);
    var r, x, next, wires := SysRun(t, ins), a.queues[id][0], a.epOut[Ep(id)], HostRoundTrip.Driven(t.h, Bares(ins));
    && r.Going? && Waits(t.c, r.s.c) && !r.s.c.transmitting && r.s.h.tickBits - r.s.h.frameStart < FRAME_INTERVAL
    && HostRoundTrip.Carries(wires, dnpu, HostDriver.Wave(t.h.sending), HostDriver.Enables(t.h.sending))
    && (r.ev == UsbMonitor.PacketEvents(TokenBytes(PID_OUT, a.devAddr, Ep(id) as bv8))
                + UsbMonitor.PacketEvents(DataBytes(next, ReplyData(x, a.streams[id])))
        <==> !(dnpu && rx))
  }

  /** The device keeps quiet, and the line has settled, for as long as the transfer lasts. */
  predicate Undisturbed(t: Sys, ins: seq<Input>, dnpu: bool, rx: bool)
    requires ValidHost(t.h)
  {
    && Hushed(ins, dnpu, rx) && HostRoundTrip.Awake(t.h, |ins|) && Shows(t.h.tx.driving, dnpu, J)
    && UsbMonitor.BetweenPackets(t.h.mon) && t.h.frameStart <= t.h.tickBits
  }

  /** A reply that streams_service builds for a stream is delivered in the intervals that follow. */
  lemma ReplyOnTheWire(s: Sys, i: Input, id: nat, ins: seq<Input>, dnpu: bool, rx: bool)
    requires Coupled(s) && Plausible(i) && id < MAX_STREAMS && Builds(s, i, id)
    requires Coupled(Interval(s, i).s) && Undisturbed(Interval(s, i).s, ins, dnpu, rx)
    requires var x := Interval(s, i).s.h.sending; Sendable(x) ==> |ins| == |HostDriver.Wave(x)|
    ensures var a, t := Found(s, i), Interval(s, i).s;
      && Built(a, t.c, id) && t.c == Service(a).c && t.c.sending == Some(t.h.sending) && Sendable(t.h.sending)
      && Delivered(t, a, id, ins, dnpu, rx)
  {
    BuiltSends(s, i, id);
    var a, t := Found(s, i), Interval(s, i).s;
    hide Interval, Found, Built, Undisturbed, Builds, Delivered, Service, ValidCtx;
    TransferRun(t, ins, dnpu, rx, a, id);
  }

  lemma TransferRun(t: Sys, ins: seq<Input>, dnpu: bool, rx: bool, a: Ctx, id: nat)
    requires Coupled(t) && ValidCtx(a) && id < MAX_STREAMS && Built(a, t.c, id) && t.c.sending == Some(t.h.sending)
    requires t.h.tx == HostDriver.Start(t.h.tx) && t.h.tickBits == a.tickBits && t.h.frameStart == a.frameStart
    requires Undisturbed(t, ins, dnpu, rx) && Sendable(t.h.sending) && |ins| == |HostDriver.Wave(t.h.sending)|
    requires Sub32(a.tickBits, a.frameStart) < FRAME_INTERVAL
    ensures Delivered(t, a, id, ins, dnpu, rx)
  {
    var x, st, next := a.queues[id][0], a.streams[id], a.epOut[Ep(id)];
    TimeOf(a);
    StreamWire.ReplySendable(x, st, id, next, a.devAddr);
    PidOut();
    assert HostRoundTrip.AboutToSend(t.h, dnpu);
    Starts(t.h, dnpu);
    hide Reply, Kept, ReplyData, TokenBytes, DataBytes, HostDriver.Wave, HostDriver.Rest, HostRun, SysRun, ReplyFits,
      HostDriver.Where, HostDriver.Position, HostRoundTrip.AboutToSend, HostRoundTrip.Awake, Hushed, Bares, Shows;
    SendingRun(t, ins, dnpu, rx, HostDriver.AtSync(0, 0), J);
    StreamWire.ReplyHeard(t.h, Bares(ins), dnpu, rx, x, st, id, next, a.devAddr);
    HostRoundTrip.TransferHeard(t.h, Bares(ins), dnpu, rx);
  }

  lemma Starts(h: Host, dnpu: bool)
    requires HostRoundTrip.AboutToSend(h, dnpu)
    ensures var p := HostDriver.AtSync(0, 0);
      && HostDriver.Position(h.sending, p) && HostDriver.Where(h.tx, h.sending, dnpu, p)
      && HostDriver.Rest(h.sending, p) == HostDriver.Wave(h.sending)
  {
    HostDriver.StartsAtWave(h.sending);
  }

  lemma TimeOf(a: Ctx)
    requires ValidCtx(a) && TimeLeft(a) > MIN_TIME_LEFT && a.frameStart <= a.tickBits
    requires Sub32(a.tickBits, a.frameStart) < FRAME_INTERVAL
    ensures a.frameStart + FRAME_INTERVAL - a.tickBits > MIN_TIME_LEFT
  {}
}
