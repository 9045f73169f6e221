/** usbdpi_host_to_device: bit-interval clock, monitor, frame timing and transmitter together.  What
    the idle arm does (the test steps and the streaming service) enters as an input. */
module HostModel {
  import opened LineCode
  import opened Transfer
  import opened Wires
  import opened HostDriver
  import opened UsbMonitor

  const SENSE_AT: nat := 160
  const RECOVERY_TICKS: nat := 192

  /** What the idle arm decides: nothing to send, or a transfer handed to transfer_send. */
  datatype Act = Quiet | Begin(x: Desc)

  /** Inputs of one bit interval; `suspended` stands for the test steps without frame signalling. */
  datatype In = In(d2p: D2p, act: Act, suspended: bool)

  predicate Proper(i: In) { i.act.Begin? ==> Sendable(i.act.x) }

  datatype Host = Host(tick: nat, tickBits: nat, recoveryTime: nat, frame: nat, framepend: bool, frameStart: nat,
                       sending: Desc, tx: Tx, mon: Mon, lastrxpid: bv8)

  predicate ValidHost(h: Host) {
    h.tick < TWO32 && h.tickBits == h.tick / 4 && h.recoveryTime < TWO32 && h.frame < TWO16 && h.frameStart < TWO32
    && Valid(h.mon) && (Transmitting(h.tx.state) ==> Sendable(h.sending))
  }

  predicate Transmitting(s: DrvState) { s != ST_IDLE && s != ST_GET }

  /** The monitor records every valid PID it sees. */
  function PidAfter(ev: seq<Event>, before: bv8): bv8 {
    if |ev| == 1 && ev[0].Pid? && ValidPid(ev[0].pid) then ev[0].pid else before
  }

  /** Time for a new bus frame?  A frame can only start while nothing is being sent. */
  function FrameCheck(h: Host, suspended: bool): (r: Host)
    requires ValidHost(h)
    ensures ValidHost(r) && r.mon == h.mon
  {
    if Sub32(h.tickBits, h.frameStart) < FRAME_INTERVAL then h
    else if h.tx.state != ST_IDLE then h.(framepend := true)
    else
      var f := (h.frame + 1) % TWO16;
      var started := h.(framepend := false, frame := f, frameStart := h.tickBits);
      if suspended then started
      else started.(sending := SofDesc(f), tx := Start(h.tx))
  }

  /** The switch over the driver state. */
  function Arm(h: Host, d2p: D2p, act: Act): (r: Host)
    requires ValidHost(h) && (act.Begin? ==> Sendable(act.x))
    ensures ValidHost(r) && r.mon == h.mon
  {
    if h.tx.state == ST_IDLE then
      match act
      case Quiet => h
      case Begin(x) => h.(sending := x, tx := Start(h.tx))
    else h.(tx := TxStep(h.tx, h.sending, d2p))
  }

  function Sensed(h: Host): Host {
    if h.tickBits == SENSE_AT then h.(tx := h.tx.(driving := h.tx.driving.(sense := true))) else h
  }

  /** Every fourth clock. */
  function HostInterval(h: Host, i: In): (r: (Host, seq<Event>))
    requires ValidHost(h) && Proper(i)
    ensures ValidHost(r.0)
  {
    var (mon, ev) := MonStep(h.mon, Transmitting(h.tx.state), h.tx.driving, i.d2p);
    var h1 := Sensed(h.(mon := mon, lastrxpid := PidAfter(ev, h.lastrxpid)));
    if !i.d2p.Pullup() then
      (h1.(tx := h1.tx.(state := ST_IDLE), recoveryTime := (h.tick + RECOVERY_TICKS) % TWO32), ev)
    else if h.tick < h.recoveryTime then
      (h1.(tx := h1.tx.(state := ST_IDLE, driving := SetDriving(h1.tx.driving, i.d2p, J, false)),
           frameStart := h.tickBits), ev)
    else (Arm(FrameCheck(h1, i.suspended), i.d2p, i.act), ev)
  }

  function HostTick(h: Host, i: In): (r: (Host, seq<Event>))
    requires ValidHost(h) && Proper(i)
    ensures ValidHost(r.0)
  {
    var t := (h.tick + 1) % TWO32;
    var h1 := h.(tick := t, tickBits := t / 4);
    if t % 4 != 0 then (h1, []) else HostInterval(h1, i)
  }

  // ---- The idle arm's view of time -----------------------------------------------------------

  /** The call is one in which the idle arm runs, on the state the arm sees. */
  predicate IdleArmRuns(h: Host, i: In)
    requires ValidHost(h) && Proper(i)
  {
    h.tick % 4 == 0 && i.d2p.Pullup() && h.tick >= h.recoveryTime && AtArm(h, i).tx.state == ST_IDLE
  }

  function AtArm(h: Host, i: In): (r: Host)
    requires ValidHost(h)
    ensures ValidHost(r)
  {
    var (mon, ev) := MonStep(h.mon, Transmitting(h.tx.state), h.tx.driving, i.d2p);
    FrameCheck(Sensed(h.(mon := mon, lastrxpid := PidAfter(ev, h.lastrxpid))), i.suspended)
  }

  /** Whenever the idle arm runs, the current frame has not run out, whatever the 32-bit clock has
      done: the time left, frame_start + FRAME_INTERVAL - tick_bits in 32 bits, is the true distance
      to the frame boundary and lies in 1..FRAME_INTERVAL. */
  lemma IdleArmInsideFrame(h: Host, i: In)
    requires ValidHost(h) && Proper(i) && IdleArmRuns(h, i)
    ensures var a := AtArm(h, i);
            && Sub32(a.tickBits, a.frameStart) < FRAME_INTERVAL
            && Sub32((a.frameStart + FRAME_INTERVAL) % TWO32, a.tickBits)
               == FRAME_INTERVAL - Sub32(a.tickBits, a.frameStart)
  {
    var a := AtArm(h, i);
    assert Sub32(a.tickBits, a.tickBits) == 0;
    FrameDistance(a.tickBits, a.frameStart);
  }

  lemma FrameDistance(now: nat, start: nat)
    requires now < TWO32 && start < TWO32 && Sub32(now, start) < FRAME_INTERVAL
    ensures Sub32((start + FRAME_INTERVAL) % TWO32, now) == FRAME_INTERVAL - Sub32(now, start)
  {}

  // ---- Runs ------------------------------------------------------------------------------------

  /** The state one bit interval later on the clock, before the call's work. */
  function Later(h: Host): Host {
    var t := (h.tick + 4) % TWO32;
    h.(tick := t, tickBits := t / 4)
  }

  /** Bit intervals in a row. */
  function HostRun(h: Host, ins: seq<In>): (r: (Host, seq<Event>))
    requires ValidHost(h) && forall k :: 0 <= k < |ins| ==> Proper(ins[k])
    ensures ValidHost(r.0)
    decreases |ins|
  {
    if ins == [] then (h, [])
    else
      var (h1, e1) := HostInterval(Later(h), ins[0]);
      var (h2, e2) := HostRun(h1, ins[1..]);
      (h2, e1 + e2)
  }

  /** Four clock calls are one bit interval: the first three only count. */
  lemma FourTicks(h: Host, a: In, b: In, c: In, i: In)
    requires ValidHost(h) && Proper(a) && Proper(b) && Proper(c) && Proper(i) && h.tick % 4 == 0
    ensures var h1 := HostTick(h, a);
            var h2 := HostTick(h1.0, b);
            var h3 := HostTick(h2.0, c);
            h1.1 == [] && h2.1 == [] && h3.1 == [] && HostTick(h3.0, i) == HostInterval(Later(h), i)
  {
    hide HostInterval, HostTick, Valid, Sendable, Transmitting;
    NextTicks(h.tick);
    var h1, h2, h3 := Ticked(h, 1), Ticked(h, 2), Ticked(h, 3);
    OnlyCounts(h, h1, a);
    OnlyCounts(h1, h2, b);
    OnlyCounts(h2, h3, c);
    Worked(h3, h, i);
  }

  lemma NextTicks(t: nat)
    requires t < TWO32 && t % 4 == 0
    ensures t + 3 < TWO32 && (t + 1) % 4 == 1 && (t + 2) % 4 == 2 && (t + 3) % 4 == 3 && ((t + 4) % TWO32) % 4 == 0
  {}

  lemma OnlyCounts(h: Host, h1: Host, i: In)
    requires ValidHost(h) && Proper(i) && h.tick + 1 < TWO32 && (h.tick + 1) % 4 != 0 && h1 == Ticked(h, 1)
    ensures ValidHost(h1) && HostTick(h, i) == (h1, [])
  {
    hide HostInterval;
  }

  lemma Worked(h3: Host, h: Host, i: In)
    requires ValidHost(h3) && ValidHost(h) && Proper(i) && h3 == Ticked(h, 3) && ((h.tick + 4) % TWO32) % 4 == 0
    ensures HostTick(h3, i) == HostInterval(Later(h), i)
  {
    hide HostInterval;
  }

  function Ticked(h: Host, n: nat): Host {
    h.(tick := h.tick + n, tickBits := (h.tick + n) / 4)
  }
}
