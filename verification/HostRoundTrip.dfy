/** What the monitor makes of the host's own transfers: the transmitter and the receiver of the C
    model, stepped together through usbdpi_host_to_device. */
module HostRoundTrip {
  import opened BitSeq
  import opened LineCode
  import opened Words
  import opened Transfer
  import opened Wires
  import opened HostDriver
  import opened UsbMonitor
  import opened HostModel

  /** The callbacks a transfer has to cause: its bytes, packet by packet. */
  function TransferEvents(x: Desc): seq<Event> {
    if TwoPackets(x) then PacketEvents(x.bytes[..x.dataStart]) + PacketEvents(x.bytes[x.dataStart..])
    else PacketEvents(x.bytes)
  }

  // ---- The monitor on a whole wave -------------------------------------------------------------

  lemma QuietJ(m: Mon)
    requires BetweenPackets(m)
    ensures MonRun(m, [J]).1 == [] && BetweenPackets(MonRun(m, [J]).0)
    ensures MonRun(m, [J]).0.rawbits == m.rawbits && MonRun(m, [J]).0.asm == m.asm
  {
    assert MonSample(m, JS) == (m.(line := Shift(m.line, JS)), []);
    hide MonSample;
    assert [J][1..] == [];
    assert MonRun(m, [J]).1 == MonSample(m, JS).1 + MonRun(m.(line := Shift(m.line, JS)), []).1;
  }

  lemma JThenPacket(m: Mon, bytes: seq<bv8>, flush: bool)
    requires BetweenPackets(m) && (bytes != [] ==> Trailing(m.rawbits, 1) || !FiveOnes(bytes[0]))
    ensures var r := MonRun(m, [J] + Packet(BytesBits(bytes), flush));
            r.1 == PacketEvents(bytes) && BetweenPackets(r.0) && Trailing(r.0.rawbits, 1)
  {
    QuietJ(m);
    hide *;
    var m1 := MonRun(m, [J]).0;
    PacketReceived(m1, bytes, flush);
    MonRunConcat(m, [J], Packet(BytesBits(bytes), flush));
  }

  /** The line states the monitor samples while a transfer is sent: the idle J first, the closing
      undriven J not. */
  lemma WaveReceived(m: Mon, x: Desc)
    requires BetweenPackets(m) && Sendable(x) && (Trailing(m.rawbits, 1) || !FiveOnes(x.bytes[0]))
    ensures var r := MonRun(m, ([J] + Wave(x))[..|Wave(x)|]);
            r.1 == TransferEvents(x) && BetweenPackets(r.0) && Trailing(r.0.rawbits, 1)
  {
    SampledWave(x);
    hide Packet, MonRun, PacketEvents, BetweenPackets, Trailing, BytesBits;
    if TwoPackets(x) {
      var a, b := x.bytes[..x.dataStart], x.bytes[x.dataStart..|x.bytes|];
      assert a[0] == x.bytes[0] && b == x.bytes[x.dataStart..];
      JThenPacket(m, a, false);
      var first := [J] + Packet(BytesBits(a), false);
      var m1 := MonRun(m, first).0;
      JThenPacket(m1, b, true);
      MonRunConcat(m, first, [J] + Packet(BytesBits(b), true));
    } else {
      JThenPacket(m, x.bytes, true);
    }
  }

  lemma SampledWave(x: Desc)
    requires Sendable(x)
    ensures ([J] + Wave(x))[..|Wave(x)|] ==
            if TwoPackets(x) then
              ([J] + Packet(BytesBits(x.bytes[..x.dataStart]), false)) +
              ([J] + Packet(BytesBits(x.bytes[x.dataStart..|x.bytes|]), true))
            else [J] + Packet(BytesBits(x.bytes), true)
  {
    hide Packet;
    assert x.bytes[0..|x.bytes|] == x.bytes;
  }

  // ---- The host, interval by interval ----------------------------------------------------------

  /** The device is attached, silent and keeps its pull-up and RX_ENABLE. */
  predicate Silent(ins: seq<In>, dnpu: bool, rx: bool) {
    forall k :: 0 <= k < |ins| ==>
      Proper(ins[k]) && ins[k].d2p.dnpu == dnpu && ins[k].d2p.rxEnable == rx && ins[k].d2p.Pullup()
        && !ins[k].d2p.Driving()
  }

  /** Past the recovery time, with n more intervals before the clock wraps. */
  predicate Awake(h: Host, n: nat) {
    h.recoveryTime <= h.tick && h.tick + 4 * n < TWO32
  }

  function Seen(inverted: bool, w: seq<Line>): (r: seq<Line>)
    ensures |r| == |w| && forall k :: 0 <= k < |w| ==> r[k] == if inverted then Flip(w[k]) else w[k]
  {
    seq(|w|, k requires 0 <= k < |w| => if inverted then Flip(w[k]) else w[k])
  }

  lemma SampleSeen(p: P2d, d2p: D2p, l: Line)
    requires Shows(p, d2p.dnpu, l) && !d2p.Driving()
    ensures SampleWires(p, d2p) == SampleOf(if d2p.dnpu && d2p.rxEnable then Flip(l) else l)
  {}

  /** While a transfer is being sent a call is one monitor step and one transmitter step. */
  lemma IntervalShape(h: Host, i: In)
    requires ValidHost(h) && Proper(i) && Awake(h, 1) && i.d2p.Pullup() && Transmitting(h.tx.state)
    ensures var r := HostInterval(Later(h), i);
            && r.0.tx == TxStep(SenseTx(h), h.sending, i.d2p)
            && r.0.mon == MonStep(h.mon, true, h.tx.driving, i.d2p).0
            && r.1 == MonStep(h.mon, true, h.tx.driving, i.d2p).1
            && r.0.sending == h.sending && r.0.recoveryTime == h.recoveryTime && r.0.frameStart == h.frameStart
            && r.0.tick == h.tick + 4
  {
    hide TxStep, MonStep, Start, Sub32, SetDriving, SofDesc;
    assert (h.tick + 4) % TWO32 == h.tick + 4;
  }

  function SenseTx(h: Host): Tx
    requires ValidHost(h)
  {
    Sensed(Later(h)).tx
  }

  lemma SenseKeeps(h: Host, x: Desc, dnpu: bool, p: At, l: Line)
    requires ValidHost(h) && Where(h.tx, x, dnpu, p)
    ensures Where(SenseTx(h), x, dnpu, p) && (Shows(h.tx.driving, dnpu, l) ==> Shows(SenseTx(h).driving, dnpu, l))
  {}

  lemma DrivenStep(h: Host, i: In, l: Line)
    requires ValidHost(h) && !i.d2p.Driving() && Shows(h.tx.driving, i.d2p.dnpu, l)
    ensures MonStep(h.mon, true, h.tx.driving, i.d2p)
         == MonSample(h.mon, SampleOf(if i.d2p.dnpu && i.d2p.rxEnable then Flip(l) else l))
  {
    SampleSeen(h.tx.driving, i.d2p, l);
    hide MonSample, SampleWires, Shows;
  }

  lemma PositionTransmits(h: Host, dnpu: bool, p: At)
    requires ValidHost(h) && p != AtEnd && Where(h.tx, h.sending, dnpu, p)
    ensures Transmitting(h.tx.state)
  {}

  lemma TransmitInterval(h: Host, i: In, p: At, l: Line)
    requires ValidHost(h) && Proper(i) && Awake(h, 1) && i.d2p.Pullup() && !i.d2p.Driving()
    requires Position(h.sending, p) && p != AtEnd && Where(h.tx, h.sending, i.d2p.dnpu, p)
    requires Shows(h.tx.driving, i.d2p.dnpu, l)
    ensures var r := HostInterval(Later(h), i);
            && Where(r.0.tx, h.sending, i.d2p.dnpu, Next(h.sending, p))
            && Shows(r.0.tx.driving, i.d2p.dnpu, Emit(h.sending, p)) && r.0.tx.driving.oe == Drives(p)
            && r.0.sending == h.sending && r.0.recoveryTime == h.recoveryTime && r.0.frameStart == h.frameStart
            && r.0.tick == h.tick + 4
            && var m := MonSample(h.mon, SampleOf(if i.d2p.dnpu && i.d2p.rxEnable then Flip(l) else l));
               r.0.mon == m.0 && r.1 == m.1
  {
    PositionTransmits(h, i.d2p.dnpu, p);
    hide *;
    IntervalShape(h, i);
    SenseKeeps(h, h.sending, i.d2p.dnpu, p, l);
    Follows(SenseTx(h), h.sending, i.d2p, p);
    DrivenStep(h, i, l);
  }

  /** What the calls return: the wires the host drives, interval by interval. */
  function Driven(h: Host, ins: seq<In>): (r: seq<P2d>)
    requires ValidHost(h) && forall k :: 0 <= k < |ins| ==> Proper(ins[k])
    ensures |r| == |ins|
    decreases |ins|
  {
    if ins == [] then []
    else
      var h1 := HostInterval(Later(h), ins[0]).0;
      [h1.tx.driving] + Driven(h1, ins[1..])
  }

  lemma DrivenNext(h: Host, ins: seq<In>, dnpu: bool, rx: bool)
    requires ValidHost(h) && Silent(ins, dnpu, rx) && ins != []
    ensures ValidHost(Later(h)) && Proper(ins[0]) && Silent(ins[1..], dnpu, rx)
    ensures forall k :: 0 <= k < |ins[1..]| ==> Proper(ins[1..][k])
    ensures var h1 := HostInterval(Later(h), ins[0]).0; Driven(h, ins) == [h1.tx.driving] + Driven(h1, ins[1..])
  {
    hide HostInterval;
  }

  lemma HostRunNext(h: Host, ins: seq<In>, dnpu: bool, rx: bool)
    requires ValidHost(h) && Silent(ins, dnpu, rx)
    ensures Valid(h.mon) && ValidHost(Later(h))
    ensures ins == [] ==> HostRun(h, ins).0 == h && HostRun(h, ins).1 == []
    ensures ins != [] ==>
              && Proper(ins[0]) && ins[0].d2p.dnpu == dnpu && ins[0].d2p.rxEnable == rx
              && ins[0].d2p.Pullup() && !ins[0].d2p.Driving() && Silent(ins[1..], dnpu, rx)
              && var (h1, e1) := HostInterval(Later(h), ins[0]);
                 var (h2, e2) := HostRun(h1, ins[1..]);
                 HostRun(h, ins).0 == h2 && HostRun(h, ins).1 == e1 + e2
  {
    hide HostInterval;
  }

  /** The first n samples when the line shows l and `rest` is still to come. */
  function Samples(inverted: bool, l: Line, rest: seq<Line>, n: nat): (r: seq<Line>)
    requires n <= |rest|
    ensures |r| == n
  {
    Seen(inverted, ([l] + rest)[..n])
  }

  lemma SamplesNext(inverted: bool, l: Line, rest: seq<Line>, e: Line, tail: seq<Line>, n: nat)
    requires rest == [e] + tail && n <= |tail|
    ensures var w := Samples(inverted, l, rest, n + 1);
            w[0] == (if inverted then Flip(l) else l) && w[1..] == Samples(inverted, e, tail, n)
  {}

  /** Everything an interval of a run hands to the rest of the run. */
  lemma NextInterval(h: Host, ins: seq<In>, dnpu: bool, rx: bool, p: At, l: Line) returns (g: Host)
    requires ValidHost(h) && Silent(ins, dnpu, rx) && Awake(h, |ins|) && ins != []
    requires Position(h.sending, p) && Where(h.tx, h.sending, dnpu, p) && Shows(h.tx.driving, dnpu, l)
    requires |ins| <= |Rest(h.sending, p)|
    ensures p != AtEnd && ValidHost(g) && Silent(ins[1..], dnpu, rx) && Awake(g, |ins[1..]|) && g.sending == h.sending
    ensures ValidHost(Later(h)) && g == HostInterval(Later(h), ins[0]).0
    ensures Where(g.tx, g.sending, dnpu, Next(h.sending, p)) && Shows(g.tx.driving, dnpu, Emit(h.sending, p))
    ensures Rest(h.sending, p) == [Emit(h.sending, p)] + Rest(h.sending, Next(h.sending, p))
    ensures g.frameStart == h.frameStart && g.tick == h.tick + 4
    ensures forall k :: 0 <= k < |ins[1..]| ==> Proper(ins[1..][k])
    ensures g.tx.driving.oe == Drives(p) && Driven(h, ins) == [g.tx.driving] + Driven(g, ins[1..])
    ensures HostRun(h, ins).0 == HostRun(g, ins[1..]).0
    ensures var m := MonSample(h.mon, SampleOf(if dnpu && rx then Flip(l) else l));
            g.mon == m.0 && HostRun(h, ins).1 == m.1 + HostRun(g, ins[1..]).1
  {
    AwakeNow(h, |ins|);
    hide *;
    HostRunNext(h, ins, dnpu, rx);
    DrivenNext(h, ins, dnpu, rx);
    EndRestsEmpty(h.sending, p);
    Unrolls(h.sending, p);
    TransmitInterval(h, ins[0], p, l);
    g := HostInterval(Later(h), ins[0]).0;
    StillAwake(h, g, |ins|);
  }

  /** The wires carry the line states, driven or not. */
  predicate Carries(driven: seq<P2d>, dnpu: bool, w: seq<Line>, oe: seq<bool>) {
    |driven| <= |w| == |oe|
    && forall k :: 0 <= k < |driven| ==> Shows(driven[k], dnpu, w[k]) && driven[k].oe == oe[k]
  }

  lemma CarriesCons(p: P2d, driven: seq<P2d>, dnpu: bool, l: Line, w: seq<Line>, b: bool, oe: seq<bool>)
    requires Carries(driven, dnpu, w, oe) && Shows(p, dnpu, l) && p.oe == b
    ensures Carries([p] + driven, dnpu, [l] + w, [b] + oe)
  {
    hide Shows;
  }

  /** In every interval of a transfer the whole host function drives, or leaves undriven, exactly the line state
      that is due, while the device is silent. */
  lemma {:induction false} HostTransmits(h: Host, ins: seq<In>, dnpu: bool, rx: bool, p: At, l: Line) returns (q: At)
    requires ValidHost(h) && Silent(ins, dnpu, rx) && Awake(h, |ins|)
    requires Position(h.sending, p) && Where(h.tx, h.sending, dnpu, p) && Shows(h.tx.driving, dnpu, l)
    requires |ins| <= |Rest(h.sending, p)|
    ensures var g := HostRun(h, ins).0;
            && Position(h.sending, q) && Where(g.tx, h.sending, dnpu, q)
              && Rest(h.sending, q) == Rest(h.sending, p)[|ins|..]
            && g.frameStart == h.frameStart && g.tick == h.tick + 4 * |ins|
    ensures Carries(Driven(h, ins), dnpu, Rest(h.sending, p), RestEnables(h.sending, p))
    decreases |ins|
  {
    hide *;
    if ins == [] {
      HostRunNext(h, ins, dnpu, rx);
      q := p;
      assert Rest(h.sending, p)[0..] == Rest(h.sending, p);
      NothingCarried(Driven(h, ins), dnpu, Rest(h.sending, p), RestEnables(h.sending, p));
    } else {
      var g := NextInterval(h, ins, dnpu, rx, p, l);
      var m := Next(h.sending, p);
      q := HostTransmits(g, ins[1..], dnpu, rx, m, Emit(h.sending, p));
      EnablesUnroll(h.sending, p);
      CarriesCons(g.tx.driving, Driven(g, ins[1..]), dnpu, Emit(h.sending, p), Rest(h.sending, m), Drives(p),
                  RestEnables(h.sending, m));
    }
  }

  lemma NothingCarried(driven: seq<P2d>, dnpu: bool, w: seq<Line>, oe: seq<bool>)
    requires driven == [] && |w| == |oe|
    ensures Carries(driven, dnpu, w, oe)
  {}

  /** The monitor sees the driver's line states one interval late, and nothing else. */
  lemma {:induction false} MonitorListens(h: Host, ins: seq<In>, dnpu: bool, rx: bool, p: At, l: Line)
    requires ValidHost(h) && Silent(ins, dnpu, rx) && Awake(h, |ins|)
    requires Position(h.sending, p) && Where(h.tx, h.sending, dnpu, p) && Shows(h.tx.driving, dnpu, l)
    requires |ins| <= |Rest(h.sending, p)|
    ensures Valid(h.mon)
    ensures var m := MonRun(h.mon, Samples(dnpu && rx, l, Rest(h.sending, p), |ins|));
            HostRun(h, ins).0.mon == m.0 && HostRun(h, ins).1 == m.1
    decreases |ins|
  {
    var rest, inverted := Rest(h.sending, p), dnpu && rx;
    hide *;
    HostRunNext(h, ins, dnpu, rx);
    if ins == [] {
      NothingSeen(h.mon, Samples(inverted, l, rest, 0));
    } else {
      var g := NextInterval(h, ins, dnpu, rx, p, l);
      var next, e, later := Next(h.sending, p), Emit(h.sending, p), ins[1..];
      assert |ins| == |later| + 1;
      MonitorListens(g, later, dnpu, rx, next, e);
      SampledRun(h.mon, inverted, l, rest, e, Rest(h.sending, next), |later|);
    }
  }

  /** The monitor's run, one sample at a time. */
  lemma SampledRun(m: Mon, inverted: bool, l: Line, rest: seq<Line>, e: Line, tail: seq<Line>, n: nat)
    requires Valid(m) && rest == [e] + tail && n <= |tail|
    ensures var (m1, e1) := MonSample(m, SampleOf(if inverted then Flip(l) else l));
      var r, s := MonRun(m1, Samples(inverted, e, tail, n)), MonRun(m, Samples(inverted, l, rest, n + 1));
      s.0 == r.0 && s.1 == e1 + r.1
  {
    hide *;
    SamplesNext(inverted, l, rest, e, tail, n);
    MonRunNext(m, Samples(inverted, l, rest, n + 1));
  }

  lemma AwakeNow(h: Host, n: nat)
    requires Awake(h, n)
    ensures n > 0 ==> Awake(h, 1)
  {}

  lemma NothingSeen(m: Mon, w: seq<Line>)
    requires Valid(m) && w == []
    ensures MonRun(m, w).0 == m && MonRun(m, w).1 == []
  {}

  lemma StillAwake(h: Host, g: Host, n: nat)
    requires Awake(h, n) && n > 0 && g.recoveryTime == h.recoveryTime && g.tick == h.tick + 4
    ensures Awake(g, n - 1)
  {}

  lemma MonRunNext(m: Mon, w: seq<Line>)
    requires Valid(m) && w != []
    ensures var (m1, e1) := MonSample(m, SampleOf(w[0]));
            var (m2, e2) := MonRun(m1, w[1..]);
            MonRun(m, w).0 == m2 && MonRun(m, w).1 == e1 + e2
  {
    hide MonSample;
  }

  // ---- The inverted orientation ------------------------------------------------------------------

  /** After an SE0 the wave goes on with another SE0 or with J. */
  predicate SettlesToJ(w: seq<Line>) {
    forall k :: 0 < k < |w| && w[k - 1] == SE0 ==> w[k] != K
  }

  lemma {:induction false} RestSettles(x: Desc, p: At)
    requires Position(x, p)
    ensures SettlesToJ(Rest(x, p))
    decreases |Rest(x, p)|
  {
    if p == AtEnd {
      EndRestsEmpty(x, p);
    } else {
      hide *;
      EndRestsEmpty(x, p);
      Unrolls(x, p);
      var q := Next(x, p);
      RestSettles(x, q);
      EndRestsEmpty(x, q);
      if q != AtEnd {
        Unrolls(x, q);
        NeverSE0ThenK(x, p);
      }
      SettlesCons(Emit(x, p), Rest(x, q));
    }
  }

  lemma SettlesCons(l: Line, w: seq<Line>)
    requires SettlesToJ(w) && (w != [] && l == SE0 ==> w[0] != K)
    ensures SettlesToJ([l] + w)
  {}

  lemma NeverSE0ThenK(x: Desc, p: At)
    requires Position(x, p) && p != AtEnd && Next(x, p) != AtEnd
    ensures Emit(x, p) == SE0 ==> Emit(x, Next(x, p)) != K
  {}

  predicate NoEop(e: seq<Event>) {
    Eop !in e
  }

  /** Read inverted, no SE0 is ever followed by a J, so no end of packet is ever reported. */
  lemma {:induction false} InvertedNeverEnds(m: Mon, w: seq<Line>, prev: Line)
    requires Valid(m) && SettlesToJ([prev] + w) && m.line[0] == SampleOf(Flip(prev))
    ensures NoEop(MonRun(m, Seen(true, w)).1)
    decreases |w|
  {
    var s := Seen(true, w);
    if w != [] {
      assert ([prev] + w)[0] == prev && ([prev] + w)[1] == w[0];
      var (m1, e1) := MonSample(m, SampleOf(Flip(w[0])));
      assert m1.line[0] == SampleOf(Flip(w[0])) && Eop !in e1;
      hide MonSample;
      assert s[1..] == Seen(true, w[1..]);
      assert SettlesToJ([w[0]] + w[1..]) by {
        assert [w[0]] + w[1..] == ([prev] + w)[1..];
      }
      InvertedNeverEnds(m1, w[1..], w[0]);
    }
  }

  // ---- The theorem -----------------------------------------------------------------------------------

  /** A transfer just handed over by transfer_send while the line rests at J, to a monitor between
      packets that has seen a packet before or is about to see a PID that does not begin with five ones, as no valid
      one does. */
  predicate AboutToSend(h: Host, dnpu: bool) {
    && ValidHost(h) && Sendable(h.sending) && h.tx == Start(h.tx) && Shows(h.tx.driving, dnpu, J)
    && BetweenPackets(h.mon) && (Trailing(h.mon.rawbits, 1) || !FiveOnes(h.sending.bytes[0]))
  }

  lemma SendRun(h: Host, ins: seq<In>, dnpu: bool, rx: bool)
    requires AboutToSend(h, dnpu) && Silent(ins, dnpu, rx) && Awake(h, |ins|) && |ins| <= |Wave(h.sending)|
    ensures var (g, e) := HostRun(h, ins);
            && (g.tx.state == ST_IDLE <==> |ins| == |Wave(h.sending)|)
            && g.frameStart == h.frameStart && g.tick == h.tick + 4 * |ins|
            && Carries(Driven(h, ins), dnpu, Wave(h.sending), Enables(h.sending))
            && var m := MonRun(h.mon, Samples(dnpu && rx, J, Wave(h.sending), |ins|));
               g.mon == m.0 && e == m.1
  {
    var x, p := h.sending, AtSync(0, 0);
    StartsAtWave(x);
    assert Where(h.tx, x, dnpu, p) && Position(x, p);
    var q := HostTransmits(h, ins, dnpu, rx, p, J);
    MonitorListens(h, ins, dnpu, rx, p, J);
    EndRestsEmpty(x, q);
    hide MonRun, HostRun, Rest, Wave;
    PositionState(HostRun(h, ins).0.tx, x, dnpu, q);
  }

  lemma PositionState(t: Tx, x: Desc, dnpu: bool, q: At)
    requires Where(t, x, dnpu, q)
    ensures t.state == ST_IDLE <==> q == AtEnd
  {}

  /** Over the bit intervals of a transfer the monitor calls back exactly for its SYNCs, PIDs, bytes
      and EOPs if and only if the device does not combine a D- pull-up with RX_ENABLE; either way the
      transmitter ends idle, and in the good case the monitor ends ready for the next transfer. */
  lemma TransferHeard(h: Host, ins: seq<In>, dnpu: bool, rx: bool)
    requires AboutToSend(h, dnpu) && Silent(ins, dnpu, rx) && Awake(h, |ins|) && |ins| == |Wave(h.sending)|
    ensures HostRun(h, ins).1 == TransferEvents(h.sending) <==> !(dnpu && rx)
    ensures Carries(Driven(h, ins), dnpu, Wave(h.sending), Enables(h.sending))
    ensures HostRun(h, ins).0.tx.state == ST_IDLE
    ensures !(dnpu && rx) ==> BetweenPackets(HostRun(h, ins).0.mon) && Trailing(HostRun(h, ins).0.mon.rawbits, 1)
  {
    var x := h.sending;
    SendRun(h, ins, dnpu, rx);
    var w := ([J] + Wave(x))[..|ins|];
    if dnpu && rx {
      SamplesInverted(h.mon, x);
      EventsHaveEop(x);
    } else {
      assert Seen(false, w) == w;
      hide HostRun, MonRun, Wave;
      WaveReceived(h.mon, x);
    }
  }

  lemma FirstInverted(m: Mon)
    requires BetweenPackets(m)
    ensures Valid(m)
    ensures var r := MonSample(m, SampleOf(K)); r.1 == [] && r.0.line[0] == SampleOf(K)
  {}

  /** The samples of a wave that begins with K, read inverted. */
  lemma InvertedSamples(wave: seq<Line>, n: nat)
    requires SettlesToJ(wave) && 0 < n == |wave| && wave[0] == K
    ensures var s := Samples(true, J, wave, n); s[0] == K && s[1..] == Seen(true, wave[..n - 1])
    ensures SettlesToJ([J] + wave[..n - 1])
  {
    var w := wave[..n - 1];
    assert ([J] + wave)[..n] == [J] + w;
    forall k | 0 < k < |[J] + w| && ([J] + w)[k - 1] == SE0
      ensures ([J] + w)[k] != K
    {
      assert k > 1 && wave[k - 2] == SE0 && wave[k - 1] != K;
    }
  }

  lemma SamplesInverted(m: Mon, x: Desc)
    requires BetweenPackets(m) && Sendable(x)
    ensures NoEop(MonRun(m, Samples(true, J, Wave(x), |Wave(x)|)).1)
  {
    var wave, n := Wave(x), |Wave(x)|;
    StartsAtWave(x);
    RestSettles(x, AtSync(0, 0));
    assert n > 0 && wave[0] == K;
    FirstInverted(m);
    InvertedSamples(wave, n);
    hide MonSample, MonRun, Samples, Seen, Wave, Rest, SettlesToJ, BetweenPackets;
    var s := Samples(true, J, wave, n);
    MonRunNext(m, s);
    InvertedNeverEnds(MonSample(m, SampleOf(K)).0, wave[..n - 1], J);
  }

  lemma EventsHaveEop(x: Desc)
    requires Sendable(x)
    ensures !NoEop(TransferEvents(x))
  {
    var last := if TwoPackets(x) then PacketEvents(x.bytes[x.dataStart..]) else PacketEvents(x.bytes);
    assert last[|last| - 1] == Eop;
    assert TransferEvents(x)[|TransferEvents(x)| - 1] == Eop;
  }

  // ---- The device's packets ------------------------------------------------------------------------

  /** The device drives line state l, with its differential or its single-ended outputs; with the pull-up on D-
      the pins are swapped. */
  predicate DeviceShows(d: D2p, l: Line) {
    var j, k := if d.dnpu then K else J, if d.dnpu then J else K;
    if d.txUseDSe0 then d.dEn && d.se0 == (l == SE0) && (l != SE0 ==> d.d == (l == j))
    else d.dpEn && d.dnEn && d.dp == (l == j) && d.dn == (l == k)
  }

  lemma DeviceSample(p2d: P2d, d: D2p, l: Line)
    requires DeviceShows(d, l)
    ensures d.Driving() && SampleWires(p2d, d) == SampleOf(l)
  {}

  lemma IntervalMonitors(h: Host, i: In)
    requires ValidHost(h) && Proper(i)
    ensures var r, m := HostInterval(h, i), MonStep(h.mon, Transmitting(h.tx.state), h.tx.driving, i.d2p);
      r.0.mon == m.0 && r.1 == m.1
  {
    hide MonStep, FrameCheck, HostModel.Arm, SetDriving, PidAfter, Valid, Sendable;
  }

  lemma DeviceInterval(h: Host, i: In, l: Line)
    requires ValidHost(h) && Proper(i) && DeviceShows(i.d2p, l)
    ensures Valid(h.mon)
    ensures var r, m := HostInterval(Later(h), i), MonSample(h.mon, SampleOf(l)); r.0.mon == m.0 && r.1 == m.1
  {
    DeviceSample(h.tx.driving, i.d2p, l);
    IntervalMonitors(Later(h), i);
    hide HostInterval, MonSample, SampleWires, DeviceShows;
  }

  /** Whatever the host is doing, its monitor sees what the device drives, in the interval in which it does. */
  lemma {:induction false} DeviceHeard(h: Host, ins: seq<In>, w: seq<Line>)
    requires ValidHost(h) && |ins| == |w|
    requires forall k :: 0 <= k < |ins| ==> Proper(ins[k]) && DeviceShows(ins[k].d2p, w[k])
    ensures Valid(h.mon)
    ensures var r, m := HostRun(h, ins), MonRun(h.mon, w); r.0.mon == m.0 && r.1 == m.1
    decreases |ins|
  {
    if ins == [] {
      NothingSeen(h.mon, w);
    } else {
      DeviceInterval(h, ins[0], w[0]);
      MonRunNext(h.mon, w);
      hide HostInterval, MonSample, DeviceShows, MonRun;
      DeviceHeard(HostInterval(Later(h), ins[0]).0, ins[1..], w[1..]);
    }
  }

  // ---- A transfer inside its frame -------------------------------------------------------------------

  /** Bit intervals a packet takes, one undriven J interval included. */
  lemma PacketLength(bits: seq<bool>, flush: bool)
    ensures |Packet(bits, flush)| + 1 <= 12 + |bits| + (|bits| + 1) / 6
  {
    StuffedLength(bits, 1);
  }

  /** A token with a data stage of at most 64 payload bytes takes at most 677 bit intervals; filling the whole
      buffer, at most 705. */
  lemma OutLength(x: Desc)
    requires Sendable(x) && x.dataStart == 3
    ensures |Wave(x)| <= 705 && (|x.bytes| <= 3 + 3 + 64 ==> |Wave(x)| <= 677)
  {
    if TwoPackets(x) {
      PacketLength(BytesBits(x.bytes[..3]), false);
      PacketLength(BytesBits(x.bytes[3..|x.bytes|]), true);
    } else {
      assert x.bytes[0..|x.bytes|] == x.bytes;
      PacketLength(BytesBits(x.bytes), true);
    }
  }

  /** An OUT transfer, whatever its payload, that the idle arm begins with more than 800 bit intervals left in
      the frame is completely sent, and the line back to idle, before the next frame boundary. */
  lemma OutFitsInFrame(h: Host, ins: seq<In>, dnpu: bool, rx: bool)
    requires AboutToSend(h, dnpu) && Silent(ins, dnpu, rx) && Awake(h, |ins|) && |ins| == |Wave(h.sending)|
    requires h.sending.dataStart == 3
    requires h.frameStart <= h.tickBits && h.frameStart + FRAME_INTERVAL - h.tickBits > MIN_TIME_LEFT
    ensures var g := HostRun(h, ins).0;
            g.tx.state == ST_IDLE && g.frameStart == h.frameStart && g.tickBits - g.frameStart < FRAME_INTERVAL
  {
    OutLength(h.sending);
    hide HostRun, MonRun, Wave;
    SendRun(h, ins, dnpu, rx);
  }
}
