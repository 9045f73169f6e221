/** What the SystemVerilog monitor tells of the traffic of both sides, said without the monitor's own bookkeeping. */
module AgentTraffic {
  import opened UsbCrc
  import opened LineCode
  import opened AgentDriver
  import opened AgentReceivers
  import opened AgentMonitor
  import Seqs

  // ---- Timing ------------------------------------------------------------------------------------------

  /** A packet is driven behind two bit intervals of J, an idle time lasts its bit intervals, and a reset is SE0 for its
      microseconds and J for a bit interval, at four clocks to the bit and 48 to the microsecond. */
  lemma CmdTiming(c: Cmd)
    requires GoodCmd(c)
    ensures var w := CmdWave(c);
      && (c.Normal? ==> |w| > 8 && (forall k :: 0 <= k < 8 ==> w[k] == J) && w[8] == K)
      && (c.Idle? ==> |w| == 4 * c.n && forall k :: 0 <= k < |w| ==> w[k] == J)
      && (c.BusReset? ==>
            && |w| == 48 * c.us + 4
            && forall k :: 0 <= k < |w| ==> w[k] == if k < 48 * c.us then SE0 else J)
  {
    if c.Normal? {
      PacketBegins(c.t);
      hide Clocks, ItemWave, Waiting, Span;
    }
  }

  lemma PacketBegins(t: Item)
    requires WellFormed(t)
    ensures |Clocks(ItemWave(t))| > 0 && Clocks(ItemWave(t))[0] == K
  {
    assert ItemWave(t)[0] == SYNC[0];
  }

  // ---- The history of the bus --------------------------------------------------------------------------

  /** What happens on the bus: a reset, or a packet of the host or the device. */
  datatype Seen = SeenReset(us: nat) | SeenPacket(t: Item, dev: bool)

  function SeenOf(t: Item, dev: bool): seq<Seen> {
    if t.pid == PRE then [] else [SeenPacket(t, dev)]
  }

  function SeenBy(c: Cmd): seq<Seen> {
    match c
    case Idle(_) => []
    case BusReset(us) => if us > 0 then [SeenReset(us)] else []
    case Normal(t, reply) =>
      SeenOf(t, false) + if ExpectsResponse(t) && reply.Answer? then SeenOf(reply.t, true) else []
  }

  function History(cmds: seq<Cmd>): seq<Seen> {
    if cmds == [] then [] else SeenBy(cmds[0]) + History(cmds[1..])
  }

  predicate IsTok(s: Seen) { s.SeenPacket? && (s.t.pid == OUT || s.t.pid == IN || s.t.pid == SETUP) }

  /** j is the last token before n, and no reset is in between. */
  predicate Governs(h: seq<Seen>, n: nat, j: int) {
    0 <= j < n <= |h| && IsTok(h[j]) && forall i :: j < i < n ==> h[i].SeenPacket? && !IsTok(h[i])
  }

  /** The fields a packet carries, with the endpoint it belongs to. */
  function Told(t: Item, endp: Bits): Item {
    Item(t.pid, if t.pid == OUT || t.pid == IN || t.pid == SETUP then t.addr else Fill(false, 7), endp,
         if t.pid == SOF then t.frame else Fill(false, 11), if t.pid == DATA0 || t.pid == DATA1 then t.data else [])
  }

  /** What is reported of the n-th event: a reset with its length; a token with its own direction and endpoint; any
      other packet with those of the token that governs it, and with OUT and zero if there is none. */
  ghost predicate Right(h: seq<Seen>, n: nat, r: Trans)
    requires n < |h|
  {
    match h[n]
    case SeenReset(us) => r == Reset(us, false)
    case SeenPacket(t, dev) =>
      if IsTok(h[n]) then r == Packet(Told(t, t.endp), t.pid == IN, dev)
      else
        && (forall j :: Governs(h, n, j) ==> r == Packet(Told(t, h[j].t.endp), h[j].t.pid == IN, dev))
        && ((forall j :: !Governs(h, n, j)) ==> r == Packet(Told(t, Fill(false, 4)), false, dev))
  }

  /** Resets below 2.5 microseconds are not reported. */
  predicate Counts(s: Seen) { s.SeenReset? ==> s.us >= 3 }

  /** The events that are reported, in order. */
  function Reported(h: seq<Seen>): (r: seq<nat>)
    ensures forall m :: 0 <= m < |r| ==> r[m] < |h| && Counts(h[r[m]])
  {
    if h == [] then []
    else
      var n := |h| - 1;
      Reported(h[..n]) + if Counts(h[n]) then [n] else []
  }

  lemma {:induction false} ReportedExact(h: seq<Seen>)
    ensures forall n :: 0 <= n < |h| && Counts(h[n]) ==> n in Reported(h)
    ensures forall a, b :: 0 <= a < b < |Reported(h)| ==> Reported(h)[a] < Reported(h)[b]
    decreases |h|
  {
    if h != [] {
      ReportedExact(h[..|h| - 1]);
    }
  }

  /** Every event that counts is told, once, in order and right. */
  ghost predicate TellsRight(h: seq<Seen>, out: seq<Trans>) {
    |out| == |Reported(h)| && forall m :: 0 <= m < |out| ==> Right(h, Reported(h)[m], out[m])
  }

  // ---- The monitor's bookkeeping is right --------------------------------------------------------------

  function TokenOf(h: seq<Seen>): Token {
    if h == [] then NoToken()
    else
      var n := |h| - 1;
      match h[n]
      case SeenReset(_) => NoToken()
      case SeenPacket(t, _) => if IsTok(h[n]) then Token(t.pid == IN, t.endp) else TokenOf(h[..n])
  }

  lemma {:induction false} TokenGoverns(h: seq<Seen>, p: seq<Seen>)
    requires p <= h
    ensures forall j :: Governs(h, |p|, j) ==> TokenOf(p) == Token(h[j].t.pid == IN, h[j].t.endp)
    ensures (forall j :: !Governs(h, |p|, j)) ==> TokenOf(p) == Token(false, Fill(false, 4))
    decreases |p|
  {
    if p != [] {
      var n := |p| - 1;
      assert p[n] == h[n] && |p| == n + 1;
      TokenGoverns(h, p[..n]);
      LastGoverns(h, n, |p|);
      hide Governs;
    }
  }

  lemma LastGoverns(h: seq<Seen>, n: nat, m: nat)
    requires n < |h| && m == n + 1
    ensures IsTok(h[n]) ==> Governs(h, m, n) && forall j :: Governs(h, m, j) ==> j == n
    ensures h[n].SeenReset? ==> forall j :: !Governs(h, m, j)
    ensures h[n].SeenPacket? && !IsTok(h[n]) ==> forall j :: Governs(h, m, j) <==> Governs(h, n, j)
  {}

  function Tell(h: seq<Seen>): seq<Trans>
    requires forall n :: 0 <= n < |h| && h[n].SeenPacket? ==> WellFormed(h[n].t)
  {
    if h == [] then []
    else
      var n := |h| - 1;
      Tell(h[..n]) +
      match h[n]
      case SeenReset(us) => if us >= 3 then [Reset(us, false)] else []
      case SeenPacket(t, dev) => [Report(Carried(t), TokenOf(h[..n]), dev)]
  }

  predicate Known(h: seq<Seen>) {
    forall n :: 0 <= n < |h| && h[n].SeenPacket? ==> WellFormed(h[n].t) && h[n].t.pid != PRE
  }

  lemma OneRight(h: seq<Seen>, n: nat)
    requires Known(h) && n < |h| && h[n].SeenPacket?
    ensures Right(h, n, Report(Carried(h[n].t), TokenOf(h[..n]), h[n].dev))
  {
    TokenGoverns(h, h[..n]);
    var t := h[n].t;
    ToldIs(t, TokenOf(h[..n]).endp);
    hide Governs, TokenOf, Carried, Told;
  }

  lemma ToldIs(t: Item, endp: Bits)
    requires WellFormed(t)
    ensures IsToken(t.pid) ==> Carried(t) == Told(t, t.endp)
    ensures !IsToken(t.pid) ==> Carried(t).(endp := endp) == Told(t, endp)
  {}

  lemma {:induction false} TellRight(h: seq<Seen>, p: seq<Seen>)
    requires Known(h) && p <= h
    ensures RightSoFar(h, Reported(p), Tell(p))
    decreases |p|
  {
    if p != [] {
      var n := |p| - 1;
      assert p[n] == h[n] && p[..n] == h[..n] && p == p[..n] + [p[n]];
      TellRight(h, p[..n]);
      if p[n].SeenPacket? {
        OneRight(h, n);
        OneMore(h, Reported(p[..n]), Tell(p[..n]), n, Report(Carried(p[n].t), TokenOf(p[..n]), p[n].dev));
      } else if p[n].us >= 3 {
        ResetRight(h, n);
        OneMore(h, Reported(p[..n]), Tell(p[..n]), n, Reset(p[n].us, false));
      }
      hide Right, Governs, TokenOf, Carried, Told, Report, RightSoFar, Known;
    }
  }

  ghost predicate RightSoFar(h: seq<Seen>, idx: seq<nat>, out: seq<Trans>) {
    |out| == |idx| && forall m :: 0 <= m < |out| ==> idx[m] < |h| && Right(h, idx[m], out[m])
  }

  lemma OneMore(h: seq<Seen>, idx: seq<nat>, out: seq<Trans>, n: nat, r: Trans)
    requires RightSoFar(h, idx, out) && n < |h| && Right(h, n, r)
    ensures RightSoFar(h, idx + [n], out + [r])
  {
    hide Right;
  }

  lemma ResetRight(h: seq<Seen>, n: nat)
    requires n < |h| && h[n].SeenReset?
    ensures Right(h, n, Reset(h[n].us, false))
  {}

  lemma HistoryKnown(cmds: seq<Cmd>)
    requires AllWellFormed(cmds)
    ensures Known(History(cmds))
  {
    if cmds != [] {
      HistoryKnown(cmds[1..]);
    }
  }

  lemma TellOne(p: seq<Seen>, s: Seen)
    requires Known(p) && (s.SeenPacket? ==> WellFormed(s.t) && s.t.pid != PRE)
    ensures Known(p + [s])
    ensures s.SeenReset? ==>
      Tell(p + [s]) == Tell(p) + (if s.us >= 3 then [Reset(s.us, false)] else []) && TokenOf(p + [s]) == NoToken()
    ensures s.SeenPacket? ==>
      && Tell(p + [s]) == Tell(p) + [Report(Carried(s.t), TokenOf(p), s.dev)]
      && TokenOf(p + [s]) == NextToken(Carried(s.t), TokenOf(p))
  {
    assert (p + [s])[..|p|] == p && (p + [s])[|p|] == s;
  }

  /** A packet extends the history by itself, unless it is PRE. */
  lemma TellPacket(p: seq<Seen>, t: Item, dev: bool)
    requires Known(p) && WellFormed(t)
    ensures var q := p + SeenOf(t, dev);
      Known(q) && Tell(q) == Tell(p) + ReportPacket(t, TokenOf(p), dev) && TokenOf(q) == TokenAfter(t, TokenOf(p))
  {
    if t.pid == PRE {
      assert p + [] == p && Tell(p) + [] == Tell(p);
    } else {
      TellOne(p, SeenPacket(t, dev));
    }
  }

  lemma {:induction false} ExpectedTold(cmds: seq<Cmd>, p: seq<Seen>)
    requires AllWellFormed(cmds) && Known(p)
    ensures Known(p + History(cmds)) && Tell(p) + Expected(cmds, TokenOf(p)) == Tell(p + History(cmds))
    decreases |cmds|
  {
    if cmds == [] {
      assert p + History([]) == p && Tell(p) + [] == Tell(p);
    } else {
      CmdTold(cmds[0], cmds[1..], p);
      assert cmds == [cmds[0]] + cmds[1..];
      hide Tell, TokenOf, Known, SeenBy, Expected;
      ExpectedTold(cmds[1..], p + SeenBy(cmds[0]));
      Seqs.Assoc(p, SeenBy(cmds[0]), History(cmds[1..]));
    }
  }

  lemma CmdTold(c: Cmd, later: seq<Cmd>, p: seq<Seen>)
    requires GoodCmd(c) && AllWellFormed(later) && Known(p)
    ensures AllWellFormed([c] + later) && Known(p + SeenBy(c))
    ensures var q := p + SeenBy(c);
      Tell(p) + Expected([c] + later, TokenOf(p)) == Tell(q) + Expected(later, TokenOf(q))
  {
    var cmds := [c] + later;
    assert cmds[1..] == later && cmds[0] == c;
    match c {
      case Idle(_) => assert p + [] == p;
      case BusReset(us) =>
        ResetTold(p, us);
        hide Tell, TokenOf, Known;
        Seqs.Assoc(Tell(p), if us >= 3 then [Reset(us, false)] else [],
                   Expected(later, if us == 0 then TokenOf(p) else NoToken()));
      case Normal(t, reply) =>
        hide Tell, TokenOf, Known, ReportPacket, TokenAfter, SeenOf;
        PacketTold(p, t, reply, later);
    }
  }

  lemma ResetTold(p: seq<Seen>, us: nat)
    requires Known(p)
    ensures var q := p + if us > 0 then [SeenReset(us)] else [];
      && Known(q) && Tell(q) == Tell(p) + (if us >= 3 then [Reset(us, false)] else [])
      && TokenOf(q) == if us == 0 then TokenOf(p) else NoToken()
  {
    if us == 0 {
      assert p + [] == p && Tell(p) + [] == Tell(p);
    } else {
      TellOne(p, SeenReset(us));
    }
  }

  lemma PacketTold(p: seq<Seen>, t: Item, reply: Reply, later: seq<Cmd>)
    requires Known(p) && WellFormed(t) && GoodReply(reply) && AllWellFormed(later)
    ensures var answered := ExpectsResponse(t) && reply.Answer?;
      var more, k1 := SeenOf(t, false) + if answered then SeenOf(reply.t, true) else [], TokenAfter(t, TokenOf(p));
      && Known(p + more)
      && Tell(p) + (ReportPacket(t, TokenOf(p), false) +
           if answered then ReportPacket(reply.t, k1, true) + Expected(later, TokenAfter(reply.t, k1))
           else Expected(later, k1))
         == Tell(p + more) + Expected(later, TokenOf(p + more))
  {
    var a := SeenOf(t, false);
    TellPacket(p, t, false);
    hide Tell, TokenOf, Known, ReportPacket, TokenAfter, SeenOf, Expected;
    var k1 := TokenAfter(t, TokenOf(p));
    if ExpectsResponse(t) && reply.Answer? {
      TellPacket(p + a, reply.t, true);
      Seqs.Assoc(p, a, SeenOf(reply.t, true));
      Seqs.AssocFour(Tell(p), ReportPacket(t, TokenOf(p), false), ReportPacket(reply.t, k1, true),
                     Expected(later, TokenAfter(reply.t, k1)));
    } else {
      assert a + [] == a;
      Seqs.Assoc(Tell(p), ReportPacket(t, TokenOf(p), false), Expected(later, k1));
    }
  }

  // ---- The monitor tells it right ----------------------------------------------------------------------

  /** Whatever commands the driver executes, and however the device answers, what the monitor reports from reset on is
      the history of the bus: every packet of both sides but PRE, and every reset long enough, once, in order, with the
      side that drove it; a data, handshake or SOF packet with the direction and the endpoint of the last token since
      the last reset, and with OUT and endpoint zero if there is none. */
  lemma TrafficTold(cmds: seq<Cmd>)
    requires AllWellFormed(cmds)
    ensures TellsRight(History(cmds), CollectTrans(Together(Traffic(cmds), Replies(cmds)), NoToken()))
    ensures TellsRight(History(cmds), Expected(cmds, NoToken()))
  {
    var h := History(cmds);
    HistoryKnown(cmds);
    NothingTold(h, Expected(cmds, NoToken()));
    hide *;
    MonitorReportsTraffic(cmds, NoToken());
    ExpectedTold(cmds, []);
    TellRight(h, h);
    assert [] + h == h;
    Rightly(h, Tell(h));
  }

  lemma NothingTold(h: seq<Seen>, e: seq<Trans>)
    ensures Known([]) && TokenOf([]) == NoToken() && Tell([]) + e == e
  {}

  lemma Rightly(h: seq<Seen>, out: seq<Trans>)
    requires RightSoFar(h, Reported(h), out)
    ensures TellsRight(h, out)
  {
    hide Right;
  }

  /** The monitor on a recording of the driver's line and of a device that answers. */
  method Observe(cmds: seq<Cmd>, host: seq<Line>, dut: seq<Drive>) returns (out: seq<Trans>)
    requires AllWellFormed(cmds) && host == Level(J, 40) + Traffic(cmds)
    requires dut == Quiet(40) + Replies(cmds)
    ensures out == Expected(cmds, NoToken()) && TellsRight(History(cmds), out)
  {
    IdleFirst(cmds);
    TrafficTold(cmds);
    hide *;
    var pins := Together(host, dut);
    var m := new Monitor(pins);
    assert m.rest[1..] == pins;
    out := m.Run();
  }

  lemma IdleFirst(cmds: seq<Cmd>)
    requires AllWellFormed(cmds)
    ensures var pins := Together(Level(J, 40) + Traffic(cmds), Quiet(40) + Replies(cmds));
      CollectTrans(pins, NoToken()) == Expected(cmds, NoToken())
  {
    hide CollectTrans, Expected, Traffic, Replies, Together, Pinned, Level, Quiet;
    HostAlone(Level(J, 40));
    TogetherConcat(Level(J, 40), Traffic(cmds), Quiet(40), Replies(cmds));
    IdleSkipped(40, false, Together(Traffic(cmds), Replies(cmds)), NoToken());
    MonitorReportsTraffic(cmds, NoToken());
  }
}
