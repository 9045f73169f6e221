/** Runs of the streaming host: streams_service calls interleaved with anything the bus, the device
    and the frame clock may do in between. */
module StreamRuns {
  import opened CrcRoutines
  import opened Transfer
  import opened Streams
  import opened StreamPackets
  import opened StreamMoves

  // ---- The history of a stream -----------------------------------------------------------------------

  /** The signature, the LFSR value it gave and the PID expected behind it; the packets kept from the device,
      their bytes, and for each how often the toggle had run ahead before it; the bytes and packets the device
      has accepted, the packet that awaits an answer and the one refused last. */
  datatype Log = Log(sign: Option<Desc>, base: bv8, firstIn: bv8, kept: seq<Desc>, taken: seq<bv8>, marks: seq<nat>,
                     slips: nat, acked: seq<bv8>, outs: seq<Desc>, flight: Option<Desc>, refused: Option<Desc>)

  /** The data field of an OUT transfer: after the token and the data PID, before the CRC. */
  function OutData(r: Desc): seq<bv8> {
    if |r.bytes| < 6 then [] else r.bytes[4..|r.bytes| - 2]
  }

  /** Its data PID. */
  function OutPid(r: Desc): bv8 {
    if |r.bytes| < 4 then 0 else r.bytes[3]
  }

  function LogStep(l: Log, w: View, m: Move): Log {
    match m
    case Rest => l
    case Build(reply) => l.(flight := Some(reply))
    case Ack =>
      if l.flight.None? then l
      else
        var out := l.flight.value;
        l.(acked := l.acked + OutData(out), outs := l.outs + [out], flight := None, refused := None)
    case Nak => l.(refused := l.flight, flight := None)
    case Take(x) =>
      var data := if x.dataStart == 0 && |x.bytes| >= 3 then Payload(x) else [];
      l.(kept := l.kept + [x], taken := l.taken + data, marks := l.marks + [l.slips])
    case Sign(x) => l.(sign := Some(x), base := w.s.tstLfsr, firstIn := w.inToggle)
    case Slip(x) => l.(slips := l.slips + 1)
  }

  /** The data fields of kept packets, joined. */
  function Joined(q: seq<Desc>, t: XfrType): seq<bv8>
    requires KeptAll(q, t)
  {
    if q == [] then [] else Payload(q[0]) + Joined(q[1..], t)
  }

  /** DATA0 and DATA1 in turn. */
  function Alternate(first: bv8, n: nat): bv8 {
    if n == 0 then first else ToggleAdvance(Alternate(first, n - 1))
  }

  function Prepared(x: Desc, v: View, id: nat, dpi: bv8): Desc
    requires Kept(x, v.s.xfr) && id < MAX_STREAMS
  {
    Reply(x, v.s.(dpiLfsr := dpi), id, v.toggle, v.device)
  }

  /** What the device has accepted is what it sent, combined with the host's own stream from its seed. */
  predicate History(l: Log, id: nat, first: bv8)
    requires id < MAX_STREAMS
  {
    && |l.acked| <= |l.taken| && l.acked == Scramble(l.taken[..|l.acked|], DpiSeed(id))
    && (forall k :: 0 <= k < |l.outs| ==> OutPid(l.outs[k]) == Alternate(first, k))
    && l.acked == JoinedOuts(l.outs)
  }

  /** The k-th accepted packet answers the k-th kept one. */
  predicate Matched(l: Log, t: XfrType) {
    && KeptAll(l.kept, t) && l.taken == Joined(l.kept, t) && |l.outs| <= |l.kept|
    && forall k :: 0 <= k < |l.outs| ==> |OutData(l.outs[k])| == |Payload(l.kept[k])|
  }

  function JoinedOuts(outs: seq<Desc>): seq<bv8> {
    if outs == [] then [] else JoinedOuts(outs[..|outs| - 1]) + OutData(outs[|outs| - 1])
  }

  /** The device's bytes are its LFSR stream, and its LFSR is followed. */
  predicate Tracked(v: View, l: Log) {
    && (v.s.checking ==> l.taken == LfsrSeq(l.base, |l.taken|) && v.s.tstLfsr == LfsrAt(l.base, |l.taken|))
    && (v.s.retrieve && v.s.sigExpected ==> l.taken == [])
  }

  /** The host's LFSR stands where the accepted bytes end, but for a packet that awaits its answer. */
  predicate OnTheWay(v: View, l: Log, id: nat)
    requires id < MAX_STREAMS && KeptAll(v.q, v.s.xfr)
  {
    if v.waiting then
      && v.q != [] && v.s.rewindLfsr == LfsrAt(DpiSeed(id), |l.acked|)
      && v.s.dpiLfsr == LfsrAt(v.s.rewindLfsr, |Payload(v.q[0])|)
      && l.flight == Some(Prepared(v.q[0], v, id, v.s.rewindLfsr))
      && (l.refused.Some? ==> l.refused == l.flight)
    else
      && v.s.dpiLfsr == LfsrAt(DpiSeed(id), |l.acked|) && l.flight == None
      && (l.refused.Some? ==> v.q != [] && l.refused == Some(Prepared(v.q[0], v, id, v.s.dpiLfsr)))
  }

  predicate Inv(v: View, l: Log, id: nat, first: bv8)
    requires id < MAX_STREAMS
  {
    && v.s.xfr != Isochronous && v.s.send && KeptAll(v.q, v.s.xfr)
    && History(l, id, first) && Tracked(v, l)
    && v.toggle == Alternate(first, |l.outs|)
    && Matched(l, v.s.xfr) && |l.outs| <= |l.kept| && l.kept[|l.outs|..] == v.q
    && l.taken[|l.acked|..] == Joined(v.q, v.s.xfr)
    && (!v.failed ==> OnTheWay(v, l, id))
  }

  // ---- Each move keeps it ----------------------------------------------------------------------------

  /** The data field of a reply is the kept data field scrambled; its PID is the endpoint's toggle. */
  lemma ReplyCarries(x: Desc, s: Stream, id: nat, next: bv8, device: bv8)
    requires Kept(x, s.xfr) && s.xfr != Isochronous && id < MAX_STREAMS
    ensures OutData(Reply(x, s, id, next, device)) == Scramble(Payload(x), s.dpiLfsr)
    ensures OutPid(Reply(x, s, id, next, device)) == next
  {
    hide Crc16Bytes, TokenBytes, Scramble;
    var data := ReplyData(x, s);
    var r := TokenBytes(PID_OUT, device, Ep(id) as bv8) + DataBytes(next, data);
    assert r[4..|r| - 2] == data;
  }

  lemma ReplyOnly(x: Desc, s: Stream, t: Stream, id: nat, next: bv8, device: bv8)
    requires Kept(x, s.xfr) && s.xfr == t.xfr && s.dpiLfsr == t.dpiLfsr && id < MAX_STREAMS
    ensures Reply(x, s, id, next, device) == Reply(x, t, id, next, device)
  {
    hide Crc16Bytes, TokenBytes, Scramble, Payload, Kept;
  }

  /** Where the stream is left alone, so is what the invariant says about it. */
  lemma KeepRest(v: View, w: View, l: Log, n: Log, id: nat, first: bv8)
    requires id < MAX_STREAMS && Inv(v, l, id, first) && (v.failed ==> w.failed) && n == l.(slips := n.slips)
    requires Untouched(v, w) && SameSetup(v.s, w.s) && w.device == v.device && (w.failed || w.waiting == v.waiting)
    ensures Inv(w, n, id, first)
  {
    hide Reply, KeptAll, Kept, LfsrAt, LfsrSeq, Scramble, Alternate, Joined, History, Matched, Payload, DpiSeed;
    PastOnly(l, n, id, first, v.s.xfr);
    if !w.failed && v.q != [] {
      Head(v.q, v.s.xfr);
      ReplyOnly(v.q[0], v.s.(dpiLfsr := v.s.rewindLfsr), w.s.(dpiLfsr := v.s.rewindLfsr), id, v.toggle, v.device);
      ReplyOnly(v.q[0], v.s.(dpiLfsr := v.s.dpiLfsr), w.s.(dpiLfsr := v.s.dpiLfsr), id, v.toggle, v.device);
    }
  }

  lemma Head(q: seq<Desc>, t: XfrType)
    requires KeptAll(q, t) && q != []
    ensures Kept(q[0], t) && KeptAll(q[1..], t) && Joined(q, t) == Payload(q[0]) + Joined(q[1..], t)
  {}

  lemma KeepBuild(v: View, w: View, l: Log, id: nat, first: bv8, reply: Desc)
    requires id < MAX_STREAMS && Inv(v, l, id, first) && !v.failed && Effect(v, w, id, Build(reply))
    ensures Inv(w, LogStep(l, w, Build(reply)), id, first)
  {
    Head(v.q, v.s.xfr);
    hide Good, Signs, Slips, Reply, Kept, LfsrAt, LfsrSeq, Scramble, Alternate, Joined, Payload, JoinedOuts;
    ReplyOnly(v.q[0], v.s, w.s.(dpiLfsr := w.s.rewindLfsr), id, v.toggle, v.device);
    ReplyOnly(v.q[0], v.s, v.s.(dpiLfsr := v.s.dpiLfsr), id, v.toggle, v.device);
  }

  lemma KeepNak(v: View, w: View, l: Log, id: nat, first: bv8)
    requires id < MAX_STREAMS && Inv(v, l, id, first) && !v.failed && Effect(v, w, id, Nak)
    ensures Inv(w, LogStep(l, w, Nak), id, first)
  {
    hide Good, Signs, Slips, Reply, KeptAll, Kept, LfsrAt, LfsrSeq, Scramble, Alternate, Joined, Payload, DpiSeed,
      History, Matched;
    Head(v.q, v.s.xfr);
    ReplyOnly(v.q[0], v.s.(dpiLfsr := v.s.rewindLfsr), w.s.(dpiLfsr := w.s.dpiLfsr), id, v.toggle, v.device);
    PastOnly(l, LogStep(l, w, Nak), id, first, v.s.xfr);
  }

  lemma PastOnly(l: Log, n: Log, id: nat, first: bv8, t: XfrType)
    requires id < MAX_STREAMS && History(l, id, first) && Matched(l, t)
    requires n.acked == l.acked && n.taken == l.taken && n.outs == l.outs && n.kept == l.kept
    ensures History(n, id, first) && Matched(n, t)
  {
    hide LfsrAt, Scramble, DpiSeed, Alternate, OutPid, JoinedOuts, OutData, Payload, Kept, Joined;
  }

  /** Accepting the packet moves its bytes from those still queued to those acknowledged. */
  lemma Acknowledge(l: Log, id: nat, first: bv8, p: seq<bv8>, rest: seq<bv8>, reply: Desc)
    requires id < MAX_STREAMS && History(l, id, first) && l.taken[|l.acked|..] == p + rest
    requires OutData(reply) == Scramble(p, LfsrAt(DpiSeed(id), |l.acked|))
      && OutPid(reply) == Alternate(first, |l.outs|)
    ensures var n := l.(acked := l.acked + OutData(reply), outs := l.outs + [reply]);
      History(n, id, first) && |n.acked| == |l.acked| + |p| && n.taken[|n.acked|..] == rest
  {
    hide OutData, OutPid, LfsrAt, Scramble, DpiSeed, Alternate, JoinedOuts;
    Advanced(l.taken, |l.acked|, p, rest);
    ScrambleConcat(l.taken[..|l.acked|], p, DpiSeed(id));
    JoinedOutsSnoc(l.outs, reply);
  }

  /** What is in front of the rest, once p has been moved over. */
  lemma Advanced<T>(t: seq<T>, n: nat, p: seq<T>, rest: seq<T>)
    requires n <= |t| && t[n..] == p + rest
    ensures n + |p| <= |t| && t[..n + |p|] == t[..n] + p && t[n + |p|..] == rest
  {
    assert t == t[..n] + t[n..] && t[n..][..|p|] == p && t[n..][|p|..] == rest;
  }

  lemma JoinedOutsSnoc(outs: seq<Desc>, reply: Desc)
    ensures JoinedOuts(outs + [reply]) == JoinedOuts(outs) + OutData(reply)
  {
    hide OutData;
    assert (outs + [reply])[..|outs|] == outs;
  }

  lemma AlternateNext(first: bv8, n: nat)
    ensures Alternate(first, n + 1) == ToggleAdvance(Alternate(first, n))
  {}

  lemma KeepAck(v: View, w: View, l: Log, id: nat, first: bv8)
    requires id < MAX_STREAMS && Inv(v, l, id, first) && !v.failed && Effect(v, w, id, Ack)
    ensures Inv(w, LogStep(l, w, Ack), id, first)
  {
    hide Good, Signs, Slips, Reply, ToggleAdvance, OutData, OutPid, Kept, LfsrAt, LfsrSeq, Scramble, Joined, Payload,
      History, DpiSeed, Alternate, KeptAll, Matched;
    Head(v.q, v.s.xfr);
    var x, reply := v.q[0], l.flight.value;
    ReplyCarries(x, v.s.(dpiLfsr := v.s.rewindLfsr), id, v.toggle, v.device);
    var p, rest := Payload(x), Joined(v.q[1..], v.s.xfr);
    Acknowledge(l, id, first, p, rest, reply);
    LfsrAdd(DpiSeed(id), |l.acked|, |p|);
    AlternateNext(first, |l.outs|);
    var n := LogStep(l, w, Ack);
    assert l.kept[|l.outs|..][0] == l.kept[|l.outs|] && l.kept[|l.outs| + 1..] == l.kept[|l.outs|..][1..];
    assert n == l.(acked := l.acked + OutData(reply), outs := l.outs + [reply], flight := None, refused := None);
    MatchedAck(l, n, v.s.xfr, reply, x);
    HistoryOnly(l.(acked := l.acked + OutData(reply), outs := l.outs + [reply]), n, id, first);
  }

  lemma MatchedAck(l: Log, n: Log, t: XfrType, reply: Desc, x: Desc)
    requires Matched(l, t) && |l.kept| > |l.outs| && l.kept[|l.outs|] == x && Kept(x, t)
    requires |OutData(reply)| == |Payload(x)| && n.kept == l.kept && n.taken == l.taken && n.outs == l.outs + [reply]
    ensures Matched(n, t)
  {
    hide OutData, Payload, Kept, Joined;
  }

  lemma HistoryOnly(l: Log, n: Log, id: nat, first: bv8)
    requires id < MAX_STREAMS && History(l, id, first) && n.acked == l.acked && n.taken == l.taken && n.outs == l.outs
    ensures History(n, id, first)
  {
    hide LfsrAt, Scramble, DpiSeed, Alternate, OutPid, JoinedOuts;
  }

  lemma JoinedSnoc(q: seq<Desc>, x: Desc, t: XfrType)
    requires KeptAll(q, t) && Kept(x, t)
    ensures KeptAll(q + [x], t) && Joined(q + [x], t) == Joined(q, t) + Payload(x)
  {
    hide Payload, Kept;
    if q == [] {
      assert [x][1..] == [];
    } else {
      JoinedSnoc(q[1..], x, t);
      assert (q + [x])[1..] == q[1..] + [x];
    }
  }

  /** What a stream takes is queued behind what it has not yet returned. */
  lemma Arrive(l: Log, n: Log, id: nat, first: bv8, p: seq<bv8>)
    requires id < MAX_STREAMS && History(l, id, first)
    requires n.acked == l.acked && n.taken == l.taken + p && n.outs == l.outs
    ensures History(n, id, first) && n.taken[|n.acked|..] == l.taken[|l.acked|..] + p
  {
    hide LfsrAt, Scramble, DpiSeed, Alternate, OutPid, JoinedOuts;
    assert (l.taken + p)[|l.acked|..] == l.taken[|l.acked|..] + p;
    assert (l.taken + p)[..|l.acked|] == l.taken[..|l.acked|];
  }

  lemma MatchedTake(l: Log, n: Log, t: XfrType, x: Desc)
    requires Matched(l, t) && Kept(x, t) && n.kept == l.kept + [x] && n.taken == l.taken + Payload(x)
      && n.outs == l.outs
    ensures Matched(n, t)
  {
    JoinedSnoc(l.kept, x, t);
    hide OutData, Payload, Kept, Joined;
  }

  lemma KeptShape(x: Desc, t: XfrType)
    requires Kept(x, t)
    ensures x.dataStart == 0 && |x.bytes| >= 3
  {}

  lemma TrackedTake(v: View, w: View, l: Log, n: Log, id: nat, x: Desc)
    requires id < MAX_STREAMS && Tracked(v, l) && SameSetup(v.s, w.s) && Taking(v, w, x)
    requires x.dataStart == 0 && |x.bytes| >= 3
    requires n.taken == l.taken + Payload(x) && n.base == l.base
    ensures Tracked(w, n)
  {
    hide Reply, Kept, LfsrAt, LfsrSeq, Payload;
    LfsrSeqConcat(l.base, |l.taken|, |Payload(x)|);
    LfsrAdd(l.base, |l.taken|, |Payload(x)|);
  }

  lemma DropSnoc<T>(s: seq<T>, x: T, k: nat)
    requires k <= |s|
    ensures (s + [x])[k..] == s[k..] + [x]
  {}

  lemma KeepTake(v: View, w: View, l: Log, id: nat, first: bv8, x: Desc)
    requires id < MAX_STREAMS && Inv(v, l, id, first) && !v.failed && Effect(v, w, id, Take(x))
    ensures Inv(w, LogStep(l, w, Take(x)), id, first)
  {
    hide Good, Signs, Slips, Reply, KeptAll, Kept, LfsrAt, LfsrSeq, Scramble, Alternate, Joined, Payload, DpiSeed,
      JoinedOuts, History, Matched, Tracked;
    JoinedSnoc(v.q, x, v.s.xfr);
    KeptShape(x, v.s.xfr);
    DropSnoc(l.kept, x, |l.outs|);
    var n := LogStep(l, w, Take(x));
    Arrive(l, n, id, first, Payload(x));
    MatchedTake(l, n, v.s.xfr, x);
    TrackedTake(v, w, l, n, id, x);
    if v.q != [] {
      Head(v.q, v.s.xfr);
      ReplyOnly(v.q[0], v.s.(dpiLfsr := v.s.dpiLfsr), w.s.(dpiLfsr := w.s.dpiLfsr), id, v.toggle, v.device);
    }
  }

  lemma KeepSign(v: View, w: View, l: Log, id: nat, first: bv8, x: Desc)
    requires id < MAX_STREAMS && Inv(v, l, id, first) && !v.failed && Effect(v, w, id, Sign(x))
    ensures Inv(w, LogStep(l, w, Sign(x)), id, first)
  {
    hide Reply, KeptAll, Kept, LfsrSeq, Scramble, Alternate, Joined, Payload, DpiSeed, History, Matched, Signs;
    PastOnly(l, LogStep(l, w, Sign(x)), id, first, v.s.xfr);
    if v.q != [] {
      Head(v.q, v.s.xfr);
      ReplyOnly(v.q[0], v.s.(dpiLfsr := v.s.dpiLfsr), w.s.(dpiLfsr := w.s.dpiLfsr), id, v.toggle, v.device);
    }
  }

  lemma StepKeeps(v: View, w: View, l: Log, id: nat, first: bv8)
    requires id < MAX_STREAMS && Inv(v, l, id, first) && Effect(v, w, id, MoveOf(v, w))
    requires v.failed ==> w.failed && MoveOf(v, w) == Rest
    ensures Inv(w, LogStep(l, w, MoveOf(v, w)), id, first)
  {
    if MoveOf(v, w).Rest? || MoveOf(v, w).Slip? {
      EffectRests(v, w, id);
    }
    LogRests(l, w);
    hide Inv, LogStep, Effect;
    match MoveOf(v, w)
    case Rest => KeepRest(v, w, l, l, id, first);
    case Build(reply) => KeepBuild(v, w, l, id, first, reply);
    case Ack => KeepAck(v, w, l, id, first);
    case Nak => KeepNak(v, w, l, id, first);
    case Take(x) => KeepTake(v, w, l, id, first, x);
    case Sign(x) => KeepSign(v, w, l, id, first, x);
    case Slip(x) => KeepRest(v, w, l, l.(slips := l.slips + 1), id, first);
  }

  lemma EffectRests(v: View, w: View, id: nat)
    requires id < MAX_STREAMS && Effect(v, w, id, MoveOf(v, w)) && (MoveOf(v, w).Rest? || MoveOf(v, w).Slip?)
    ensures Untouched(v, w) && SameSetup(v.s, w.s) && w.device == v.device && (w.failed || w.waiting == v.waiting)
  {
    hide Slips;
  }

  lemma LogRests(l: Log, w: View)
    ensures LogStep(l, w, Rest) == l && forall x :: LogStep(l, w, Slip(x)) == l.(slips := l.slips + 1)
  {}

  // ---- Runs ------------------------------------------------------------------------------------------

  /** What may happen between two calls: the driver sends, the device answers, time passes, the idle arm
      provides a descriptor. A frame may begin, which restarts the host except where it awaits the answer
      to an OUT packet; see FrameRestart. */
  predicate Interlude(c: Ctx, d: Ctx) {
    && ValidCtx(d)
    && d.streams == c.streams && d.queues == c.queues && d.epIn == c.epIn && d.epOut == c.epOut
      && d.devAddr == c.devAddr
    && d.nstreams == c.nstreams && d.streamIn == c.streamIn && d.streamOut == c.streamOut
    && (d.hostSt == c.hostSt || (d.hostSt == HS_STARTFRAME && c.hostSt != HS_WAITACK && c.hostSt != HS_ERROR))
  }

  predicate Step(c: Ctx, d: Ctx)
    requires ValidCtx(c)
  {
    Interlude(c, d) || (c.sending.Some? && Service(c) == Next(d))
  }

  /** Any finite run; each state is a context. */
  predicate Run(cs: seq<Ctx>) {
    && |cs| >= 1
    && (forall k :: 0 <= k < |cs| ==> ValidCtx(cs[k]))
    && (forall k :: 0 <= k < |cs| - 1 ==> Step(cs[k], cs[k + 1]))
  }

  /** Stream id sends, is not isochronous, and has nothing in hand, as streams_init leaves it. */
  predicate Fresh(c: Ctx, id: nat)
    requires ValidCtx(c) && id < MAX_STREAMS
  {
    var s := c.streams[id];
    && s.send && s.xfr != Isochronous && s.sigExpected && c.queues[id] == [] && s.dpiLfsr == DpiSeed(id)
    && c.hostSt != HS_WAITACK && c.hostSt != HS_ERROR
  }

  function LogOf(cs: seq<Ctx>, id: nat): Log
    requires Run(cs) && id < MAX_STREAMS
  {
    var n := |cs| - 1;
    if n == 0 then Log(None, cs[0].streams[id].tstLfsr, cs[0].epIn[Ep(id)], [], [], [], 0, [], [], None, None)
    else
      var v, w := ViewOf(cs[n - 1], id), ViewOf(cs[n], id);
      LogStep(LogOf(cs[..n], id), w, MoveOf(v, w))
  }

  lemma InterludeRests(c: Ctx, d: Ctx, id: nat)
    requires ValidCtx(c) && id < MAX_STREAMS && Interlude(c, d)
    ensures Moves(c, d, id)
  {
    hide Service, Reply, LfsrAt, LfsrSeq, Kept, Toggles, StreamsOk;
    Lengths(c);
    Aside(c, d, id);
  }

  /** Once the host has given up, it stays so. */
  lemma InterludeFails(c: Ctx, d: Ctx, id: nat)
    requires ValidCtx(c) && Interlude(c, d) && c.hostSt == HS_ERROR && id < MAX_STREAMS
    ensures d.hostSt == HS_ERROR && MoveOf(ViewOf(c, id), ViewOf(d, id)) == Rest
  {
    hide ValidCtx;
  }

  lemma StepMoves(c: Ctx, d: Ctx, id: nat)
    requires ValidCtx(c) && id < MAX_STREAMS && Step(c, d) && c.streams[id].send && c.streams[id].xfr != Isochronous
    ensures Moves(c, d, id)
    ensures var v, w := ViewOf(c, id), ViewOf(d, id); v.failed ==> w.failed && MoveOf(v, w) == Rest
  {
    hide ServeOut, ServeAck, ServeIn, ServeReply, Moves, Toggles, StreamsOk, Interlude;
    if Interlude(c, d) {
      InterludeRests(c, d, id);
      if c.hostSt == HS_ERROR {
        InterludeFails(c, d, id);
      }
    } else {
      ServiceMoves(c, id);
    }
  }

  lemma Begins(cs: seq<Ctx>, id: nat)
    requires Run(cs) && |cs| == 1 && id < MAX_STREAMS && Fresh(cs[0], id)
    ensures Inv(ViewOf(cs[0], id), LogOf(cs, id), id, cs[0].epOut[Ep(id)])
  {
    hide StreamsOk, Toggles;
    Lengths(cs[0]);
  }

  /** The run without its last state. */
  lemma Shorter(cs: seq<Ctx>)
    requires Run(cs) && |cs| > 1
    ensures Run(cs[..|cs| - 1]) && Step(cs[|cs| - 2], cs[|cs| - 1]) && cs[..|cs| - 1][0] == cs[0]
  {
    hide Step, ValidCtx;
    var n := |cs| - 1;
    assert Step(cs[n - 1], cs[n - 1 + 1]);
    forall k | 0 <= k < n - 1
      ensures Step(cs[..n][k], cs[..n][k + 1])
    {
      assert Step(cs[k], cs[k + 1]);
    }
  }

  /** The invariant holds in every state of every run. */
  lemma {:induction false} RunKeeps(cs: seq<Ctx>, id: nat)
    requires Run(cs) && id < MAX_STREAMS && Fresh(cs[0], id)
    ensures Inv(ViewOf(cs[|cs| - 1], id), LogOf(cs, id), id, cs[0].epOut[Ep(id)])
  {
    if |cs| == 1 {
      Begins(cs, id);
    } else {
      var n := |cs| - 1;
      Shorter(cs);
      RunKeeps(cs[..n], id);
      Sends(ViewOf(cs[n - 1], id), LogOf(cs[..n], id), id, cs[0].epOut[Ep(id)]);
      hide Step, ValidCtx, Inv, LogStep, Fresh, Effect;
      StepMoves(cs[n - 1], cs[n], id);
      StepKeeps(ViewOf(cs[n - 1], id), ViewOf(cs[n], id), LogOf(cs[..n], id), id, cs[0].epOut[Ep(id)]);
    }
  }

  lemma Sends(v: View, l: Log, id: nat, first: bv8)
    requires id < MAX_STREAMS && Inv(v, l, id, first)
    ensures v.s.send && v.s.xfr != Isochronous
  {}

  // ---- The device's packets ----------------------------------------------------------------------------

  /** Each kept packet carries the PID whose turn it was: one step of the toggle per packet kept before it, and
      one per packet that was refused and had its turn all the same. The signature, once taken, gives the
      first turn and the device's LFSR. */
  predicate Incoming(v: View, l: Log, c: Ctx, id: nat)
    requires ValidCtx(c) && id < MAX_STREAMS
  {
    && |l.marks| == |l.kept| && v.inToggle == Alternate(l.firstIn, |l.kept| + l.slips)
    && (forall k :: 0 <= k < |l.kept| ==> InTurn(l.kept[k], Alternate(l.firstIn, k + l.marks[k])))
    && (if v.s.retrieve && v.s.sigExpected then l.kept == [] && l.slips == 0 && l.sign.None?
        else l.sign.Some? <==> v.s.retrieve)
    && (match l.sign
        case None => l.base == c.streams[id].tstLfsr && l.firstIn == c.epIn[Ep(id)]
        case Some(x) => Signed(x) && l.base == x.bytes[5] && l.firstIn == ToggleAdvance(x.bytes[0]))
  }

  /** A packet of exactly PID, signature and CRC. */
  predicate Signed(x: Desc) {
    |x.bytes| == 3 + SIGNATURE && x.dataStart == 0 && WellSigned(x.bytes[1..])
  }

  lemma IncomingTake(v: View, w: View, l: Log, c: Ctx, id: nat, x: Desc)
    requires ValidCtx(c) && id < MAX_STREAMS && Incoming(v, l, c, id) && Taking(v, w, x) && SameSetup(v.s, w.s)
    ensures Incoming(w, LogStep(l, w, Take(x)), c, id)
  {
    hide ValidCtx, Intact, Kept, LfsrAt, LfsrSeq, Alternate, ToggleAdvance, Payload, Signed;
    var n := LogStep(l, w, Take(x));
    AlternateNext(l.firstIn, |l.kept| + l.slips);
    assert |n.kept| + n.slips == |l.kept| + l.slips + 1;
    forall k | 0 <= k < |n.kept|
      ensures InTurn(n.kept[k], Alternate(n.firstIn, k + n.marks[k]))
    {
      if k < |l.kept| {
        assert n.kept[k] == l.kept[k] && n.marks[k] == l.marks[k];
      }
    }
  }

  lemma IncomingSlip(v: View, w: View, l: Log, c: Ctx, id: nat, x: Desc)
    requires ValidCtx(c) && id < MAX_STREAMS && Incoming(v, l, c, id) && Slipping(v, w, x) && SameSetup(v.s, w.s)
    ensures Incoming(w, LogStep(l, w, Slip(x)), c, id)
  {
    hide ValidCtx, Slips, InTurn, Alternate, ToggleAdvance, Signed;
    AlternateNext(l.firstIn, |l.kept| + l.slips);
    assert |l.kept| + (l.slips + 1) == |l.kept| + l.slips + 1;
  }

  lemma IncomingSign(v: View, w: View, l: Log, c: Ctx, id: nat, x: Desc)
    requires ValidCtx(c) && id < MAX_STREAMS && Incoming(v, l, c, id) && Signing(v, w, x) && SameSetup(v.s, w.s)
    ensures Incoming(w, LogStep(l, w, Sign(x)), c, id)
  {
    hide ValidCtx, InTurn, ToggleAdvance, WellSigned, SeqNo;
    AlternateStart(w.inToggle, |l.kept| + l.slips);
  }

  lemma AlternateStart(first: bv8, n: nat)
    requires n == 0
    ensures Alternate(first, n) == first
  {}

  lemma StepIncoming(v: View, w: View, l: Log, c: Ctx, id: nat)
    requires ValidCtx(c) && id < MAX_STREAMS && Incoming(v, l, c, id) && Effect(v, w, id, MoveOf(v, w))
    ensures Incoming(w, LogStep(l, w, MoveOf(v, w)), c, id)
  {
    hide ValidCtx, MoveOf, Taking, Signing, Slipping, InTurn, Signed, Alternate, ToggleAdvance, Reply, LfsrAt,
      Scrambled, Kept;
    match MoveOf(v, w)
    case Take(x) => hide Incoming, LogStep; IncomingTake(v, w, l, c, id, x);
    case Sign(x) => hide Incoming, LogStep; IncomingSign(v, w, l, c, id, x);
    case Slip(x) => hide Incoming, LogStep; IncomingSlip(v, w, l, c, id, x);
    case _ =>
  }

  /** It holds in every state of every run of a live stream. */
  lemma {:induction false} RunIncoming(cs: seq<Ctx>, id: nat)
    requires Run(cs) && id < MAX_STREAMS && Fresh(cs[0], id)
    ensures Incoming(ViewOf(cs[|cs| - 1], id), LogOf(cs, id), cs[0], id)
  {
    if |cs| == 1 {
      IncomingBegins(cs, id);
    } else {
      var n := |cs| - 1;
      Shorter(cs);
      RunIncoming(cs[..n], id);
      RunKeeps(cs[..n], id);
      Sends(ViewOf(cs[n - 1], id), LogOf(cs[..n], id), id, cs[0].epOut[Ep(id)]);
      hide Step, ValidCtx, Inv, LogStep, Fresh, Effect, Incoming;
      StepMoves(cs[n - 1], cs[n], id);
      StepIncoming(ViewOf(cs[n - 1], id), ViewOf(cs[n], id), LogOf(cs[..n], id), cs[0], id);
    }
  }

  lemma IncomingBegins(cs: seq<Ctx>, id: nat)
    requires Run(cs) && |cs| == 1 && id < MAX_STREAMS && Fresh(cs[0], id)
    ensures Incoming(ViewOf(cs[0], id), LogOf(cs, id), cs[0], id)
  {
    hide StreamsOk, Toggles;
    Lengths(cs[0]);
  }

  // ---- What the invariant gives ----------------------------------------------------------------------

  /** Exactly-once delivery. In every run of a stream: the kept packets are those already returned,
      followed by those still queued; each accepted packet answers the next kept one, and has the length
      of its data field; and the i-th byte the device accepts is the i-th byte it sent combined with the
      i-th value of the host's LFSR. With checking on, that is the i-th value of the device's LFSR, from the
      fifth byte of the stream's signature on (or from the stream's own seed where the host makes up the
      device's packets). */
  lemma ExactlyOnce(cs: seq<Ctx>, id: nat)
    requires Run(cs) && id < MAX_STREAMS && Fresh(cs[0], id)
    ensures var l, c := LogOf(cs, id), cs[|cs| - 1];
      && |l.outs| <= |l.kept| && l.kept[|l.outs|..] == c.queues[id]
      && Matched(l, c.streams[id].xfr)
      && l.acked == JoinedOuts(l.outs) && |l.acked| <= |l.taken|
      && (forall i :: 0 <= i < |l.acked| ==> l.acked[i] == l.taken[i] ^ LfsrAt(DpiSeed(id), i))
      && (c.streams[id].checking ==>
            forall i :: 0 <= i < |l.acked| ==> l.acked[i] == LfsrAt(l.base, i) ^ LfsrAt(DpiSeed(id), i))
    ensures var l, s := LogOf(cs, id), cs[|cs| - 1].streams[id];
      if s.retrieve then l.kept != [] ==> l.sign.Some? && Signed(l.sign.value) && l.base == l.sign.value.bytes[5]
      else l.base == cs[0].streams[id].tstLfsr
  {
    RunKeeps(cs, id);
    BaseIs(cs, id);
    hide Run, LfsrAt, DpiSeed, Matched, Joined, JoinedOuts, OnTheWay, Alternate, LogOf, LfsrSeq, Signed;
  }

  /** The LFSR value the device's bytes are followed from: the signature's fifth byte, or the stream's own. */
  lemma BaseIs(cs: seq<Ctx>, id: nat)
    requires Run(cs) && id < MAX_STREAMS && Fresh(cs[0], id)
    ensures var l, s := LogOf(cs, id), cs[|cs| - 1].streams[id];
      if s.retrieve then l.kept != [] ==> l.sign.Some? && Signed(l.sign.value) && l.base == l.sign.value.bytes[5]
      else l.base == cs[0].streams[id].tstLfsr
  {
    RunIncoming(cs, id);
    hide Run, Alternate, LogOf, InTurn, Signed, ToggleAdvance;
  }

  /** The packets the device accepts carry DATA0 and DATA1 in turn. */
  lemma AcceptedAlternate(cs: seq<Ctx>, id: nat)
    requires Run(cs) && id < MAX_STREAMS && Fresh(cs[0], id)
    ensures var outs := LogOf(cs, id).outs;
      forall k :: 0 <= k < |outs| ==> OutPid(outs[k]) == Alternate(cs[0].epOut[Ep(id)], k)
  {
    RunKeeps(cs, id);
    hide Run, LfsrAt, DpiSeed, Matched, Joined, JoinedOuts, OnTheWay, Alternate, OutPid;
  }

  /** The k-th packet kept from the device carries the PID whose turn it was: DATA0 and DATA1 in turn, but for
      the turns that were used up by refused packets before it. */
  lemma KeptInTurn(cs: seq<Ctx>, id: nat)
    requires Run(cs) && id < MAX_STREAMS && Fresh(cs[0], id)
    ensures var l := LogOf(cs, id);
      |l.marks| == |l.kept| && forall k :: 0 <= k < |l.kept| ==> InTurn(l.kept[k], Alternate(l.firstIn, k + l.marks[k]))
  {
    RunIncoming(cs, id);
    hide Run, Alternate, InTurn;
  }

  /** So the kept packets carry DATA0 and DATA1 in turn if and only if the turns used up so before each of them
      are even in number. */
  lemma KeptAlternate(cs: seq<Ctx>, id: nat)
    requires Run(cs) && id < MAX_STREAMS && Fresh(cs[0], id)
    ensures var l := LogOf(cs, id);
      && |l.marks| == |l.kept|
      && ((forall k :: 0 <= k < |l.kept| ==> InTurn(l.kept[k], Alternate(l.firstIn, k)))
          <==> forall k :: 0 <= k < |l.marks| ==> l.marks[k] % 2 == 0)
  {
    hide Run, Alternate, InTurn, LogOf, IsToggle;
    KeptInTurn(cs, id);
    FirstToggle(cs, id);
    var l := LogOf(cs, id);
    forall k | 0 <= k < |l.kept|
      ensures InTurn(l.kept[k], Alternate(l.firstIn, k)) <==> l.marks[k] % 2 == 0
    {
      AlternateParity(l.firstIn, k, l.marks[k]);
      OneTurn(l.kept[k], Alternate(l.firstIn, k + l.marks[k]), Alternate(l.firstIn, k));
    }
  }

  /** A stream past its signature that is only offered packets with the PID whose turn it is not takes none of
      them, and waits for the other one for ever. */
  lemma {:induction false} NeverTaken(cs: seq<Ctx>, id: nat)
    requires Run(cs) && id < MAX_STREAMS && Live(cs[0], id) && cs[0].streams[id].retrieve
      && !cs[0].streams[id].sigExpected
    requires forall k :: 0 <= k < |cs| ==> OutOfTurn(ViewOf(cs[k], id), cs[0].epIn[Ep(id)])
    ensures var v := ViewOf(cs[|cs| - 1], id);
      LogOf(cs, id).kept == [] && v.inToggle == cs[0].epIn[Ep(id)] && v.s.retrieve && !v.s.sigExpected
      && v.s.send && v.s.xfr != Isochronous
  {
    var n := |cs| - 1;
    if n > 0 {
      Shorter(cs);
      forall k | 0 <= k < n
        ensures OutOfTurn(ViewOf(cs[..n][k], id), cs[0].epIn[Ep(id)])
      {
        assert OutOfTurn(ViewOf(cs[k], id), cs[0].epIn[Ep(id)]);
      }
      NeverTaken(cs[..n], id);
      hide Run, Step, ValidCtx, LogOf, Effect, OutOfTurn;
      StepMoves(cs[n - 1], cs[n], id);
      var v, w, l := ViewOf(cs[n - 1], id), ViewOf(cs[n], id), LogOf(cs[..n], id);
      NotTaken(v, w, id, l);
      LogIs(cs, id);
    }
  }

  /** Whatever packet the stream looks at carries another PID. */
  predicate OutOfTurn(v: View, next: bv8) {
    v.looking && v.recving.Some? && |v.recving.value.bytes| > 0 ==> v.recving.value.bytes[0] != next
  }

  lemma LogIs(cs: seq<Ctx>, id: nat)
    requires Run(cs) && |cs| > 1 && id < MAX_STREAMS && Run(cs[..|cs| - 1])
    ensures var n := |cs| - 1;
      var v, w := ViewOf(cs[n - 1], id), ViewOf(cs[n], id);
      LogOf(cs, id) == LogStep(LogOf(cs[..n], id), w, MoveOf(v, w))
  {}

  lemma NotTaken(v: View, w: View, id: nat, l: Log)
    requires id < MAX_STREAMS && Effect(v, w, id, MoveOf(v, w)) && OutOfTurn(v, v.inToggle) && v.s.retrieve
      && !v.s.sigExpected
    ensures LogStep(l, w, MoveOf(v, w)).kept == l.kept && w.inToggle == v.inToggle && !w.s.sigExpected
      && SameSetup(v.s, w.s)
  {
    var m := MoveOf(v, w);
    Unmoved(v, w, id, m);
    Stays(v, w, id, m);
    hide Effect, MoveOf, OutOfTurn;
  }

  lemma Stays(v: View, w: View, id: nat, m: Move)
    requires id < MAX_STREAMS && Effect(v, w, id, m) && !m.Take? && !m.Sign? && !m.Slip?
    ensures w.inToggle == v.inToggle && w.s.sigExpected == v.s.sigExpected && SameSetup(v.s, w.s)
  {
    hide Reply, LfsrAt, Scrambled, ToggleAdvance, Kept;
  }

  /** Only a packet in turn is taken, or slips. */
  lemma Unmoved(v: View, w: View, id: nat, m: Move)
    requires id < MAX_STREAMS && Effect(v, w, id, m) && OutOfTurn(v, v.inToggle) && v.s.retrieve && !v.s.sigExpected
    ensures !m.Take? && !m.Sign? && !m.Slip?
  {
    hide Signs, LfsrAt, LfsrSeq, ToggleAdvance, Payload, Kept, AsExpected;
  }

  lemma OneTurn(x: Desc, a: bv8, b: bv8)
    requires InTurn(x, a)
    ensures InTurn(x, b) <==> a == b
  {}

  lemma FirstToggle(cs: seq<Ctx>, id: nat)
    requires Run(cs) && id < MAX_STREAMS && Fresh(cs[0], id)
    ensures IsToggle(LogOf(cs, id).firstIn)
  {
    RunIncoming(cs, id);
    ToggleAt(cs[0], id);
    hide Run, LogOf, Alternate, ValidCtx;
    if LogOf(cs, id).sign.Some? {
      ToggleStays(LogOf(cs, id).sign.value.bytes[0]);
    }
  }

  lemma {:induction false} AlternateParity(first: bv8, k: nat, m: nat)
    requires IsToggle(first)
    ensures IsToggle(Alternate(first, k + m)) && IsToggle(Alternate(first, k))
    ensures Alternate(first, k + m) == Alternate(first, k) <==> m % 2 == 0
    ensures m % 2 == 1 ==> Alternate(first, k + m) == ToggleAdvance(Alternate(first, k))
    decreases m
  {
    if m == 0 {
      AlternateToggle(first, k);
    } else {
      AlternateParity(first, k, m - 1);
      AlternateNext(first, k + m - 1);
      ToggleStays(Alternate(first, k));
      ToggleStays(Alternate(first, k + m - 1));
      hide Alternate, ToggleAdvance;
    }
  }

  lemma {:induction false} AlternateToggle(first: bv8, k: nat)
    requires IsToggle(first)
    ensures IsToggle(Alternate(first, k))
  {
    if k > 0 {
      AlternateToggle(first, k - 1);
      ToggleStays(Alternate(first, k - 1));
    }
  }

  /** After a NAK, the next OUT transfer of the stream is the refused one, byte for byte: token, DATA
      PID, data field and CRC16. */
  lemma RetriedIdentically(cs: seq<Ctx>, id: nat)
    requires Run(cs) && |cs| > 1 && id < MAX_STREAMS && Fresh(cs[0], id)
    requires var n := |cs| - 1; Run(cs[..n]) && LogOf(cs[..n], id).refused.Some?
    ensures var n := |cs| - 1;
      var m := MoveOf(ViewOf(cs[n - 1], id), ViewOf(cs[n], id));
      m.Build? ==> cs[n].sending == LogOf(cs[..n], id).refused
  {
    var n := |cs| - 1;
    var v, w := ViewOf(cs[n - 1], id), ViewOf(cs[n], id);
    if MoveOf(v, w).Build? {
      Shorter(cs);
      RunKeeps(cs[..n], id);
      Sends(v, LogOf(cs[..n], id), id, cs[0].epOut[Ep(id)]);
      StepMoves(cs[n - 1], cs[n], id);
      hide Run, Step, ValidCtx, Inv;
      BuiltAgain(v, w, LogOf(cs[..n], id), id, cs[0].epOut[Ep(id)]);
    }
  }

  lemma BuiltAgain(v: View, w: View, l: Log, id: nat, first: bv8)
    requires id < MAX_STREAMS && Inv(v, l, id, first) && Effect(v, w, id, MoveOf(v, w)) && MoveOf(v, w).Build?
    requires l.refused.Some? && (v.failed ==> MoveOf(v, w) == Rest)
    ensures w.sending == l.refused
  {
    hide LfsrAt, LfsrSeq, DpiSeed, Reply, Matched, History, Tracked, Joined, Kept, Alternate;
    Head(v.q, v.s.xfr);
    ReplyOnly(v.q[0], v.s, v.s.(dpiLfsr := v.s.dpiLfsr), id, v.toggle, v.device);
  }
}
