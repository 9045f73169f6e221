/** Runs of the streaming host in which something goes wrong, step by step. */
module StreamExamples {
  import opened CrcRoutines
  import opened Transfer
  import opened Streams
  import opened StreamPackets
  import opened StreamMoves
  import opened StreamRuns
  import opened StreamLaws
  import opened StreamRestart
  import opened Seqs

  // ---- One step more -----------------------------------------------------------------------------------

  lemma Extends(cs: seq<Ctx>, d: Ctx)
    requires Run(cs) && ValidCtx(d) && Step(cs[|cs| - 1], d)
    ensures Run(cs + [d]) && (cs + [d])[..|cs|] == cs
  {
    hide ValidCtx, Step;
  }

  lemma LogExtends(cs: seq<Ctx>, d: Ctx, id: nat)
    requires Run(cs) && ValidCtx(d) && Step(cs[|cs| - 1], d) && id < MAX_STREAMS
    ensures Run(cs + [d])
    ensures var v, w := ViewOf(cs[|cs| - 1], id), ViewOf(d, id);
      LogOf(cs + [d], id) == LogStep(LogOf(cs, id), w, MoveOf(v, w))
  {
    Extends(cs, d);
    hide Run, LogStep, MoveOf, ViewOf;
    LogIs(cs + [d], id);
  }

  /** A step that the stream does not notice. */
  lemma Quiet(cs: seq<Ctx>, d: Ctx, id: nat)
    requires Run(cs) && ValidCtx(d) && Step(cs[|cs| - 1], d) && id < MAX_STREAMS
    requires var v, w := ViewOf(cs[|cs| - 1], id), ViewOf(d, id);
      && !v.waiting && !w.waiting && |w.q| == |v.q| && w.inToggle == v.inToggle && w.s.sigExpected == v.s.sigExpected
    ensures Run(cs + [d]) && LogOf(cs + [d], id) == LogOf(cs, id)
  {
    hide Run, ViewOf, LogOf, Step, ValidCtx;
    LogExtends(cs, d, id);
  }

  lemma Alone(c: Ctx)
    requires ValidCtx(c)
    ensures Run([c])
  {}

  lemma TimeIs(c: Ctx)
    requires ValidCtx(c)
    ensures TimeLeft(c) == (c.frameStart + FRAME_INTERVAL - c.tickBits) % TWO32
  {}

  // ---- A context to begin with -------------------------------------------------------------------------

  const SETTINGS: Setup := Setup(true, true, false, true)
  const PRETENDED: Setup := Setup(false, true, false, true)

  function BlankStream(): Stream { Stream(false, false, false, false, false, Control, 0, 0, 0, 0, 0, 0) }

  /** Late in a frame: 850 bit intervals are left of it. */
  lemma ExampleCtx() returns (a: Ctx)
    ensures Settled(a) && Total(a.queues) == 0 && (forall i :: 0 <= i < MAX_STREAMS ==> a.queues[i] == [])
    ensures a.hostSt == HS_STARTFRAME && a.sending.Some? && a.recving.None? && a.lost == 0
    ensures a.frameStart == 0 && a.tickBits == 11150 && !a.transmitting && a.epIn[Ep(0)] == PID_DATA0
    ensures |a.streams| == MAX_STREAMS && |a.queues| == MAX_STREAMS
  {
    var e := seq(MAX_ENDPOINTS, _ => PID_DATA0);
    var s, q := seq(MAX_STREAMS, _ => BlankStream()), seq(MAX_STREAMS, _ => []);
    BlankOk(s, q, e);
    NoneIn(q);
    hide SofDesc, Toggles, StreamsOk, StreamOk, BlankStream;
    a := Ctx(HS_STARTFRAME, OtherBus, 0, 0, 0, 0, s, q, e, e, Some(SofDesc(0)), None, false, 11150, 0, 0, 1, 0);
  }

  lemma BlankOk(s: seq<Stream>, q: seq<seq<Desc>>, e: seq<bv8>)
    requires |s| == |q| == MAX_STREAMS && |e| == MAX_ENDPOINTS
    requires forall i :: 0 <= i < MAX_STREAMS ==> s[i] == BlankStream() && q[i] == []
    requires forall i :: 0 <= i < MAX_ENDPOINTS ==> e[i] == PID_DATA0
    ensures Toggles(e) && StreamsOk(s, q)
  {}

  lemma ExampleInit(a: Ctx, c: Ctx, u: Setup)
    requires Settled(a) && Total(a.queues) == 0 && (forall i :: 0 <= i < MAX_STREAMS ==> a.queues[i] == [])
    requires Init(a, 1, [Bulk], u) == Some(c)
    ensures c == a.(nstreams := 1, streamIn := 0, streamOut := 0, streams := c.streams, queues := c.queues)
    ensures Total(c.queues) == 0 && |c.streams| == MAX_STREAMS && c.streams[0] == Initial(0, Bulk, u)
  {
    hide Toggles, StreamOk, RxShape;
    NoneIn(a.queues[..1]);
    NoneIn(c.queues);
  }

  /** One bulk stream, as streams_init leaves it. */
  lemma Initialised(u: Setup) returns (c: Ctx)
    requires u.send
    ensures ValidCtx(c) && c.nstreams == 1 && Fresh(c, 0) && c.streams[0] == Initial(0, Bulk, u)
      && Used(c) + c.lost <= 1
    ensures c.hostSt == HS_STARTFRAME && c.streamIn == 0 && c.streamOut == 0 && c.sending.Some? && c.recving.None?
    ensures c.frameStart == 0 && c.tickBits == 11150 && !c.transmitting && c.epIn[Ep(0)] == PID_DATA0
  {
    hide Initial, ValidCtx, Fresh, Init, Settled;
    var a := ExampleCtx();
    InitFresh(a, 1, [Bulk], u);
    c := Init(a, 1, [Bulk], u).value;
    ExampleInit(a, c, u);
  }

  // ---- A frame that begins too early -------------------------------------------------------------------

  /** A host with one bulk stream whose packets it makes up itself, about to begin. */
  predicate Pretends(c: Ctx) {
    && ValidCtx(c) && c.nstreams == 1 && c.streamIn == 0 && c.streamOut == 0 && c.hostSt == HS_STARTFRAME && Fresh(c, 0)
    && c.streams[0].xfr == Bulk && !c.streams[0].retrieve
    && c.frameStart == 0 && c.tickBits == 11150 && c.sending.Some? && Used(c) + c.lost <= 1
  }

  lemma PretendsShape(c: Ctx)
    requires Pretends(c)
    ensures c.queues[0] == [] && c.streams[0].send && c.streams[0].dpiLfsr == DpiSeed(0) && TimeLeft(c) == 850
    ensures NextId(c.streamOut, c.nstreams) == 0 && NextId(c.streamIn, c.nstreams) == 0
  {
    hide DpiSeed;
  }

  lemma Considered0(c: Ctx)
    requires Pretends(c)
    ensures Service(c) == Next(c.(streamOut := 0, hostSt := HS_STREAMIN)) && ValidCtx(Service(c).c)
  {
    hide Fresh, TimeLeft, Reply, Scrambled, LfsrAt, ReplyFits, Moves;
    PretendsShape(c);
    assert Service(c).Next?;
    ServiceMoves(c, 0);
    hide ValidCtx;
  }

  lemma Made0(c: Ctx, b: Ctx)
    requires Pretends(c) && b == c.(streamOut := 0, hostSt := HS_STREAMIN) && ValidCtx(b)
    ensures Service(b).Next? && ValidCtx(Service(b).c)
    ensures var d, x := Service(b).c, Generated(c.streams[0], c.epIn[Ep(0)], GEN_LENGTH);
      && d == b.(queues := c.queues[0 := [x]], hostSt := HS_STREAMOUT, epIn := d.epIn, streams := d.streams)
      && d.streams == c.streams[0 := c.streams[0].(tstLfsr := d.streams[0].tstLfsr)]
  {
    hide Fresh, Generated, LfsrAt, ToggleAdvance, Moves;
    PretendsShape(c);
    Lengths(c);
    assert Used(b) == Used(c) && TimeLeft(b) == TimeLeft(c);
    ServiceMoves(b, 0);
    hide ValidCtx, Used, TimeLeft;
  }

  lemma Sent0(c: Ctx, b: Ctx)
    requires ValidCtx(c) && ValidCtx(b) && (b.hostSt == HS_STREAMOUT || b.hostSt == HS_STARTFRAME) && b.sending.Some?
    requires b.nstreams == 1 && b.streamOut == 0
    requires TimeLeft(b) > MIN_TIME_LEFT && b.queues[0] == [Generated(c.streams[0], c.epIn[Ep(0)], GEN_LENGTH)]
    requires b.streams[0].xfr == Bulk && b.streams[0].send
    ensures Service(b).Next? && ValidCtx(Service(b).c) && Service(b) == ServeOut(b)
    ensures var d, s := Service(b).c, b.streams[0];
      && d == b.(hostSt := HS_WAITACK, streams := d.streams, sending := d.sending, transmitting := true,
                 busState := BulkOut, wait := (b.tickBits + 860) % TWO32, lastPid := 0)
      && d.sending.Some? && |d.streams| == MAX_STREAMS
      && d.streams[0].xfr == Bulk && d.streams[0].send && d.streams[0].dpiLfsr == LfsrAt(s.dpiLfsr, GEN_LENGTH)
  {
    hide Generated, LfsrAt, LfsrSeq, TimeLeft, Moves, Good, TokenBytes, Scramble;
    var x := b.queues[0][0];
    Lengths(c);
    GeneratedGood(c.streams[0], c.epIn[Ep(0)], GEN_LENGTH);
    GeneratedKept(x, Bulk);
    assert |Payload(x)| == GEN_LENGTH && ReplyFits(x);
    SeventyBytes(x, b.streams[0], 0, b.epOut[Ep(0)], b.devAddr);
    ServiceMoves(b, 0);
    Lengths(b);
    hide ValidCtx, Payload, Kept, ReplyFits, Reply;
  }

  lemma SeventyBytes(x: Desc, s: Stream, id: nat, next: bv8, device: bv8)
    requires Kept(x, s.xfr) && |Payload(x)| == GEN_LENGTH && id < MAX_STREAMS
    ensures |Reply(x, s, id, next, device).bytes| == 70
  {
    hide Crc16Bytes, Kept, Payload;
  }

  /** The packet is on the wire, and the device has not answered yet. */
  lemma Pending0(c: Ctx)
    requires ValidCtx(c) && c.hostSt == HS_WAITACK && c.streamOut == 0 && c.streams[0].xfr == Bulk
      && c.busState == BulkOut
    requires c.tickBits < c.wait && c.sending.Some?
    ensures Service(c) == Next(c.(sending := None)) && ValidCtx(Service(c).c)
  {
    hide Moves;
    assert Service(c) == Next(c.(sending := None, hostSt := HS_WAITACK));
    ServiceMoves(c, 0);
    hide ValidCtx;
  }

  lemma Clocked(c: Ctx, d: Ctx)
    requires ValidCtx(c) && d == c.(tickBits := d.tickBits, transmitting := d.transmitting, sending := d.sending)
      && d.tickBits < TWO32
    ensures ValidCtx(d) && Interlude(c, d) && Step(c, d)
  {
    hide Toggles, StreamsOk, RxShape, Service;
  }

  /** The first OUT packet of such a host is built when 850 bit intervals are left. */
  lemma FirstBuilt(c: Ctx) returns (cs: seq<Ctx>)
    requires Pretends(c)
    ensures Run(cs) && |cs| == 4 && cs[0] == c && ValidCtx(cs[3]) && ViewOf(cs[3], 0).waiting && cs[3].nstreams == 1
    ensures cs[3].busState == BulkOut && cs[3].sending.Some? && cs[3].streamOut == 0
    ensures cs[3].frameStart == 0 && cs[3].tickBits == 11150 && cs[3].wait == 12010
    ensures |cs[3].queues| == |cs[3].streams| == MAX_STREAMS && cs[3].streams[0].xfr == Bulk && cs[3].streams[0].send
    ensures cs[3].queues[0] == [Generated(c.streams[0], c.epIn[Ep(0)], GEN_LENGTH)]
  {
    hide Service, Fresh, Generated, LfsrAt, TimeLeft, Used, NextId, ValidCtx, Run, Interlude;
    PretendsShape(c);
    Lengths(c);
    Considered0(c);
    var c1 := Service(c).c;
    Made0(c, c1);
    var c2 := Service(c1).c;
    TimeIs(c);
    TimeIs(c2);
    Sent0(c, c2);
    var c3 := Service(c2).c;
    Lengths(c3);
    hide Pretends, LfsrAt;
    Alone(c);
    Extends([c], c1);
    Extends([c] + [c1], c2);
    Extends([c] + [c1] + [c2], c3);
    cs := [c] + [c1] + [c2] + [c3];
  }

  /** Its answer is awaited until the frame has run out: a run to a true frame boundary. */
  lemma FirstAwaited(c: Ctx) returns (cs: seq<Ctx>)
    requires Pretends(c)
    ensures Run(cs) && |cs| == 7 && cs[0] == c && ValidCtx(cs[6]) && ViewOf(cs[6], 0).waiting && AtBoundary(cs[6])
    ensures cs[6].tickBits == FRAME_INTERVAL < cs[6].wait && cs[6].nstreams == 1 && cs[6].streamOut == 0
    ensures |cs[6].queues| == |cs[6].streams| == MAX_STREAMS && cs[6].streams[0].xfr == Bulk && cs[6].streams[0].send
    ensures cs[6].queues[0] == [Generated(c.streams[0], c.epIn[Ep(0)], GEN_LENGTH)]
  {
    hide Service, Generated, ValidCtx, Run, Interlude, Pretends, Step;
    var ds := FirstBuilt(c);
    var c3 := ds[3];
    var c4 := c3.(tickBits := 11850, transmitting := false);
    Clocked(c3, c4);
    Pending0(c4);
    var c5 := Service(c4).c;
    Served(c4, c5);
    var c6 := c5.(tickBits := FRAME_INTERVAL, sending := c3.sending);
    Clocked(c5, c6);
    Extends(ds, c4);
    Extends(ds + [c4], c5);
    Extends(ds + [c4] + [c5], c6);
    cs := ds + [c4] + [c5] + [c6];
  }

  lemma Served(c: Ctx, d: Ctx)
    requires ValidCtx(c) && c.sending.Some? && Service(c) == Next(d)
    ensures Step(c, d)
  {
    hide ValidCtx, Service;
  }

  /** SOF is sent. */
  lemma Begun(b: Ctx) returns (d: Ctx, e: Ctx)
    requires ValidCtx(b) && ViewOf(b, 0).waiting && b.tickBits == FRAME_INTERVAL
    ensures ValidCtx(d) && Restarts(b, d) && d.transmitting && d.sending == Some(SofDesc(1))
    ensures ValidCtx(e) && Step(d, e) && TimeLeft(e) > MIN_TIME_LEFT && !ViewOf(e, 0).waiting
    ensures e == b.(hostSt := HS_STARTFRAME, frameStart := FRAME_INTERVAL, tickBits := FRAME_INTERVAL + 40,
                    transmitting := false, sending := Some(SofDesc(1)))
  {
    hide Service, TimeLeft, ValidCtx, Interlude, SofDesc;
    d := b.(hostSt := HS_STARTFRAME, frameStart := FRAME_INTERVAL, transmitting := true, sending := Some(SofDesc(1)));
    Anew(b, d);
    e := d.(tickBits := FRAME_INTERVAL + 40, transmitting := false);
    Clocked(d, e);
    TimeIs(e);
  }

  /** The stream is served again. */
  lemma ServedAgain(c: Ctx, b: Ctx) returns (d: Ctx, e: Ctx, f: Ctx)
    requires ValidCtx(c) && ValidCtx(b) && ViewOf(b, 0).waiting && b.tickBits == FRAME_INTERVAL
    requires b.nstreams == 1 && b.streamOut == 0 && b.streams[0].xfr == Bulk && b.streams[0].send
    requires b.queues[0] == [Generated(c.streams[0], c.epIn[Ep(0)], GEN_LENGTH)]
    ensures Restarts(b, d) && d.transmitting && d.sending == Some(SofDesc(1))
    ensures ValidCtx(d) && ValidCtx(e) && ValidCtx(f) && Step(d, e) && Step(e, f)
    ensures !MoveOf(ViewOf(d, 0), ViewOf(e, 0)).Build? && MoveOf(ViewOf(e, 0), ViewOf(f, 0)).Build?
  {
    Lengths(b);
    hide Service, Generated, TimeLeft, NextId, ValidCtx, Interlude, SofDesc, Step, Restarts;
    d, e := Begun(b);
    Sent0(c, e);
    f := Service(e).c;
    Served(e, f);
  }

  lemma ThreeRun(d: Ctx, e: Ctx, f: Ctx) returns (ds: seq<Ctx>)
    requires ValidCtx(d) && ValidCtx(e) && ValidCtx(f) && Step(d, e) && Step(e, f)
    requires !MoveOf(ViewOf(d, 0), ViewOf(e, 0)).Build?
    ensures ds == [d, e, f] && Run(ds) && ds[..2] == [d, e] && NoBuild([d, e], 0)
  {
    hide ValidCtx, Step, MoveOf, ViewOf;
    ds := [d, e, f];
  }

  /** It happens: from initialisation to an answer that is awaited when the frame ends, the restart, and the packet
      built then. It is not the one whose answer was awaited. */
  lemma FrameRestartExample() returns (cs: seq<Ctx>, ds: seq<Ctx>)
    ensures Run(cs) && cs[0].nstreams == 1 && cs[0].streams[0] == Initial(0, Bulk, PRETENDED) && Fresh(cs[0], 0)
    ensures var c := cs[|cs| - 1]; ValidCtx(c) && ViewOf(c, 0).waiting && AtBoundary(c) && c.tickBits < c.wait
    ensures Run(ds) && |ds| > 1 && Restarts(cs[|cs| - 1], ds[0])
    ensures MoveOf(ViewOf(ds[|ds| - 2], 0), ViewOf(ds[|ds| - 1], 0)).Build?
    ensures LogOf(cs, 0).flight.Some? && ds[|ds| - 1].sending != LogOf(cs, 0).flight
  {
    hide Initial, ValidCtx, Fresh, Run, LogOf, MoveOf, ViewOf, Generated, NoBuild, AtBoundary, Restarts, Pretends, Step;
    var c := PretendingHost();
    cs := FirstAwaited(c);
    var d, e, f := ServedAgain(c, cs[6]);
    ds := ThreeRun(d, e, f);
    BuiltAnew(c, cs, ds);
  }

  lemma BuiltAnew(c: Ctx, cs: seq<Ctx>, ds: seq<Ctx>)
    requires ValidCtx(c) && Run(cs) && cs[0] == c && Fresh(c, 0) && ViewOf(cs[|cs| - 1], 0).waiting
    requires cs[|cs| - 1].queues[0] == [Generated(c.streams[0], c.epIn[Ep(0)], GEN_LENGTH)]
    requires Run(ds) && |ds| > 1 && Restarts(cs[|cs| - 1], ds[0]) && NoBuild(ds[..|ds| - 1], 0)
    requires MoveOf(ViewOf(ds[|ds| - 2], 0), ViewOf(ds[|ds| - 1], 0)).Build?
    ensures LogOf(cs, 0).flight.Some? && ds[|ds| - 1].sending != LogOf(cs, 0).flight
  {
    FlightKnown(cs);
    Lengths(c);
    GeneratedGood(c.streams[0], c.epIn[Ep(0)], GEN_LENGTH);
    assert cs != [] && c.streams != [];
    hide *;
    FrameRestartGoesWrong(cs, ds, 0);
  }

  lemma FlightKnown(cs: seq<Ctx>)
    requires Run(cs) && Fresh(cs[0], 0) && ViewOf(cs[|cs| - 1], 0).waiting
    ensures LogOf(cs, 0).flight.Some?
  {
    assert !ViewOf(cs[|cs| - 1], 0).failed;
    hide Fresh, Run, LogOf, ViewOf, Inv;
    RunKeeps(cs, 0);
    Awaiting(ViewOf(cs[|cs| - 1], 0), LogOf(cs, 0), 0, cs[0].epOut[Ep(0)]);
  }

  lemma PretendingHost() returns (c: Ctx)
    ensures Pretends(c) && ValidCtx(c) && Fresh(c, 0) && c.nstreams == 1 && |c.streams| == MAX_STREAMS
    ensures c.streams[0] == Initial(0, Bulk, PRETENDED)
  {
    hide Initial, ValidCtx, Fresh;
    c := Initialised(PRETENDED);
    InitialKind(PRETENDED);
    Lengths(c);
  }

  lemma InitialKind(u: Setup)
    ensures Initial(0, Bulk, u).xfr == Bulk && Initial(0, Bulk, u).retrieve == u.retrieve
  {}

  // ---- A turn used up ----------------------------------------------------------------------------------

  /** One bulk stream of a device, with checking on and no refusals on purpose. */
  predicate OneDevice(c: Ctx) {
    && ValidCtx(c) && c.nstreams == 1 && c.sending.Some? && TimeLeft(c) > MIN_TIME_LEFT
    && c.streamIn == 0 && c.streamOut == 0
    && Polls(c.streams[0])
  }

  predicate Polls(s: Stream) { s.xfr == Bulk && s.send && s.retrieve && s.checking && !s.retrying }

  /** The host looks at packet x. */
  predicate LooksAt(c: Ctx, x: Desc) {
    && OneDevice(c) && c.hostSt == HS_ACKIFDATA && c.busState == BulkInData && c.recving == Some(x) && RxShape(x)
    && c.lastPid == x.bytes[0] && IsToggle(c.lastPid)
  }

  /** What the host makes of the packet it looks at. */
  lemma Looked(c: Ctx, x: Desc, s: Stream, r: Taken)
    requires LooksAt(c, x) && s == Counted(c.streams[0]) && r == Examine(x, s, c.epIn[Ep(0)]) && r.Taken?
    ensures Service(c).Next? && OneDevice(Service(c).c)
    ensures var d := Service(c).c;
      && d.streams == c.streams[0 := r.s.(sigExpected := r.s.sigExpected && !r.accept)] && d.hostSt == HS_STREAMOUT
      && d.queues == (if r.keep then c.queues[0 := c.queues[0] + [x]] else c.queues)
        && d.epIn == c.epIn[Ep(0) := r.next]
  {
    Lengths(c);
    ToggleAt(c, 0);
    Again(c, c.(recving := None));
    CountedKeeps(c.streams[0]);
    VerdictJudged(x, c.streams[0], c.epIn[Ep(0)]);
    assert Service(c).Next? by {
      hide ValidCtx, Examine, Counted;
    }
    ServiceMoves(c, 0);
    hide ValidCtx, Examine, Counted, Moves, Judged;
    TimeStays(c, Service(c).c);
  }

  lemma TimeStays(c: Ctx, d: Ctx)
    requires ValidCtx(c) && ValidCtx(d) && d.tickBits == c.tickBits && d.frameStart == c.frameStart
    ensures TimeLeft(d) == TimeLeft(c)
  {}

  /** The stream has nothing in hand and is past its signature. */
  predicate Asks(c: Ctx, next: bv8, lfsr: bv8) {
    && OneDevice(c) && c.queues[0] == [] && !c.streams[0].sigExpected && c.streams[0].tstLfsr == lfsr
      && c.epIn[Ep(0)] == next
  }

  lemma Turned(c: Ctx)
    requires OneDevice(c) && c.hostSt == HS_STREAMOUT && c.queues[0] == []
    ensures Service(c) == Next(c.(hostSt := HS_STREAMIN)) && ValidCtx(Service(c).c)
  {
    hide TimeLeft, Moves;
    assert NextId(c.streamOut, c.nstreams) == 0;
    ServiceMoves(c, 0);
    hide ValidCtx;
  }

  lemma Polled(c: Ctx)
    requires OneDevice(c) && c.hostSt == HS_STREAMIN
    ensures Service(c).Next? && ValidCtx(Service(c).c)
    ensures var d := Service(c).c;
      d == c.(sending := d.sending, transmitting := true, busState := BulkInToken, hostSt := HS_WAIT_PKT,
        lastPid := 0) && d.sending.Some?
  {
    hide TimeLeft, Moves, TokenBytes;
    assert NextId(c.streamIn, c.nstreams) == 0;
    ServiceMoves(c, 0);
    hide ValidCtx;
  }

  lemma Waited(c: Ctx)
    requires OneDevice(c) && c.hostSt == HS_WAIT_PKT
    ensures Service(c).Next? && ValidCtx(Service(c).c)
    ensures var d := Service(c).c; d == c.(wait := d.wait, hostSt := HS_ACKIFDATA)
  {
    hide Moves;
    ServiceMoves(c, 0);
    hide ValidCtx;
  }

  lemma Answers(c: Ctx, d: Ctx, x: Desc)
    requires OneDevice(c) && c.hostSt == HS_ACKIFDATA && RxShape(x) && IsToggle(x.bytes[0])
    requires d == c.(recving := Some(x), lastPid := x.bytes[0], busState := BulkInData, transmitting := false)
    ensures LooksAt(d, x) && Interlude(c, d) && Step(c, d)
  {
    hide Toggles, StreamsOk, Service;
  }

  lemma Goes(c: Ctx, d: Ctx)
    requires OneDevice(c) && ValidCtx(d) && d.nstreams == 1 && d.sending.Some? && d.tickBits == c.tickBits
      && d.frameStart == c.frameStart
    requires d.streamIn == 0 && d.streamOut == 0 && d.streams == c.streams
    ensures OneDevice(d)
  {
    TimeStays(c, d);
    hide ValidCtx, TimeLeft;
  }

  /** From one look to the next: the stream is polled, and the device sends packet x. */
  lemma NextLook(cs: seq<Ctx>, x: Desc, next: bv8, lfsr: bv8) returns (ds: seq<Ctx>)
    requires Run(cs) && Asks(cs[|cs| - 1], next, lfsr) && cs[|cs| - 1].hostSt == HS_STREAMOUT && RxShape(x)
      && IsToggle(x.bytes[0])
    ensures Run(ds) && ds != [] && ds[0] == cs[0] && LogOf(ds, 0) == LogOf(cs, 0)
    ensures LooksAt(ds[|ds| - 1], x) && Asks(ds[|ds| - 1], next, lfsr)
  {
    var c := cs[|cs| - 1];
    Turned(c);
    var c1 := Service(c).c;
    Goes(c, c1);
    Polled(c1);
    var c2 := Service(c1).c;
    Goes(c1, c2);
    Waited(c2);
    var c3 := Service(c2).c;
    Goes(c2, c3);
    var c4 := c3.(recving := Some(x), lastPid := x.bytes[0], busState := BulkInData, transmitting := false);
    Answers(c3, c4, x);
    hide Run, Service, ValidCtx, TimeLeft, LogOf, Interlude, RxShape, Polls;
    Served(c, c1);
    Served(c1, c2);
    Served(c2, c3);
    Quiet(cs, c1, 0);
    Quiet(cs + [c1], c2, 0);
    Quiet(cs + [c1] + [c2], c3, 0);
    Quiet(cs + [c1] + [c2] + [c3], c4, 0);
    ds := cs + [c1] + [c2] + [c3] + [c4];
  }

  /** The device's three packets: the signature, a packet with a wrong byte, and the byte that was expected. */
  function Signature(): Desc {
    Desc([PID_DATA0] + (SIG_HEAD + [0x10, 0, 0, 0] + [1, 0, 0, 0] + SIG_TAIL) + [0, 0], 0)
  }

  function WrongByte(): Desc { Desc(DataBytes(PID_DATA1, [0x11]), 0) }

  function RightByte(): Desc { Desc(DataBytes(PID_DATA0, [0x10]), 0) }

  lemma SignatureSigns()
    ensures RxShape(Signature()) && Signs(Signature(), 0) && Signature().bytes[0] == PID_DATA0
      && Signature().bytes[5] == 0x10
  {
    var number, length := [0x10, 0, 0, 0], [1, 0, 0, 0];
    Placed(PID_DATA0, SIG_HEAD, number, length, SIG_TAIL, [0, 0]);
    assert length[0] != [0, 0, 0, 0][0];
  }

  lemma Placed(pid: bv8, head: seq<bv8>, a: seq<bv8>, b: seq<bv8>, tail: seq<bv8>, crc: seq<bv8>)
    requires |head| == |a| == |b| == |tail| == 4 && |crc| == 2
    ensures var x := [pid] + (head + a + b + tail) + crc;
      && |x| == 19 && x[0] == pid && x[5] == a[0] && |x[1..]| == 18 && x[1..][..4] == head && x[1..][8..12] == b
      && x[1..][12..16] == tail && x[1..][6] == a[2] && x[1..][7] == a[3] && x[1..][11] == b[3]
  {}

  lemma OneByteOf(x: bv8)
    ensures LfsrSeq(x, 1) == [x]
  {
    assert LfsrAt(x, 0) == x;
  }

  lemma Shapes()
    ensures RxShape(WrongByte()) && WrongByte().bytes[0] == PID_DATA1 && !TooShort(WrongByte())
    ensures RxShape(RightByte()) && RightByte().bytes[0] == PID_DATA0 && !TooShort(RightByte())
  {
    hide Crc16Bytes;
  }

  /** Behind the signature and the packets that follow it. */
  predicate Past(s: Stream, lfsr: bv8) {
    s.xfr == Bulk && s.checking && !s.sigExpected && s.tstLfsr == lfsr
  }

  lemma WrongExamined(s: Stream)
    requires Past(s, 0x10)
    ensures RxShape(WrongByte()) && Examine(WrongByte(), s, PID_DATA1) == Taken(false, false, s, PID_DATA0)
  {
    Shapes();
    hide Intact, LfsrSeq, Crc16Bytes, DataBytes, Payload, RxShape, TooShort, Examine, Followed, ToggleAdvance;
    DataIntact(PID_DATA1, [0x11]);
    OneByteOf(0x10);
    Toggled();
    ExaminedPlain(WrongByte(), s, PID_DATA1);
  }

  lemma RightExamined(s: Stream)
    requires Past(s, 0x10)
    ensures RxShape(RightByte()) && Examine(RightByte(), s, PID_DATA0).Taken?
    ensures Examine(RightByte(), s, PID_DATA0).accept && Examine(RightByte(), s, PID_DATA0).keep
    ensures Intact(RightByte())
  {
    Shapes();
    hide Intact, LfsrSeq, Crc16Bytes, DataBytes, Payload, RxShape, TooShort, Examine, Followed, ToggleAdvance;
    DataIntact(PID_DATA0, [0x10]);
    OneByteOf(0x10);
    ExaminedPlain(RightByte(), s, PID_DATA0);
  }

  lemma Toggled()
    ensures ToggleAdvance(PID_DATA0) == PID_DATA1 && ToggleAdvance(PID_DATA1) == PID_DATA0 && PID_DATA0 != PID_DATA1
    ensures IsToggle(PID_DATA0) && IsToggle(PID_DATA1)
  {}

  /** The signature is taken. */
  lemma SignatureTaken(c: Ctx)
    requires LooksAt(c, Signature()) && c.queues[0] == [] && c.streams[0].sigExpected && c.streams[0].tstSeq == 0
    requires c.epIn[Ep(0)] == PID_DATA0
    ensures Service(c).Next? && Asks(Service(c).c, PID_DATA1, 0x10) && Service(c).c.hostSt == HS_STREAMOUT
    ensures MoveOf(ViewOf(c, 0), ViewOf(Service(c).c, 0)) == Sign(Signature())
  {
    var x, s := Signature(), Counted(c.streams[0]);
    Lengths(c);
    SignatureSigns();
    Toggled();
    CountedKeeps(c.streams[0]);
    ExaminedSign(x, s, PID_DATA0);
    hide Examine, Counted, ToggleAdvance, Signature, Signs, ValidCtx, TooShort, IsToggle, RxShape, TimeLeft;
    Looked(c, x, s, Examine(x, s, PID_DATA0));
    Lengths(Service(c).c);
  }

  lemma CountedPast(c: Ctx, next: bv8, lfsr: bv8)
    requires Asks(c, next, lfsr)
    ensures Past(Counted(c.streams[0]), lfsr)
  {
    CountedKeeps(c.streams[0]);
    hide Counted, ValidCtx, TimeLeft;
  }

  lemma SlipSeen(v: View, w: View, x: Desc)
    requires !v.waiting && !w.waiting && w.q == v.q && v.recving == Some(x) && !v.s.sigExpected
      && w.inToggle != v.inToggle
    ensures MoveOf(v, w) == Slip(x)
  {}

  lemma TakeSeen(v: View, w: View, x: Desc)
    requires !v.waiting && !w.waiting && w.q == v.q + [x]
    ensures MoveOf(v, w) == Take(x)
  {}

  /** The wrong byte uses up its turn. */
  lemma WrongRefused(c: Ctx)
    requires LooksAt(c, WrongByte()) && Asks(c, PID_DATA1, 0x10)
    ensures Service(c).Next? && Asks(Service(c).c, PID_DATA0, 0x10) && Service(c).c.hostSt == HS_STREAMOUT
    ensures MoveOf(ViewOf(c, 0), ViewOf(Service(c).c, 0)) == Slip(WrongByte())
  {
    Lengths(c);
    CountedPast(c, PID_DATA1, 0x10);
    Toggled();
    hide Examine, Counted, ToggleAdvance, WrongByte, ValidCtx, IsToggle, RxShape, TimeLeft, Polls, Service, MoveOf;
    var s := Counted(c.streams[0]);
    WrongExamined(s);
    Looked(c, WrongByte(), s, Taken(false, false, s, PID_DATA0));
    var d := Service(c).c;
    hide Past;
    SlipSeen(ViewOf(c, 0), ViewOf(d, 0), WrongByte());
  }

  /** The right byte is kept. */
  lemma RightKept(c: Ctx)
    requires LooksAt(c, RightByte()) && Asks(c, PID_DATA0, 0x10)
    ensures Service(c).Next? && OneDevice(Service(c).c)
    ensures MoveOf(ViewOf(c, 0), ViewOf(Service(c).c, 0)) == Take(RightByte())
  {
    Lengths(c);
    CountedPast(c, PID_DATA0, 0x10);
    hide Examine, Counted, ToggleAdvance, RightByte, ValidCtx, IsToggle, RxShape, TimeLeft, Polls, Service, MoveOf,
      Past;
    var s := Counted(c.streams[0]);
    RightExamined(s);
    Looked(c, RightByte(), s, Examine(RightByte(), s, PID_DATA0));
    TakeSeen(ViewOf(c, 0), ViewOf(Service(c).c, 0), RightByte());
  }

  /** A call more. */
  lemma Runs(cs: seq<Ctx>, c: Ctx) returns (ds: seq<Ctx>)
    requires Run(cs) && cs[|cs| - 1] == c && OneDevice(c) && Service(c).Next? && OneDevice(Service(c).c)
    ensures Run(ds) && ds != [] && ds[0] == cs[0] && ds[|ds| - 1] == Service(c).c
    ensures LogOf(ds, 0) == LogStep(LogOf(cs, 0), ViewOf(Service(c).c, 0),
      MoveOf(ViewOf(c, 0), ViewOf(Service(c).c, 0)))
  {
    assert cs != [];
    hide ValidCtx, Service, LogOf, LogStep, MoveOf, ViewOf, Run, Step, TimeLeft, Polls;
    var d := Service(c).c;
    Served(c, d);
    LogExtends(cs, d, 0);
    ds := cs + [d];
  }

  /** The start: an initialised stream, polled, and the signature received. */
  lemma FirstLook() returns (c: Ctx)
    ensures ValidCtx(c) && Fresh(c, 0) && LooksAt(c, Signature()) && c.queues[0] == [] && c.streams[0].sigExpected
    ensures c.streams[0].tstSeq == 0 && c.epIn[Ep(0)] == PID_DATA0 && c.streams[0] == Initial(0, Bulk, SETTINGS)
  {
    hide Initial, ValidCtx, Fresh, Signature, TimeLeft, RxShape, IsToggle;
    var b := Initialised(SETTINGS);
    SignatureSigns();
    Toggled();
    InitialPolls();
    TimeIs(b);
    c := b.(hostSt := HS_ACKIFDATA, busState := BulkInData, lastPid := PID_DATA0, recving := Some(Signature()));
    FirstValid(b, c);
    TimeIs(c);
    FirstFresh(b, c);
  }

  lemma InitialPolls()
    ensures var s := Initial(0, Bulk, SETTINGS); Polls(s) && s.sigExpected && s.tstSeq == 0 && s.retrieve
  {}

  lemma FirstFresh(b: Ctx, c: Ctx)
    requires ValidCtx(b) && ValidCtx(c) && Fresh(b, 0) && c.streams == b.streams && c.queues == b.queues
    requires c.hostSt == HS_ACKIFDATA && c.epIn == b.epIn
    ensures Fresh(c, 0) && c.queues[0] == []
  {
    hide ValidCtx, DpiSeed;
  }

  lemma FirstValid(b: Ctx, c: Ctx)
    requires ValidCtx(b) && RxShape(Signature()) && b.streams[b.streamIn].retrieve
    requires c == b.(hostSt := HS_ACKIFDATA, busState := BulkInData, lastPid := PID_DATA0, recving := Some(Signature()))
    ensures ValidCtx(c)
  {
    hide Toggles, StreamsOk, RxShape, Signature;
  }

  /** It happens: behind the signature the device sends a wrong byte under DATA1, which is refused and has its turn all
      the same, and then the right one under DATA0, which is kept: the first packet kept carries DATA0, though
      the signature's PID was DATA0 too. */
  lemma KeptAlternateExample() returns (cs: seq<Ctx>)
    ensures Run(cs) && Fresh(cs[0], 0) && cs[0].streams[0] == Initial(0, Bulk, SETTINGS)
    ensures var l := LogOf(cs, 0);
      && l.sign == Some(Signature()) && l.kept == [RightByte()] && l.marks == [1]
      && !InTurn(l.kept[0], Alternate(l.firstIn, 0))
  {
    var c := FirstLook();
    Shapes();
    Toggled();
    hide Fresh, Run, Service, ValidCtx, Signature, WrongByte, RightByte, LogOf, Initial, ViewOf, MoveOf, InTurn,
      IsToggle,
      ToggleAdvance, RxShape, Polls, TimeLeft, TooShort;
    Alone(c);
    FirstLog(c);
    SignatureTaken(c);
    cs := Runs([c], c);
    FirstTurn(Service(c).c, PID_DATA1, 0x10);
    cs := NextLook(cs, WrongByte(), PID_DATA1, 0x10);
    var c1 := cs[|cs| - 1];
    WrongRefused(c1);
    cs := Runs(cs, c1);
    cs := NextLook(cs, RightByte(), PID_DATA0, 0x10);
    var c2 := cs[|cs| - 1];
    RightKept(c2);
    cs := Runs(cs, c2);
    RightOutOfTurn();
  }

  lemma FirstLog(c: Ctx)
    requires ValidCtx(c)
    ensures var l := LogOf([c], 0); l.kept == [] && l.marks == [] && l.slips == 0 && l.sign.None?
  {}

  lemma FirstTurn(c: Ctx, next: bv8, lfsr: bv8)
    requires Asks(c, next, lfsr)
    ensures ViewOf(c, 0).inToggle == next
  {
    hide ValidCtx;
  }

  lemma RightOutOfTurn()
    ensures !InTurn(RightByte(), PID_DATA1) && Alternate(PID_DATA1, 0) == PID_DATA1
  {
    Shapes();
    Toggled();
    hide RightByte, Intact;
  }
}
