/** Further laws of the streaming host: initialisation, the signature, refusals made on purpose, the order in
    which streams are served, and failures. */
module StreamLaws {
  import opened Transfer
  import opened Streams
  import opened StreamPackets
  import opened StreamMoves
  import opened StreamRuns
  import opened Seqs

  // ---- streams_init ----------------------------------------------------------------------------------

  datatype Setup = Setup(retrieve: bool, checking: bool, retrying: bool, send: bool)

  function Initial(id: nat, t: XfrType, u: Setup): Stream
    requires id < MAX_STREAMS
  {
    Stream(u.retrieve, u.send, u.retrying, u.checking, true, t, 0, TstSeed(id), DpiSeed(id), DpiSeed(id),
      RetrySeed(id), 0)
  }

  /** The first n streams anew. */
  function InitStreams(a: seq<Stream>, n: nat, types: seq<XfrType>, u: Setup): (r: seq<Stream>)
    requires |a| == MAX_STREAMS && n <= |types|
    ensures |r| == MAX_STREAMS
  {
    seq(MAX_STREAMS, i requires 0 <= i < MAX_STREAMS => if i < n then Initial(i, types[i], u) else a[i])
  }

  function InitQueues(a: seq<seq<Desc>>, n: nat): (r: seq<seq<Desc>>)
    requires |a| == MAX_STREAMS
    ensures |r| == MAX_STREAMS
  {
    seq(MAX_STREAMS, i requires 0 <= i < MAX_STREAMS => if i < n then [] else a[i])
  }

  /** None where the number of streams cannot be supported. */
  function Init(c: Ctx, n: nat, types: seq<XfrType>, u: Setup): Option<Ctx>
    requires |c.streams| == MAX_STREAMS && |c.queues| == MAX_STREAMS && n <= |types|
  {
    if n == 0 || n > MAX_STREAMS then None
    else
      Some(c.(nstreams := n, streamIn := 0, streamOut := n - 1, lost := c.lost + Total(c.queues[..n]),
              streams := InitStreams(c.streams, n, types, u), queues := InitQueues(c.queues, n)))
  }

  /** A context but for the number of streams. */
  predicate Settled(c: Ctx) {
    && Toggles(c.epIn) && Toggles(c.epOut) && StreamsOk(c.streams, c.queues)
    && (c.recving.Some? ==> RxShape(c.recving.value))
    && c.tickBits < TWO32 && c.frameStart < TWO32 && c.devAddr < 0x80
  }

  /** An initialised context is a context, and every stream that sends is where its history begins. */
  lemma InitFresh(c: Ctx, n: nat, types: seq<XfrType>, u: Setup)
    requires Settled(c) && 1 <= n <= MAX_STREAMS && n <= |types|
      && (c.hostSt == HS_STARTFRAME || c.hostSt == HS_NEXTFRAME)
    ensures var d := Init(c, n, types, u);
      && d.Some? && ValidCtx(d.value) && d.value.nstreams == n && d.value.streamIn == 0 && d.value.streamOut == n - 1
      && forall id :: 0 <= id < n ==>
           && d.value.streams[id] == Initial(id, types[id], u) && d.value.queues[id] == []
           && (u.send && types[id] != Isochronous ==> Fresh(d.value, id))
  {
    hide Toggles, Initial, DpiSeed, TstSeed;
    var d := Init(c, n, types, u).value;
    forall i | 0 <= i < MAX_STREAMS
      ensures StreamOk(d.streams[i], d.queues[i])
    {
      InitialShape(i, if i < |types| then types[i] else Bulk, u);
    }
    assert StreamsOk(d.streams, d.queues);
    forall id | 0 <= id < n
      ensures d.streams[id] == Initial(id, types[id], u) && d.queues[id] == []
    {}
    forall id | 0 <= id < n && u.send && types[id] != Isochronous
      ensures Fresh(d, id)
    {
      InitialShape(id, types[id], u);
    }
  }

  lemma InitialShape(id: nat, t: XfrType, u: Setup)
    requires id < MAX_STREAMS
    ensures var s := Initial(id, t, u);
      s.xfr == t && s.sigExpected && s.send == u.send && s.dpiLfsr == DpiSeed(id) && s.rewindLfsr == DpiSeed(id)
        && s.nretries == 0
  {}

  /** The seeds, stream by stream. */
  const TST_SEEDS: seq<bv8> :=
    [0x10, 0x17, 0x1E, 0x25, 0x2C, 0x33, 0x3A, 0x41, 0x48, 0x4F, 0x56, 0x5D, 0x64, 0x6B, 0x72]
  const DPI_SEEDS: seq<bv8> :=
    [0x9B, 0x94, 0x8D, 0x86, 0x7F, 0x78, 0x71, 0x6A, 0x63, 0x5C, 0x55, 0x4E, 0x47, 0x40, 0x39]
  const RETRY_SEEDS: seq<bv8> :=
    [0x24, 0x2B, 0x32, 0x39, 0x40, 0x47, 0x4E, 0x55, 0x5C, 0x63, 0x6A, 0x71, 0x78, 0x7F, 0x86]

  /** Where a stream begins. No seed is zero, where an LFSR would stay. */
  lemma InitialState(i: nat, t: XfrType, u: Setup)
    requires i < MAX_STREAMS
    ensures var s := Initial(i, t, u);
      && s.tstLfsr == TST_SEEDS[i] != 0 && s.dpiLfsr == s.rewindLfsr == DPI_SEEDS[i] != 0
      && s.retryLfsr == RETRY_SEEDS[i] != 0 && s.tstSeq == 0 && s.nretries == 0 && s.sigExpected && s.xfr == t
      && s.retrieve == u.retrieve && s.send == u.send && s.checking == u.checking && s.retrying == u.retrying
  {
    TstSeeds(i);
    DpiSeeds(i);
    RetrySeeds(i);
    hide TstSeed, DpiSeed, RetrySeed;
  }

  lemma TstSeeds(i: nat)
    requires i < MAX_STREAMS
    ensures TstSeed(i) == TST_SEEDS[i] != 0
  {
    if i < 8 {
      TstSeedsBelow(i);
    } else {
      TstSeedsAbove(i);
    }
  }

  lemma TstSeedsBelow(i: nat)
    requires i < 8
    ensures TstSeed(i) == TST_SEEDS[i] != 0
  {
    match i
    case 0 =>
    case 1 =>
    case 2 =>
    case 3 =>
    case 4 =>
    case 5 =>
    case 6 =>
    case 7 =>
  }

  lemma TstSeedsAbove(i: nat)
    requires 8 <= i < MAX_STREAMS
    ensures TstSeed(i) == TST_SEEDS[i] != 0
  {
    match i
    case 8 =>
    case 9 =>
    case 10 =>
    case 11 =>
    case 12 =>
    case 13 =>
    case 14 =>
  }

  lemma DpiSeeds(i: nat)
    requires i < MAX_STREAMS
    ensures DpiSeed(i) == DPI_SEEDS[i] != 0
  {
    if i < 8 {
      DpiSeedsBelow(i);
    } else {
      DpiSeedsAbove(i);
    }
  }

  lemma DpiSeedsBelow(i: nat)
    requires i < 8
    ensures DpiSeed(i) == DPI_SEEDS[i] != 0
  {
    match i
    case 0 =>
    case 1 =>
    case 2 =>
    case 3 =>
    case 4 =>
    case 5 =>
    case 6 =>
    case 7 =>
  }

  lemma DpiSeedsAbove(i: nat)
    requires 8 <= i < MAX_STREAMS
    ensures DpiSeed(i) == DPI_SEEDS[i] != 0
  {
    match i
    case 8 =>
    case 9 =>
    case 10 =>
    case 11 =>
    case 12 =>
    case 13 =>
    case 14 =>
  }

  lemma RetrySeeds(i: nat)
    requires i < MAX_STREAMS
    ensures RetrySeed(i) == RETRY_SEEDS[i] != 0
  {
    if i < 8 {
      RetrySeedsBelow(i);
    } else {
      RetrySeedsAbove(i);
    }
  }

  lemma RetrySeedsBelow(i: nat)
    requires i < 8
    ensures RetrySeed(i) == RETRY_SEEDS[i] != 0
  {
    match i
    case 0 =>
    case 1 =>
    case 2 =>
    case 3 =>
    case 4 =>
    case 5 =>
    case 6 =>
    case 7 =>
  }

  lemma RetrySeedsAbove(i: nat)
    requires 8 <= i < MAX_STREAMS
    ensures RetrySeed(i) == RETRY_SEEDS[i] != 0
  {
    match i
    case 8 =>
    case 9 =>
    case 10 =>
    case 11 =>
    case 12 =>
    case 13 =>
    case 14 =>
  }

  // ---- The signature ---------------------------------------------------------------------------------

  /** A signature is taken only from a packet of exactly PID, sixteen bytes and CRC that is well signed
      and in sequence, and the device's LFSR is then followed from its fifth byte. */
  lemma SignatureGivesBase(c: Ctx, x: Desc)
    requires ValidCtx(c) && c.recving == Some(x) && c.streams[c.streamIn].xfr != Isochronous
      && c.streams[c.streamIn].sigExpected
    requires Decide(c, x).Taken? && Decide(c, x).accept
    ensures var s, r := c.streams[c.streamIn], Decide(c, x);
      && Signs(x, s.tstSeq) && r.s.tstSeq == (s.tstSeq + 1) % 0x1_0000
      && r.s.tstLfsr == x.bytes[5] && r.next == ToggleAdvance(x.bytes[0]) && !r.keep
  {
    ToggleAt(c, c.streamIn);
    var s, next := c.streams[c.streamIn], c.epIn[Ep(c.streamIn)];
    CountedKeeps(s);
    ExaminedSign(x, Counted(s), next);
    hide ValidCtx, Counted, ToggleAdvance, RxShape, Examine, WellSigned, SeqNo, TooShort;
  }

  // ---- Refusals made on purpose ----------------------------------------------------------------------

  /** The call looks at a data packet for stream id. */
  predicate Looks(c: Ctx, id: nat)
    requires ValidCtx(c) && id < MAX_STREAMS
  {
    c.hostSt == HS_ACKIFDATA && c.streamIn == id && Answered(c, c.streams[id].xfr) && IsToggle(c.lastPid)
    && c.streams[id].xfr != Isochronous
  }

  /** How many refusals are drawn from the retry LFSR, by its three low bits. */
  function Drawn(x: bv8): (n: nat)
    ensures n <= 3
  {
    [0, 0, 0, 0, 1, 2, 2, 3][(x & 7) as nat]
  }

  /** And will refuse it whatever it holds. */
  predicate Feigns(c: Ctx, id: nat)
    requires ValidCtx(c) && id < MAX_STREAMS
  {
    Looks(c, id) && c.streams[id].retrying && c.streams[id].nretries > 0
  }

  lemma ExamineCounts(x: Desc, s: Stream, next: bv8)
    requires RxShape(x) && Examine(x, s, next).Taken?
    ensures Examine(x, s, next).s.nretries == s.nretries && Examine(x, s, next).s.xfr == s.xfr
      && Examine(x, s, next).s.retryLfsr == s.retryLfsr
  {
    var g := CheckSig(x, s, next);
    var s1 := s.(tstSeq := g.seqNo, tstLfsr := g.tst);
    ContentsCounts(x, s, next, 0, true);
    ContentsCounts(x, s1, g.next, 0, false);
    ContentsCounts(x, s1, g.next, SIGNATURE, true);
    hide CheckSig, Contents;
  }

  lemma ContentsCounts(x: Desc, s: Stream, next: bv8, offset: nat, accept: bool)
    requires RxShape(x)
    ensures var r := Contents(x, s, next, offset, accept);
      r.Taken? ==> r.s.nretries == s.nretries && r.s.xfr == s.xfr && r.s.retryLfsr == s.retryLfsr
  {
    hide CheckData;
  }

  lemma CountedRetries(s: Stream)
    requires s.xfr != Isochronous
    ensures if s.retrying && s.nretries > 0 then Counted(s).nretries == s.nretries - 1
      && Counted(s).retryLfsr == s.retryLfsr
      else Counted(s).nretries == Drawn(s.retryLfsr) && Counted(s).retryLfsr == LfsrAt(s.retryLfsr, 1)
  {
    DrawnIs(s.retryLfsr);
    assert LfsrAt(s.retryLfsr, 1) == Lfsr(LfsrAt(s.retryLfsr, 0));
    hide Lfsr, Retries, Drawn;
  }

  lemma DrawnIs(x: bv8)
    ensures Retries(x) == Drawn(x)
  {
    var r := x & 7;
    assert r == 0 || r == 1 || r == 2 || r == 3 || r == 4 || r == 5 || r == 6 || r == 7;
  }

  lemma CountedIso(s: Stream)
    requires s.xfr == Isochronous
    ensures Counted(s) == s
  {}

  /** The counter across the decision about a data packet. */
  lemma DecideCounts(c: Ctx, x: Desc)
    requires ValidCtx(c) && RxShape(x) && Decide(c, x).Taken?
    ensures var s, r := c.streams[c.streamIn], Decide(c, x);
      if s.xfr == Isochronous then r.s.nretries == s.nretries && r.s.retryLfsr == s.retryLfsr
      else if s.retrying && s.nretries > 0 then r.s.nretries == s.nretries - 1 && r.s.retryLfsr == s.retryLfsr
        && !r.accept && !r.keep && r.next == c.epIn[Ep(c.streamIn)]
      else r.s.nretries == Drawn(s.retryLfsr) && r.s.retryLfsr == LfsrAt(s.retryLfsr, 1)
  {
    var s, next := c.streams[c.streamIn], c.epIn[Ep(c.streamIn)];
    hide ValidCtx, Counted, Examine;
    if s.xfr == Isochronous {
      CountedIso(s);
    } else {
      CountedRetries(s);
    }
    if Willing(s, x) {
      ExamineCounts(x, Counted(s), next);
    }
  }

  lemma TakeCounts(c: Ctx, c1: Ctx, x: Desc, id: nat)
    requires ValidCtx(c) && ValidCtx(c1) && id < MAX_STREAMS && c.recving == Some(x) && c1 == c.(recving := None)
      && TakeData(c1, x).Next?
    requires RxShape(x)
    ensures var s, t := c.streams[id], TakeData(c1, x).c.streams[id];
      if id != c.streamIn || s.xfr == Isochronous then t.nretries == s.nretries && t.retryLfsr == s.retryLfsr
      else if s.retrying && s.nretries > 0 then t.nretries == s.nretries - 1 && t.retryLfsr == s.retryLfsr
      else t.nretries == Drawn(s.retryLfsr) && t.retryLfsr == LfsrAt(s.retryLfsr, 1)
    ensures Feigns(c, id) ==> var d := TakeData(c1, x).c;
      d.sending == Some(Desc([PID_NAK], NO_DATA_STAGE)) && d.queues == c.queues && d.epIn[Ep(id)] == c.epIn[Ep(id)]
  {
    Lengths(c);
    assert Decide(c1, x) == Decide(c, x);
    StatusIs();
    DecideCounts(c, x);
    DecideType(c, x);
    hide ValidCtx, Decide, RxShape;
  }

  lemma DecideType(c: Ctx, x: Desc)
    requires ValidCtx(c) && RxShape(x) && Decide(c, x).Taken?
    ensures Decide(c, x).s.xfr == c.streams[c.streamIn].xfr
  {
    var s, next := c.streams[c.streamIn], c.epIn[Ep(c.streamIn)];
    CountedKeeps(s);
    hide ValidCtx, RxShape, Counted, Examine;
    if Willing(s, x) {
      ExamineCounts(x, Counted(s), next);
    }
  }

  /** The other arms leave every counter alone. */
  predicate SameCount(c: Ctx, o: Outcome, id: nat)
    requires id < |c.streams|
  {
    o.Next? ==>
      && |o.c.streams| == |c.streams| && |o.c.epIn| == |c.epIn|
      && o.c.streams[id].nretries == c.streams[id].nretries && o.c.streams[id].retryLfsr == c.streams[id].retryLfsr
  }

  lemma OutCounts(c: Ctx, id: nat)
    requires ValidCtx(c) && id < MAX_STREAMS
    ensures SameCount(c, ServeOut(c), id)
  {
    Lengths(c);
    hide ValidCtx, TimeLeft, NextId, Reply, LfsrAt, OutState, Scrambled, ReplyFits;
  }

  lemma AckCounts(c: Ctx, id: nat)
    requires ValidCtx(c) && id < MAX_STREAMS
    ensures SameCount(c, ServeAck(c), id)
  {
    Lengths(c);
    hide ValidCtx, AnswerTo, ToggleAdvance;
  }

  lemma InCounts(c: Ctx, id: nat)
    requires ValidCtx(c) && id < MAX_STREAMS
    ensures SameCount(c, ServeIn(c), id)
  {
    Lengths(c);
    hide ValidCtx, TimeLeft, NextId, Generated, LfsrAt, InState, TokenBytes, ToggleAdvance, Used;
  }

  lemma ReplyCounts(c: Ctx, id: nat)
    requires ValidCtx(c) && id < MAX_STREAMS && c.hostSt == HS_ACKIFDATA && ServeReply(c).Next?
    ensures var d := ServeReply(c).c;
      && |d.streams| == MAX_STREAMS && |d.epIn| == MAX_ENDPOINTS
      && var s, t := c.streams[id], d.streams[id];
         if Feigns(c, id) then
           t.nretries == s.nretries - 1 && t.retryLfsr == s.retryLfsr
           && d.sending == Some(Desc([PID_NAK], NO_DATA_STAGE)) && d.queues == c.queues
             && d.epIn[Ep(id)] == c.epIn[Ep(id)]
         else if Looks(c, id) then t.nretries == Drawn(s.retryLfsr) && t.retryLfsr == LfsrAt(s.retryLfsr, 1)
         else t.nretries == s.nretries && t.retryLfsr == s.retryLfsr
  {
    Lengths(c);
    ToggleAt(c, c.streamIn);
    var c1 := c.(recving := None);
    Again(c, c1);
    var t := c.streams[c.streamIn].xfr;
    if Answered(c, t) && IsToggle(c.lastPid) {
      TakeCounts(c, c1, c.recving.value, id);
      TakeLengths(c1, c.recving.value);
      hide ValidCtx, RxShape, TakeData;
    } else {
      hide ValidCtx, RxShape, WithoutData;
    }
  }

  lemma TakeLengths(c: Ctx, x: Desc)
    requires ValidCtx(c) && RxShape(x) && TakeData(c, x).Next?
    ensures |TakeData(c, x).c.streams| == MAX_STREAMS && |TakeData(c, x).c.epIn| == MAX_ENDPOINTS
  {
    Lengths(c);
    hide ValidCtx, RxShape, Decide;
  }

  /** Only a look at a data packet touches the counter: a feigned refusal counts it down, sends NAK, keeps nothing and
      leaves the expected toggle; any other look draws the number of refusals to come. */
  lemma ServiceCounts(c: Ctx, id: nat)
    requires ValidCtx(c) && c.sending.Some? && id < MAX_STREAMS && Service(c).Next?
    ensures var d := Service(c).c;
      && |d.streams| == MAX_STREAMS && |d.epIn| == MAX_ENDPOINTS
      && var s, t := c.streams[id], d.streams[id];
         if Feigns(c, id) then
           t.nretries == s.nretries - 1 && t.retryLfsr == s.retryLfsr
           && d.sending == Some(Desc([PID_NAK], NO_DATA_STAGE)) && d.queues == c.queues
             && d.epIn[Ep(id)] == c.epIn[Ep(id)]
         else if Looks(c, id) then t.nretries == Drawn(s.retryLfsr) && t.retryLfsr == LfsrAt(s.retryLfsr, 1)
         else t.nretries == s.nretries && t.retryLfsr == s.retryLfsr
  {
    Lengths(c);
    hide ValidCtx, ServeOut, ServeAck, ServeIn, ServeReply;
    match c.hostSt
    case HS_STARTFRAME => OutCounts(c, id);
    case HS_STREAMOUT => OutCounts(c, id);
    case HS_WAITACK => AckCounts(c, id);
    case HS_STREAMIN => InCounts(c, id);
    case HS_ACKIFDATA => ReplyCounts(c, id);
    case _ =>
  }

  /** How many data packets of the stream have been refused on purpose since one was last considered on
      its merits. */
  function Refusals(cs: seq<Ctx>, id: nat): nat
    requires Run(cs) && id < MAX_STREAMS
  {
    var n := |cs| - 1;
    if n == 0 then 0
    else
      var before := Refusals(cs[..n], id);
      if Interlude(cs[n - 1], cs[n]) || !Looks(cs[n - 1], id) then before
      else if Feigns(cs[n - 1], id) then before + 1
      else 0
  }

  /** How many data packets of the stream have been considered on their merits. */
  function Draws(cs: seq<Ctx>, id: nat): nat
    requires Run(cs) && id < MAX_STREAMS
  {
    var n := |cs| - 1;
    if n == 0 then 0
    else
      var before := Draws(cs[..n], id);
      if Interlude(cs[n - 1], cs[n]) || !Looks(cs[n - 1], id) || Feigns(cs[n - 1], id) then before else before + 1
  }

  /** The step looks at a data packet of the stream. */
  predicate Looked(c: Ctx, d: Ctx, id: nat)
    requires ValidCtx(c) && id < MAX_STREAMS
  {
    !Interlude(c, d) && Looks(c, id)
  }

  /** What a look does to the retry fields. */
  predicate Look(s: Stream, t: Stream, looked: bool, feigned: bool) {
    if !looked then t.nretries == s.nretries && t.retryLfsr == s.retryLfsr
    else if feigned then t.nretries == s.nretries - 1 && t.retryLfsr == s.retryLfsr
    else t.nretries == Drawn(s.retryLfsr) && t.retryLfsr == LfsrAt(s.retryLfsr, 1)
  }

  function DrawsAfter(k: nat, looked: bool, feigned: bool): nat { if looked && !feigned then k + 1 else k }

  function RefusalsAfter(r: nat, looked: bool, feigned: bool): nat {
    if !looked then r else if feigned then r + 1 else 0
  }

  /** A run leaves the retry fields of a stream alone, but for the looks. */
  lemma LastLook(cs: seq<Ctx>, id: nat)
    requires Run(cs) && id < MAX_STREAMS && |cs| > 1
    ensures var n := |cs| - 1;
      id < |cs[n - 1].streams| && id < |cs[n].streams|
      && Look(cs[n - 1].streams[id], cs[n].streams[id], Looked(cs[n - 1], cs[n], id), Feigns(cs[n - 1], id))
  {
    var n := |cs| - 1;
    Lengths(cs[n - 1]);
    Lengths(cs[n]);
    hide ValidCtx, Looks, Service, Drawn;
    if !Interlude(cs[n - 1], cs[n]) {
      ServiceCounts(cs[n - 1], id);
    }
  }

  /** The retry LFSR has moved once for each packet considered, and the refusals since the last one and those still to
      come are the number drawn then. */
  predicate Tally(seed: bv8, n: nat, refused: nat, s: Stream) {
    s.retryLfsr == LfsrAt(seed, n) && refused + s.nretries == if n == 0 then 0 else Drawn(LfsrAt(seed, n - 1))
  }

  /** The refusals of a stream are those its retry LFSR says: behind the k-th packet considered, the number drawn from
      the LFSR's k-th value, no more and, once the next packet is considered, no fewer. */
  lemma {:induction false} RefusalsDrawn(cs: seq<Ctx>, id: nat)
    requires Run(cs) && id < MAX_STREAMS && cs[0].streams[id].nretries == 0
    ensures Tally(cs[0].streams[id].retryLfsr, Draws(cs, id), Refusals(cs, id), cs[|cs| - 1].streams[id])
  {
    assert |cs| >= 1;
    if |cs| > 1 {
      Shorter(cs);
      StreamsThere(cs, id);
      hide *;
      RefusalsDrawn(cs[..|cs| - 1], id);
      TallyOn(cs, id);
    } else {
      CountsUnfold(cs, id);
      NoDraw(cs[0].streams[id]);
    }
  }

  lemma StreamsThere(cs: seq<Ctx>, id: nat)
    requires Run(cs) && id < MAX_STREAMS && |cs| > 1 && Run(cs[..|cs| - 1])
    ensures var p := cs[..|cs| - 1];
      p[0] == cs[0] && p[|p| - 1] == cs[|cs| - 2] && id < |p[0].streams| && id < |p[|p| - 1].streams|
    ensures id < |cs[0].streams| && id < |cs[|cs| - 1].streams| && id < |cs[|cs| - 2].streams|
  {
    Lengths(cs[0]);
    Lengths(cs[|cs| - 1]);
    Lengths(cs[|cs| - 2]);
    hide ValidCtx, Step;
  }

  lemma TallyOn(cs: seq<Ctx>, id: nat)
    requires Run(cs) && id < MAX_STREAMS && |cs| > 1 && Run(cs[..|cs| - 1])
    requires id < |cs[0].streams| && id < |cs[|cs| - 1].streams| && id < |cs[|cs| - 2].streams|
    requires var p := cs[..|cs| - 1];
      Tally(cs[0].streams[id].retryLfsr, Draws(p, id), Refusals(p, id), cs[|cs| - 2].streams[id])
    ensures Tally(cs[0].streams[id].retryLfsr, Draws(cs, id), Refusals(cs, id), cs[|cs| - 1].streams[id])
  {
    var n := |cs| - 1;
    CountsUnfold(cs, id);
    LastLook(cs, id);
    hide *;
    DrawsOn(cs[0].streams[id].retryLfsr, Draws(cs[..n], id), Refusals(cs[..n], id), cs[n - 1].streams[id],
            cs[n].streams[id], Looked(cs[n - 1], cs[n], id), Feigns(cs[n - 1], id));
  }

  lemma NoDraw(s: Stream)
    requires s.nretries == 0
    ensures Tally(s.retryLfsr, 0, 0, s)
  {}

  lemma DrawsOn(seed: bv8, k: nat, r: nat, s: Stream, t: Stream, looked: bool, feigned: bool)
    requires Tally(seed, k, r, s) && Look(s, t, looked, feigned)
    ensures Tally(seed, DrawsAfter(k, looked, feigned), RefusalsAfter(r, looked, feigned), t)
  {
    hide LfsrAt, Drawn;
    LfsrAdd(seed, k, 1);
  }

  lemma CountsUnfold(cs: seq<Ctx>, id: nat)
    requires Run(cs) && id < MAX_STREAMS
    ensures var n := |cs| - 1;
      if n == 0 then Draws(cs, id) == 0 && Refusals(cs, id) == 0
      else
        && Run(cs[..n])
        && var looked, feigned := Looked(cs[n - 1], cs[n], id), Feigns(cs[n - 1], id);
           && Draws(cs, id) == DrawsAfter(Draws(cs[..n], id), looked, feigned)
           && Refusals(cs, id) == RefusalsAfter(Refusals(cs[..n], id), looked, feigned)
  {
    hide ValidCtx, Looks, Step, Interlude;
    if |cs| > 1 {
      Shorter(cs);
    }
  }

  /** At most three in a row. */
  lemma {:induction false} AtMostThreeRefusals(cs: seq<Ctx>, id: nat)
    requires Run(cs) && id < MAX_STREAMS && cs[0].streams[id].nretries <= 3
    ensures Refusals(cs, id) + cs[|cs| - 1].streams[id].nretries <= 3
  {
    var n := |cs| - 1;
    if n > 0 {
      Shorter(cs);
      AtMostThreeRefusals(cs[..n], id);
      hide Run, ValidCtx, Looks, Service;
      if Interlude(cs[n - 1], cs[n]) {
      } else {
        ServiceCounts(cs[n - 1], id);
      }
    }
  }

  // ---- The order in which streams are considered -----------------------------------------------------

  datatype Direction = ToDevice | FromDevice

  /** The call considers the next stream in this direction. */
  predicate Considers(c: Ctx, dir: Direction)
    requires ValidCtx(c)
  {
    && (if dir == ToDevice then c.hostSt == HS_STARTFRAME || c.hostSt == HS_STREAMOUT else c.hostSt == HS_STREAMIN)
    && TimeLeft(c) > MIN_TIME_LEFT
  }

  function TurnOf(c: Ctx, dir: Direction): nat { if dir == ToDevice then c.streamOut else c.streamIn }

  predicate TurnMoves(c: Ctx, o: Outcome, dir: Direction, considers: bool)
    requires ValidCtx(c)
  {
    o.Next? ==>
      && o.c.nstreams == c.nstreams
      && TurnOf(o.c, dir) == if considers then NextId(TurnOf(c, dir), c.nstreams) else TurnOf(c, dir)
  }

  lemma OutTurns(c: Ctx, dir: Direction)
    requires ValidCtx(c)
    ensures TurnMoves(c, ServeOut(c), dir, dir == ToDevice && TimeLeft(c) > MIN_TIME_LEFT)
  {
    Lengths(c);
    hide ValidCtx, TimeLeft, NextId, Reply, LfsrAt, OutState, Scrambled, ReplyFits;
  }

  lemma InTurns(c: Ctx, dir: Direction)
    requires ValidCtx(c)
    ensures TurnMoves(c, ServeIn(c), dir, dir == FromDevice && TimeLeft(c) > MIN_TIME_LEFT)
  {
    Lengths(c);
    hide ValidCtx, TimeLeft, NextId, Generated, LfsrAt, InState, TokenBytes, ToggleAdvance, Used;
  }

  lemma AckTurns(c: Ctx, dir: Direction)
    requires ValidCtx(c)
    ensures TurnMoves(c, ServeAck(c), dir, false)
  {
    Lengths(c);
    hide ValidCtx, AnswerTo, ToggleAdvance;
  }

  lemma ReplyTurns(c: Ctx, dir: Direction)
    requires ValidCtx(c) && c.hostSt == HS_ACKIFDATA
    ensures TurnMoves(c, ServeReply(c), dir, false)
  {
    Lengths(c);
    ToggleAt(c, c.streamIn);
    Again(c, c.(recving := None));
    hide ValidCtx, RxShape, WithoutData, Decide;
  }

  /** Every call moves at most one of the two turns, to the next stream. */
  lemma ServiceTurns(c: Ctx, dir: Direction)
    requires ValidCtx(c) && c.sending.Some?
    ensures TurnMoves(c, Service(c), dir, Considers(c, dir))
  {
    hide ServeOut, ServeAck, ServeIn, ServeReply, NextId, TimeLeft, StreamsOk, Toggles;
    match c.hostSt
    case HS_STARTFRAME => OutTurns(c, dir);
    case HS_STREAMOUT => OutTurns(c, dir);
    case HS_WAITACK => AckTurns(c, dir);
    case HS_STREAMIN => InTurns(c, dir);
    case HS_ACKIFDATA => ReplyTurns(c, dir);
    case _ =>
  }

  /** The streams considered in a run, in order. */
  function Considered(cs: seq<Ctx>, dir: Direction): seq<nat>
    requires Run(cs)
  {
    var n := |cs| - 1;
    if n == 0 then []
    else
      var before := Considered(cs[..n], dir);
      if Interlude(cs[n - 1], cs[n]) || !Considers(cs[n - 1], dir) then before else before + [TurnOf(cs[n], dir)]
  }

  lemma InterludeTurns(c: Ctx, d: Ctx, dir: Direction)
    requires Interlude(c, d)
    ensures d.nstreams == c.nstreams && TurnOf(d, dir) == TurnOf(c, dir)
  {
    hide ValidCtx;
  }

  /** Each stream in t follows the one before it, the first follows a. */
  predicate InOrder(t: seq<nat>, a: nat, n: nat)
    requires 1 <= n && a < n
  {
    && (forall k :: 0 <= k < |t| ==> t[k] < n)
    && (t != [] ==> t[0] == NextId(a, n))
    && (forall k :: 0 < k < |t| ==> t[k] == NextId(t[k - 1], n))
  }

  function LastTurn(t: seq<nat>, a: nat): nat { if t == [] then a else t[|t| - 1] }

  lemma InOrderSnoc(t: seq<nat>, a: nat, n: nat)
    requires 1 <= n && a < n && InOrder(t, a, n)
    ensures LastTurn(t, a) < n && InOrder(t + [NextId(LastTurn(t, a), n)], a, n)
  {}

  lemma {:induction false} ConsideredTurns(cs: seq<Ctx>, dir: Direction)
    requires Run(cs)
    ensures |cs| >= 1 && 1 <= cs[0].nstreams && TurnOf(cs[0], dir) < cs[0].nstreams
    ensures var t, a, n := Considered(cs, dir), TurnOf(cs[0], dir), cs[0].nstreams;
      && cs[|cs| - 1].nstreams == n
      && InOrder(t, a, n) && TurnOf(cs[|cs| - 1], dir) == LastTurn(t, a)
  {
    TurnIn(cs[0], dir);
    var n := |cs| - 1;
    if n > 0 {
      Shorter(cs);
      ConsideredTurns(cs[..n], dir);
      hide Run, ValidCtx, Considers, TurnOf, Service, NextId, InOrder, LastTurn;
      InOrderSnoc(Considered(cs[..n], dir), TurnOf(cs[0], dir), cs[0].nstreams);
      if Interlude(cs[n - 1], cs[n]) {
        InterludeTurns(cs[n - 1], cs[n], dir);
      } else {
        ServiceTurns(cs[n - 1], dir);
        LastSnoc(Considered(cs[..n], dir), TurnOf(cs[n], dir), TurnOf(cs[0], dir));
      }
    }
  }

  lemma LastSnoc(t: seq<nat>, x: nat, a: nat)
    ensures LastTurn(t + [x], a) == x
  {}

  lemma TurnIn(c: Ctx, dir: Direction)
    requires ValidCtx(c)
    ensures 1 <= c.nstreams && TurnOf(c, dir) < c.nstreams
  {}

  /** The stream that is due j turns after stream a. */
  function Due(a: nat, j: nat, n: nat): nat {
    if a + j < n then a + j else a + j - n
  }

  lemma {:induction false} TurnAfter(t: seq<nat>, a: nat, w: nat, j: nat, n: nat)
    requires 1 <= n && a < n && w + j < |t| && j < n && InOrder(t, a, n)
    ensures t[w] < n && t[w + j] == Due(t[w], j, n)
  {
    if j > 0 {
      TurnAfter(t, a, w, j - 1, n);
    }
  }

  predicate OnlyAt(t: seq<nat>, id: nat, j: nat) {
    j < |t| && t[j] == id && forall i :: 0 <= i < |t| && t[i] == id ==> i == j
  }

  predicate OnceIn(t: seq<nat>, id: nat) {
    exists j :: 0 <= j < |t| && OnlyAt(t, id, j)
  }

  /** Fairness: among any nstreams consecutive considerations each stream comes up exactly once. */
  lemma EachStreamOnce(cs: seq<Ctx>, dir: Direction, w: nat, id: nat)
    requires Run(cs) && id < cs[0].nstreams && w + cs[0].nstreams <= |Considered(cs, dir)|
    ensures OnceIn(Considered(cs, dir)[w..w + cs[0].nstreams], id)
  {
    hide *;
    ConsideredTurns(cs, dir);
    OnceInWindow(Considered(cs, dir), TurnOf(cs[0], dir), w, id, cs[0].nstreams);
  }

  lemma DueOnce(a: nat, n: nat, id: nat, i: nat) returns (j: nat)
    requires a < n && id < n
    ensures j < n && Due(a, j, n) == id && (i < n && Due(a, i, n) == id ==> i == j)
    ensures j == if id >= a then id - a else id - a + n
  {
    j := if id >= a then id - a else id - a + n;
  }

  lemma OnceInWindow(t: seq<nat>, a: nat, w: nat, id: nat, n: nat)
    requires 1 <= n && a < n && InOrder(t, a, n) && w + n <= |t| && id < n
    ensures OnceIn(t[w..w + n], id)
  {
    hide InOrder, Due, OnceIn;
    TurnAfter(t, a, w, 0, n);
    var window := t[w..w + n];
    var j := DueOnce(t[w], n, id, 0);
    TurnAfter(t, a, w, j, n);
    assert window[j] == id;
    forall i | 0 <= i < |window| && window[i] == id
      ensures i == j
    {
      TurnAfter(t, a, w, i, n);
      var k := DueOnce(t[w], n, id, i);
    }
    OnlyOnce(window, id, j);
  }

  lemma OnlyOnce(t: seq<nat>, id: nat, j: nat)
    requires OnlyAt(t, id, j)
    ensures OnceIn(t, id)
  {}

  // ---- Failures ----------------------------------------------------------------------------------------

  /** A data packet is looked at that is too short for the check's arithmetic. */
  predicate LooksTooShort(c: Ctx)
    requires ValidCtx(c)
  {
    var s := c.streams[c.streamIn];
    && c.hostSt == HS_ACKIFDATA && s.xfr != Isochronous && Answered(c, s.xfr) && IsToggle(c.lastPid)
    && !(s.retrying && s.nretries > 0) && TooShort(c.recving.value)
  }

  /** The oldest packet of the stream to be served next has more than 66 bytes between its PID and its CRC. */
  predicate ServesTooLong(c: Ctx)
    requires ValidCtx(c)
  {
    var id := NextId(c.streamOut, c.nstreams);
    && (c.hostSt == HS_STARTFRAME || c.hostSt == HS_STREAMOUT) && TimeLeft(c) > MIN_TIME_LEFT
    && c.streams[id].send && c.queues[id] != [] && |c.queues[id][0].bytes| > 69
  }

  /** A control stream is served. */
  predicate ServesControl(c: Ctx)
    requires ValidCtx(c)
  {
    match c.hostSt
    case HS_STARTFRAME | HS_STREAMOUT =>
      var id := NextId(c.streamOut, c.nstreams);
      TimeLeft(c) > MIN_TIME_LEFT && c.streams[id].send && c.queues[id] != [] && c.streams[id].xfr == Control
    case HS_STREAMIN =>
      var id := NextId(c.streamIn, c.nstreams);
      TimeLeft(c) > MIN_TIME_LEFT && c.streams[id].retrieve && c.streams[id].xfr == Control
    case HS_WAITACK => c.streams[c.streamOut].xfr == Control
    case _ => false
  }

  /** A packet is accepted that is no longer there. */
  predicate RetiresNothing(c: Ctx)
    requires ValidCtx(c)
  {
    && c.hostSt == HS_WAITACK && c.streams[c.streamOut].xfr != Control && c.queues[c.streamOut] == []
    && AnswerTo(c.streams[c.streamOut].xfr, c.busState, c.lastPid, c.tickBits >= c.wait) == Accepted
  }

  lemma OutFails(c: Ctx)
    requires ValidCtx(c) && (c.hostSt == HS_STARTFRAME || c.hostSt == HS_STREAMOUT)
    ensures ServeOut(c).Fault? <==> ServesTooLong(c) || ServesControl(c)
  {
    Lengths(c);
    var id := NextId(c.streamOut, c.nstreams);
    StreamAt(c, id);
    if c.queues[id] != [] {
      Head(c.queues[id], c.streams[id].xfr);
    }
    hide ValidCtx, TimeLeft, NextId, LfsrAt, Reply, Scrambled, OutState;
  }

  lemma ReplyFails(c: Ctx)
    requires ValidCtx(c) && c.hostSt == HS_ACKIFDATA && c.sending.Some?
    ensures ServeReply(c).Fault? <==> LooksTooShort(c)
  {
    Lengths(c);
    ToggleAt(c, c.streamIn);
    StreamAt(c, c.streamIn);
    Again(c, c.(recving := None));
    var s := c.streams[c.streamIn];
    if Answered(c, s.xfr) && IsToggle(c.lastPid) {
      VerdictBroken(s, c.recving.value, c.epIn[Ep(c.streamIn)]);
      TakeFails(c, c.recving.value);
    }
    hide ValidCtx, RxShape, Verdict, TakeData, WithoutData;
  }

  lemma TakeFails(c: Ctx, x: Desc)
    requires ValidCtx(c) && ValidCtx(c.(recving := None)) && RxShape(x) && c.sending.Some?
    ensures TakeData(c.(recving := None), x).Fault?
      <==> Verdict(c.streams[c.streamIn], x, c.epIn[Ep(c.streamIn)]).Broken?
  {
    Lengths(c);
    hide ValidCtx, RxShape, Verdict;
  }

  /** streams_service fails in exactly these cases. */
  lemma ServiceFails(c: Ctx)
    requires ValidCtx(c) && c.sending.Some?
    ensures Service(c).Fault? <==>
      c.hostSt == HS_ERROR || ServesTooLong(c) || LooksTooShort(c) || ServesControl(c) || RetiresNothing(c)
  {
    Lengths(c);
    if c.hostSt == HS_ACKIFDATA {
      ReplyFails(c);
    } else if c.hostSt == HS_STARTFRAME || c.hostSt == HS_STREAMOUT {
      OutFails(c);
    }
    hide ValidCtx, ServeOut, ServeReply, TimeLeft, NextId, AnswerTo, TooShort;
  }

  /** With streams that send, and are neither isochronous nor control, the last two never happen: in every run a
      host that has not given up fails only at a packet too long to be replied to or too short to be checked. */
  lemma RunFails(cs: seq<Ctx>)
    requires Run(cs) && cs[|cs| - 1].sending.Some?
    requires forall id :: 0 <= id < cs[0].nstreams ==> Fresh(cs[0], id) && cs[0].streams[id].xfr != Control
    ensures var c := cs[|cs| - 1];
      Service(c).Fault? <==> c.hostSt == HS_ERROR || ServesTooLong(c) || LooksTooShort(c)
  {
    var c := cs[|cs| - 1];
    ServiceFails(c);
    NextIds(c);
    ConsideredTurns(cs, ToDevice);
    Serving(cs, NextId(c.streamOut, c.nstreams));
    Serving(cs, NextId(c.streamIn, c.nstreams));
    Serving(cs, c.streamOut);
    hide Run, ValidCtx, Service, ServesTooLong, LooksTooShort, AnswerTo, TimeLeft, NextId, Fresh;
  }

  lemma NextIds(c: Ctx)
    requires ValidCtx(c)
    ensures NextId(c.streamOut, c.nstreams) < c.nstreams && NextId(c.streamIn, c.nstreams) < c.nstreams
  {}

  lemma Awaiting(v: View, l: Log, id: nat, first: bv8)
    requires id < MAX_STREAMS && Inv(v, l, id, first) && v.waiting && !v.failed
    ensures v.q != [] && Kept(v.q[0], v.s.xfr) && v.s.xfr != Isochronous && v.s.send
    ensures l.flight == Some(Prepared(v.q[0], v, id, v.s.rewindLfsr))
  {
    hide History, Matched, Tracked, Reply, LfsrAt, Payload, Kept;
  }

  /** A stream keeps its type, and what awaits an answer is still there. */
  lemma Serving(cs: seq<Ctx>, id: nat)
    requires Run(cs) && id < MAX_STREAMS && Fresh(cs[0], id) && cs[0].streams[id].xfr != Control
    ensures var c := cs[|cs| - 1];
      c.streams[id].xfr != Control && (c.hostSt == HS_WAITACK && c.streamOut == id ==> c.queues[id] != [])
  {
    var c := cs[|cs| - 1];
    RunKeeps(cs, id);
    SameType(cs, id);
    hide Run, ValidCtx, Fresh, Inv;
    if c.hostSt == HS_WAITACK && c.streamOut == id {
      Awaiting(ViewOf(c, id), LogOf(cs, id), id, cs[0].epOut[Ep(id)]);
    }
  }

  lemma {:induction false} SameType(cs: seq<Ctx>, id: nat)
    requires Run(cs) && id < MAX_STREAMS && Live(cs[0], id)
    ensures SameSetup(cs[0].streams[id], cs[|cs| - 1].streams[id])
  {
    var n := |cs| - 1;
    if n > 0 {
      Shorter(cs);
      SameType(cs[..n], id);
      hide Run, ValidCtx, Step, MoveOf;
      StepMoves(cs[n - 1], cs[n], id);
      SetupStays(cs[n - 1], cs[n], id);
      hide Moves;
    }
  }

  lemma SetupStays(c: Ctx, d: Ctx, id: nat)
    requires ValidCtx(c) && id < MAX_STREAMS && Moves(c, d, id)
    ensures ValidCtx(d) && SameSetup(c.streams[id], d.streams[id])
  {
    Lengths(c);
    hide MoveOf, Taking, Signing, Slipping, Reply, Kept, LfsrAt, Scrambled, ToggleAdvance;
  }

  predicate KeepsLost(c: Ctx, o: Outcome) { o.Next? ==> o.c.lost == c.lost }

  lemma TokensKeepLost(c: Ctx)
    requires ValidCtx(c)
    ensures KeepsLost(c, ServeOut(c)) && KeepsLost(c, ServeIn(c))
  {
    Lengths(c);
    hide ValidCtx, TimeLeft, NextId, Used, Generated, Reply, LfsrAt, Scrambled, ReplyFits, InState, OutState,
      TokenBytes, ToggleAdvance;
  }

  lemma AnswersKeepLost(c: Ctx)
    requires ValidCtx(c)
    ensures KeepsLost(c, ServeAck(c)) && (c.hostSt == HS_ACKIFDATA ==> KeepsLost(c, ServeReply(c)))
  {
    Lengths(c);
    ToggleAt(c, c.streamIn);
    Again(c, c.(recving := None));
    hide ValidCtx, RxShape, Decide, WithoutData, AnswerTo, ToggleAdvance, Status;
  }

  /** No call forgets a descriptor: only streams_init does. */
  lemma ServiceKeepsLost(c: Ctx)
    requires ValidCtx(c) && c.sending.Some? && Service(c).Next?
    ensures Service(c).c.lost == c.lost
  {
    TokensKeepLost(c);
    AnswersKeepLost(c);
    hide ValidCtx, ServeOut, ServeIn, ServeAck, ServeReply;
  }
}
