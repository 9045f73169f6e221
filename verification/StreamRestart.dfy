/** A frame that begins while the answer to an OUT packet is awaited: the host starts over, and does not rewind the
    LFSR of the stream. */
module StreamRestart {
  import opened CrcRoutines
  import opened Transfer
  import opened Streams
  import opened StreamPackets
  import opened StreamMoves
  import opened StreamRuns
  import opened StreamLaws
  import LfsrPeriod

  /** Stream id of d would build the packet that stream id of c awaits an answer to. */
  predicate Repeats(c: Ctx, d: Ctx, id: nat)
    requires ValidCtx(c) && ValidCtx(d) && id < MAX_STREAMS
  {
    var s, t := c.streams[id], d.streams[id];
    && d.devAddr == c.devAddr && d.epOut[Ep(id)] == c.epOut[Ep(id)]
    && t.dpiLfsr == s.dpiLfsr && t.xfr == s.xfr && t.send == s.send
    && c.queues[id] != [] && d.queues[id] != [] && d.queues[id][0] == c.queues[id][0]
  }

  /** The LFSR has moved on exactly if the packet has any data: no packet is as long as the LFSR's period. */
  lemma MovedOn(v: View, l: Log, id: nat, first: bv8)
    requires id < MAX_STREAMS && Inv(v, l, id, first) && v.waiting && !v.failed
    ensures v.q != [] && Kept(v.q[0], v.s.xfr)
    ensures v.s.dpiLfsr == v.s.rewindLfsr <==> Payload(v.q[0]) == []
  {
    Awaiting(v, l, id, first);
    OnWay(v, l, id, first);
    SeedNonzero(id);
    PayloadShort(v.q[0], v.s.xfr);
    hide *;
    LfsrPeriod.NeverZero(DpiSeed(id), |l.acked|);
    LfsrPeriod.FullPeriod(v.s.rewindLfsr, |Payload(v.q[0])|);
  }

  lemma OnWay(v: View, l: Log, id: nat, first: bv8)
    requires id < MAX_STREAMS && Inv(v, l, id, first) && v.waiting && !v.failed
    ensures v.q != [] && Kept(v.q[0], v.s.xfr) && v.s.rewindLfsr == LfsrAt(DpiSeed(id), |l.acked|)
      && v.s.dpiLfsr == LfsrAt(v.s.rewindLfsr, |Payload(v.q[0])|)
  {
    hide History, Matched, Tracked, Reply, LfsrAt, Payload, Kept, DpiSeed;
  }

  lemma SeedNonzero(id: nat)
    requires id < MAX_STREAMS
    ensures DpiSeed(id) != 0
  {}

  lemma PayloadShort(x: Desc, t: XfrType)
    requires Kept(x, t)
    ensures |Payload(x)| <= 69 && |Payload(x)| % 255 == |Payload(x)| && (Payload(x) == [] <==> |Payload(x)| == 0)
  {}

  lemma Rebuilt(v: View, t: Stream, l: Log, id: nat, first: bv8)
    requires id < MAX_STREAMS && Inv(v, l, id, first) && v.waiting && !v.failed && t.xfr == v.s.xfr
      && t.dpiLfsr == v.s.dpiLfsr
    ensures v.q != [] && Kept(v.q[0], v.s.xfr)
    ensures Some(Reply(v.q[0], t, id, v.toggle, v.device)) == l.flight <==> Payload(v.q[0]) == []
  {
    hide Inv, Reply, Payload, Kept;
    Awaiting(v, l, id, first);
    MovedOn(v, l, id, first);
    ReplyOnly(v.q[0], t, v.s, id, v.toggle, v.device);
    SameReply(v.q[0], v.s, id, v.toggle, v.device);
  }

  /** When the host has been restarted, a packet that awaited its answer is built again as it was if and only if it
      has no data: every other one goes out with other bytes under the same PID. */
  lemma FrameRestart(c: Ctx, d: Ctx, id: nat, l: Log, first: bv8)
    requires ValidCtx(c) && ValidCtx(d) && id < MAX_STREAMS
    requires Inv(ViewOf(c, id), l, id, first) && ViewOf(c, id).waiting && Repeats(c, d, id)
    requires NextId(d.streamOut, d.nstreams) == id && TimeLeft(d) > MIN_TIME_LEFT && ServeOut(d).Next?
    ensures Kept(c.queues[id][0], c.streams[id].xfr)
    ensures ServeOut(d).c.sending == l.flight <==> Payload(c.queues[id][0]) == []
  {
    hide ReplyFits, Reply, LfsrAt, Scrambled, OutState, Inv, TimeLeft, NextId, ValidCtx, Payload, Kept;
    Lengths(c);
    Lengths(d);
    Awaiting(ViewOf(c, id), l, id, first);
    Rebuilt(ViewOf(c, id), d.streams[id], l, id, first);
  }

  /** What a frame start does to a host that awaits an answer. */
  predicate Restarts(c: Ctx, d: Ctx) {
    d == c.(hostSt := HS_STARTFRAME, frameStart := c.tickBits, sending := d.sending, transmitting := d.transmitting)
  }

  /** The frame has run out, and the driver is idle: only then does a frame start. */
  predicate AtBoundary(c: Ctx)
    requires ValidCtx(c)
  {
    !c.transmitting && Sub32(c.tickBits, c.frameStart) >= FRAME_INTERVAL
  }

  /** The same, however long the stream has to wait for its turn, whatever the other streams do and whatever else
      arrives for this one in the meantime: the next packet it builds is the one that awaited its answer if and
      only if that has no data. */
  lemma RestartedRun(c: Ctx, cs: seq<Ctx>, id: nat, l: Log, first: bv8)
    requires ValidCtx(c) && id < MAX_STREAMS && Inv(ViewOf(c, id), l, id, first) && ViewOf(c, id).waiting
    requires Run(cs) && |cs| > 1 && Restarts(c, cs[0])
    requires NoBuild(cs[..|cs| - 1], id) && MoveOf(ViewOf(cs[|cs| - 2], id), ViewOf(cs[|cs| - 1], id)).Build?
    ensures c.queues[id] != [] && Kept(c.queues[id][0], c.streams[id].xfr)
    ensures cs[|cs| - 1].sending == l.flight <==> Payload(c.queues[id][0]) == []
  {
    var n := |cs| - 1;
    var v, w, z := ViewOf(cs[0], id), ViewOf(cs[n - 1], id), ViewOf(cs[n], id);
    Awaiting(ViewOf(c, id), l, id, first);
    Shorter(cs);
    hide Run, Inv, Step, ValidCtx, NoBuild, Reply, Payload, Kept, Effect, MoveOf, Prepared;
    HeldBack(cs[..n], id);
    StepMoves(cs[n - 1], cs[n], id);
    BuildSends(w, z, id);
    Rebuilt(ViewOf(c, id), w.s, l, id, first);
  }

  /** So a frame that interrupts an awaited answer breaks the retry of every stream there is: from initialisation
      on, through any run, to the restart, and on through any run to the next packet of the stream. */
  lemma FrameRestartGoesWrong(cs: seq<Ctx>, ds: seq<Ctx>, id: nat)
    requires Run(cs) && id < MAX_STREAMS && Fresh(cs[0], id) && ViewOf(cs[|cs| - 1], id).waiting
    requires Run(ds) && |ds| > 1 && Restarts(cs[|cs| - 1], ds[0]) && NoBuild(ds[..|ds| - 1], id)
    requires MoveOf(ViewOf(ds[|ds| - 2], id), ViewOf(ds[|ds| - 1], id)).Build?
    ensures var q, t := cs[|cs| - 1].queues[id], cs[|cs| - 1].streams[id].xfr;
      && q != [] && Kept(q[0], t)
      && (Payload(q[0]) != [] ==> ds[|ds| - 1].sending != LogOf(cs, id).flight)
  {
    hide Inv, Fresh, NoBuild, MoveOf, Payload, Kept, LogOf;
    RunKeeps(cs, id);
    RestartedRun(cs[|cs| - 1], ds, id, LogOf(cs, id), cs[0].epOut[Ep(id)]);
  }

  lemma BuildSends(w: View, z: View, id: nat)
    requires id < MAX_STREAMS && Effect(w, z, id, MoveOf(w, z)) && MoveOf(w, z).Build?
    ensures w.q != [] && Kept(w.q[0], w.s.xfr) && z.sending == Some(Reply(w.q[0], w.s, id, w.toggle, w.device))
  {
    hide Reply, Kept, LfsrAt, Scrambled;
  }

  /** Nothing is built for the stream. */
  predicate NoBuild(cs: seq<Ctx>, id: nat)
    requires id < MAX_STREAMS && forall k :: 0 <= k < |cs| ==> ValidCtx(cs[k])
  {
    forall k :: 0 <= k < |cs| - 1 ==> !MoveOf(ViewOf(cs[k], id), ViewOf(cs[k + 1], id)).Build?
  }

  /** What the next packet of the stream will be made of. */
  predicate SameNext(v: View, w: View) {
    && v.q != [] && w.q != [] && w.q[0] == v.q[0] && w.toggle == v.toggle && w.device == v.device
    && w.s.dpiLfsr == v.s.dpiLfsr && SameSetup(v.s, w.s) && !w.waiting
  }

  lemma {:induction false} HeldBack(cs: seq<Ctx>, id: nat)
    requires Run(cs) && id < MAX_STREAMS && NoBuild(cs, id) && Live(cs[0], id) && cs[0].queues[id] != []
    requires !ViewOf(cs[0], id).waiting
    ensures SameNext(ViewOf(cs[0], id), ViewOf(cs[|cs| - 1], id))
  {
    var n := |cs| - 1;
    if n > 0 {
      Shorter(cs);
      forall k | 0 <= k < n - 1
        ensures !MoveOf(ViewOf(cs[..n][k], id), ViewOf(cs[..n][k + 1], id)).Build?
      {
        assert !MoveOf(ViewOf(cs[k], id), ViewOf(cs[k + 1], id)).Build?;
      }
      assert !MoveOf(ViewOf(cs[n - 1], id), ViewOf(cs[n - 1 + 1], id)).Build?;
      HeldBack(cs[..n], id);
      hide Run, Step, ValidCtx, Effect, MoveOf, NoBuild;
      StepMoves(cs[n - 1], cs[n], id);
      NextStays(ViewOf(cs[0], id), ViewOf(cs[n - 1], id), ViewOf(cs[n], id), id);
    }
  }

  lemma NextStays(v: View, w: View, z: View, id: nat)
    requires id < MAX_STREAMS && SameNext(v, w) && Effect(w, z, id, MoveOf(w, z)) && !MoveOf(w, z).Build?
    requires z.failed ==> !z.waiting
    ensures SameNext(v, z)
  {
    hide Good, Signs, Slips, Reply, Kept, LfsrAt, Scrambled, ToggleAdvance, Payload;
  }

  lemma ReplySame(x: Desc, s: Stream, t: Stream, id: nat, next: bv8, device: bv8)
    requires Kept(x, s.xfr) && s.xfr != Isochronous && t.xfr == s.xfr && id < MAX_STREAMS
    requires Scramble(Payload(x), s.dpiLfsr) == Scramble(Payload(x), t.dpiLfsr)
    ensures Reply(x, s, id, next, device) == Reply(x, t, id, next, device)
  {
    hide Crc16Bytes, TokenBytes, Scramble, Payload, Kept;
  }

  lemma FirstScrambled(p: seq<bv8>, x: bv8)
    requires p != []
    ensures Scramble(p, x)[0] == p[0] ^ x
  {
    LfsrZero(x);
    hide LfsrAt;
  }

  lemma FirstTells(p: seq<bv8>, x: bv8, y: bv8, a: bv8, b: bv8)
    requires p != [] && a == p[0] ^ x && b == p[0] ^ y && a == b
    ensures x == y
  {
    XorInjective(p[0], x, y);
  }

  /** One byte tells two LFSR states apart. */
  lemma ScrambleTells(p: seq<bv8>, x: bv8, y: bv8)
    ensures Scramble(p, x) == Scramble(p, y) <==> (p == [] || x == y)
  {
    hide *;
    if p == [] {
      assert |Scramble(p, x)| == 0 && |Scramble(p, y)| == 0;
    } else if Scramble(p, x) == Scramble(p, y) {
      FirstScrambled(p, x);
      FirstScrambled(p, y);
      FirstTells(p, x, y, Scramble(p, x)[0], Scramble(p, y)[0]);
    }
  }

  lemma LfsrZero(x: bv8)
    ensures LfsrAt(x, 0) == x
  {}

  lemma SameReply(x: Desc, s: Stream, id: nat, next: bv8, device: bv8)
    requires Kept(x, s.xfr) && s.xfr != Isochronous && id < MAX_STREAMS
    ensures Reply(x, s, id, next, device) == Reply(x, s.(dpiLfsr := s.rewindLfsr), id, next, device)
            <==> (Payload(x) == [] || s.dpiLfsr == s.rewindLfsr)
  {
    var t := s.(dpiLfsr := s.rewindLfsr);
    ReplyCarries(x, s, id, next, device);
    ReplyCarries(x, t, id, next, device);
    ScrambleTells(Payload(x), s.dpiLfsr, t.dpiLfsr);
    hide Payload, OutData, OutPid, Scramble, LfsrAt, Reply, Kept;
    if Scramble(Payload(x), s.dpiLfsr) == Scramble(Payload(x), t.dpiLfsr) {
      ReplySame(x, s, t, id, next, device);
    }
  }

  lemma XorInjective(a: bv8, b: bv8, c: bv8)
    ensures a ^ b == a ^ c ==> b == c
  {
    assert a ^ (a ^ b) == b && a ^ (a ^ c) == c;
  }

  lemma Anew(c: Ctx, d: Ctx)
    requires ValidCtx(c) && Restarts(c, d)
    ensures ValidCtx(d)
  {
    hide Toggles, StreamsOk, RxShape;
  }
}
