/** One call of streams_service, as one stream sees it. */
module StreamMoves {
  import opened Transfer
  import opened Streams
  import opened StreamPackets

  /** What a stream can see of the context: itself, its received packets, the toggles of its endpoints, what
      the device has sent and whether it is for this stream, whether its OUT packet awaits an answer and the PID the
      device has last sent, and whether the host has given up. */
  datatype View = View(s: Stream, q: seq<Desc>, toggle: bv8, inToggle: bv8, waiting: bool, failed: bool,
                       sending: Option<Desc>, recving: Option<Desc>, looking: bool, device: bv8, heard: bv8)

  function ViewOf(c: Ctx, id: nat): View
    requires ValidCtx(c) && id < MAX_STREAMS
  {
    View(c.streams[id], c.queues[id], c.epOut[Ep(id)], c.epIn[Ep(id)], c.hostSt == HS_WAITACK && c.streamOut == id,
         c.hostSt == HS_ERROR, c.sending, c.recving, c.hostSt == HS_ACKIFDATA && c.streamIn == id, c.devAddr,
         c.lastPid)
  }

  /** A packet is built, acknowledged or refused by the device; one of the device's is taken, or is its
      signature, or is refused with the toggle advanced. */
  datatype Move = Rest | Build(reply: Desc) | Ack | Nak | Take(x: Desc) | Sign(x: Desc) | Slip(x: Desc)

  /** Which move was made, read off the views before and after. */
  function MoveOf(v: View, w: View): Move {
    if v.waiting then
      if |w.q| < |v.q| then Ack else if !w.waiting && !w.failed then Nak else Rest
    else if w.waiting && w.sending.Some? then Build(w.sending.value)
    else if |w.q| > |v.q| then Take(w.q[|w.q| - 1])
    else if v.recving.Some? && v.s.sigExpected && !w.s.sigExpected then Sign(v.recving.value)
    else if v.recving.Some? && w.inToggle != v.inToggle then Slip(v.recving.value)
    else Rest
  }

  /** Nothing of the stream but its retry counters changes, and its toggle for the device's packets. */
  predicate Untouched(v: View, w: View) {
    w.q == v.q && w.toggle == v.toggle && SameOut(v.s, w.s) && w.s.tstLfsr == v.s.tstLfsr
      && w.s.sigExpected == v.s.sigExpected
  }

  /** No OUT packet is awaited before or after. */
  predicate Apart(v: View, w: View) { !v.waiting && !w.waiting && !w.failed }

  /** What each move does to a stream that is not isochronous. */
  predicate Effect(v: View, w: View, id: nat, m: Move)
    requires id < MAX_STREAMS
  {
    && SameSetup(v.s, w.s) && w.device == v.device && (m.Take? || m.Sign? || m.Slip? || w.inToggle == v.inToggle)
    && match m
       case Rest => Untouched(v, w) && (w.failed || w.waiting == v.waiting)
       case Build(reply) =>
         && v.q != [] && Kept(v.q[0], v.s.xfr) && reply == Reply(v.q[0], v.s, id, v.toggle, v.device)
         && w.q == v.q && w.toggle == v.toggle
         && w.s == v.s.(rewindLfsr := v.s.dpiLfsr, dpiLfsr := LfsrAt(v.s.dpiLfsr, Scrambled(v.q[0], v.s)))
         && !v.waiting && w.waiting && !w.failed
       case Ack =>
         && v.q != [] && w.q == v.q[1..] && w.s == v.s && w.toggle == ToggleAdvance(v.toggle) && v.heard == PID_ACK
         && v.waiting && !w.waiting && !w.failed
       case Nak =>
         && w.q == v.q && w.s == v.s.(dpiLfsr := v.s.rewindLfsr) && w.toggle == v.toggle && v.heard == PID_NAK
         && v.waiting && !w.waiting && !w.failed
       case Take(x) => Taking(v, w, x) && Apart(v, w)
       case Sign(x) => Signing(v, w, x) && Apart(v, w)
       case Slip(x) => Slipping(v, w, x) && Apart(v, w)
  }

  /** A packet is taken only if it is good: intact, in turn, and as expected. The device's are acknowledged. */
  predicate Taking(v: View, w: View, x: Desc) {
    && Kept(x, v.s.xfr) && Good(x, v.s, v.inToggle) && w.inToggle == ToggleAdvance(v.inToggle)
    && w.q == v.q + [x] && w.toggle == v.toggle && SameOut(v.s, w.s)
    && (v.s.checking ==> w.s.tstLfsr == LfsrAt(v.s.tstLfsr, |Payload(x)|))
    && (if v.s.retrieve then
          && v.recving == Some(x) && v.looking && !w.s.sigExpected && !v.s.sigExpected
          && w.sending == Some(Desc([PID_ACK], NO_DATA_STAGE))
        else w.s.sigExpected == v.s.sigExpected)
  }

  /** The signature, in sequence, gives the device's LFSR and the PID to be expected next. */
  predicate Signing(v: View, w: View, x: Desc) {
    && v.recving == Some(x) && v.looking && Signs(x, v.s.tstSeq) && w.s.tstLfsr == x.bytes[5]
      && w.inToggle == ToggleAdvance(x.bytes[0])
    && w.q == v.q && w.toggle == v.toggle && SameOut(v.s, w.s) && v.s.sigExpected && !w.s.sigExpected && v.s.retrieve
    && w.sending == Some(Desc([PID_ACK], NO_DATA_STAGE))
  }

  /** A packet in turn with the wrong content is answered with NAK, but its turn is over. */
  predicate Slipping(v: View, w: View, x: Desc) {
    && v.recving == Some(x) && v.looking && Slips(x, v.s, v.inToggle) && w.inToggle == ToggleAdvance(v.inToggle)
    && Untouched(v, w) && v.s.retrieve && !v.s.sigExpected && w.sending == Some(Desc([PID_NAK], NO_DATA_STAGE))
  }

  /** The call is one of the moves. */
  predicate Moves(c: Ctx, d: Ctx, id: nat)
    requires ValidCtx(c) && id < MAX_STREAMS
  {
    ValidCtx(d) && Effect(ViewOf(c, id), ViewOf(d, id), id, MoveOf(ViewOf(c, id), ViewOf(d, id)))
  }

  /** The streams the laws are about. */
  predicate Live(c: Ctx, id: nat)
    requires id < |c.streams|
  {
    c.streams[id].send && c.streams[id].xfr != Isochronous
  }

  // ---- Contexts stay contexts ------------------------------------------------------------------------

  lemma Lengths(c: Ctx)
    requires ValidCtx(c)
    ensures |c.streams| == MAX_STREAMS && |c.queues| == MAX_STREAMS && |c.epIn| == MAX_ENDPOINTS
      && |c.epOut| == MAX_ENDPOINTS
  {}

  lemma Bounds(c: Ctx)
    requires ValidCtx(c)
    ensures 1 <= c.nstreams <= MAX_STREAMS && c.streamIn < c.nstreams && c.streamOut < c.nstreams
    ensures c.devAddr < 0x80 && c.tickBits < TWO32 && c.frameStart < TWO32
  {}

  lemma ToggleKeeps(e: seq<bv8>, i: nat, pid: bv8)
    requires Toggles(e) && i < MAX_ENDPOINTS && IsToggle(pid)
    ensures Toggles(e[i := ToggleAdvance(pid)]) && Toggles(e[i := pid])
  {}

  lemma SetStream(streams: seq<Stream>, queues: seq<seq<Desc>>, i: nat, s: Stream, q: seq<Desc>)
    requires StreamsOk(streams, queues) && i < MAX_STREAMS && StreamOk(s, q)
    ensures StreamsOk(streams[i := s], queues[i := q])
    ensures s == streams[i] ==> StreamsOk(streams, queues[i := q])
    ensures q == queues[i] ==> StreamsOk(streams[i := s], queues)
  {
    hide StreamOk;
  }

  lemma StillOk(s: Stream, q: seq<Desc>, t: Stream)
    requires StreamOk(s, q) && t.xfr == s.xfr && (t.xfr == Isochronous ==> t.sigExpected)
    ensures StreamOk(t, q) && StreamOk(t, []) && (q != [] ==> Kept(q[0], s.xfr) && StreamOk(t, q[1..]))
    ensures forall x :: Kept(x, s.xfr) ==> StreamOk(t, q + [x])
  {}

  /** The two parts of a context an arm may touch, and the rest. */
  lemma Again(c: Ctx, d: Ctx)
    requires ValidCtx(c) && Toggles(d.epIn) && Toggles(d.epOut) && StreamsOk(d.streams, d.queues)
    requires d.nstreams == c.nstreams && d.streamIn < d.nstreams && d.streamOut < d.nstreams && d.devAddr == c.devAddr
    requires d.tickBits == c.tickBits && d.frameStart == c.frameStart && (d.recving.None? || d.recving == c.recving)
    requires d.hostSt == HS_WAIT_PKT || d.hostSt == HS_ACKIFDATA ==> d.streams[d.streamIn].retrieve
    ensures ValidCtx(d)
  {}

  lemma StreamAt(c: Ctx, k: nat)
    requires ValidCtx(c) && k < MAX_STREAMS
    ensures StreamOk(c.streams[k], c.queues[k]) && StreamsOk(c.streams, c.queues)
      && (c.streams[k].xfr == Isochronous ==> c.streams[k].sigExpected)
  {}

  /** Nothing happens to a stream that is not looked at. */
  lemma Aside(c: Ctx, d: Ctx, id: nat)
    requires ValidCtx(c) && ValidCtx(d) && id < MAX_STREAMS && d.devAddr == c.devAddr
    requires d.streams[id] == c.streams[id] && d.queues[id] == c.queues[id] && d.epOut[Ep(id)] == c.epOut[Ep(id)]
    requires d.epIn[Ep(id)] == c.epIn[Ep(id)]
    requires d.hostSt == HS_ERROR
      || ((d.hostSt == HS_WAITACK && d.streamOut == id) == (c.hostSt == HS_WAITACK && c.streamOut == id))
    ensures Moves(c, d, id)
  {
    Lengths(c);
    hide ValidCtx, Reply, LfsrAt, LfsrSeq, Kept, Payload, Scrambled, ToggleAdvance, Taking, Signing, Slipping;
  }

  lemma BuildMoves(c: Ctx, d: Ctx, id: nat, t: Stream, reply: Desc)
    requires ValidCtx(c) && ValidCtx(d) && id < MAX_STREAMS && c.hostSt != HS_WAITACK && c.queues[id] != []
    requires Kept(c.queues[id][0], c.streams[id].xfr)
    requires t == c.streams[id].(rewindLfsr := c.streams[id].dpiLfsr,
                                 dpiLfsr := LfsrAt(c.streams[id].dpiLfsr, Scrambled(c.queues[id][0], c.streams[id])))
    requires reply == Reply(c.queues[id][0], c.streams[id], id, c.epOut[Ep(id)], c.devAddr)
    requires d.streams == c.streams[id := t] && d.sending == Some(reply) && d.queues == c.queues && d.epOut == c.epOut
    requires d.epIn == c.epIn
    requires d.hostSt == HS_WAITACK && d.streamOut == id && d.devAddr == c.devAddr
    ensures Moves(c, d, id)
  {
    Lengths(c);
    hide ValidCtx, Reply, LfsrAt, LfsrSeq, Kept, Payload, Scrambled, ToggleAdvance, Taking, Signing, Slipping;
  }

  /** Turns, the answer's whereabouts and the descriptor sent are no stream's business. */
  lemma QuietMoves(c: Ctx, d: Ctx, id: nat)
    requires ValidCtx(c) && id < MAX_STREAMS && d.streamIn < c.nstreams && d.streamOut < c.nstreams
    requires d == c.(hostSt := d.hostSt, streamIn := d.streamIn, streamOut := d.streamOut, sending := d.sending,
                     transmitting := d.transmitting, busState := d.busState, lastPid := d.lastPid)
    requires d.hostSt == HS_WAIT_PKT || d.hostSt == HS_ACKIFDATA ==> c.streams[d.streamIn].retrieve
    requires d.hostSt == HS_ERROR || (d.hostSt == HS_WAITACK) == (c.hostSt == HS_WAITACK)
    requires d.hostSt == HS_WAITACK ==> d.streamOut == c.streamOut
    ensures ValidCtx(d) && Moves(c, d, id)
  {
    hide Moves, ValidCtx, Toggles, StreamsOk, StreamOk, RxShape;
    Lengths(c);
    Bounds(c);
    StreamAt(c, id);
    ToggleAt(c, id);
    Again(c, d);
    Aside(c, d, id);
  }

  lemma DiscardMoves(c: Ctx, d: Ctx, k: nat, id: nat)
    requires ValidCtx(c) && id < MAX_STREAMS && k < c.nstreams && c.hostSt != HS_WAITACK
    requires d == c.(streamOut := k, hostSt := HS_STREAMIN, queues := c.queues[k := []])
    ensures ValidCtx(d) && (id != k ==> Moves(c, d, id))
  {
    hide Moves, ValidCtx, Toggles, StreamsOk, StreamOk, RxShape;
    Lengths(c);
    Bounds(c);
    StreamAt(c, k);
    ToggleAt(c, k);
    StillOk(c.streams[k], c.queues[k], c.streams[k]);
    SetStream(c.streams, c.queues, k, c.streams[k], []);
    Again(c, d);
    if id != k {
      Aside(c, d, id);
    }
  }

  lemma OutMoves(c: Ctx, id: nat)
    requires ValidCtx(c) && id < MAX_STREAMS && c.hostSt != HS_WAITACK && ServeOut(c).Next?
    ensures ValidCtx(ServeOut(c).c) && (Live(c, id) ==> Moves(c, ServeOut(c).c, id))
  {
    hide Moves, ValidCtx, Toggles, StreamsOk, StreamOk, Reply, LfsrAt, LfsrSeq, Kept, ReplyFits, TimeLeft, NextId,
      OutState, Payload, Scrambled, ToggleAdvance, RxShape;
    Lengths(c);
    Bounds(c);
    var k := NextId(c.streamOut, c.nstreams);
    StreamAt(c, k);
    ToggleAt(c, k);
    var s, q, d := c.streams[k], c.queues[k], ServeOut(c).c;
    if TimeLeft(c) <= MIN_TIME_LEFT || (s.send && q == []) {
      QuietMoves(c, d, id);
    } else if !s.send {
      DiscardMoves(c, d, k, id);
    } else {
      StillOk(s, q, s);
      var t := s.(rewindLfsr := s.dpiLfsr, dpiLfsr := LfsrAt(s.dpiLfsr, Scrambled(q[0], s)));
      StillOk(s, q, t);
      ReplyingMoves(c, d, k, id, t);
    }
  }

  lemma ReplyingMoves(c: Ctx, d: Ctx, k: nat, id: nat, t: Stream)
    requires ValidCtx(c) && id < MAX_STREAMS && k < c.nstreams && c.hostSt != HS_WAITACK && c.queues[k] != []
    requires Kept(c.queues[k][0], c.streams[k].xfr) && c.streams[k].xfr != Control && StreamOk(t, c.queues[k])
    requires t == c.streams[k].(rewindLfsr := c.streams[k].dpiLfsr,
                                dpiLfsr := LfsrAt(c.streams[k].dpiLfsr, Scrambled(c.queues[k][0], c.streams[k])))
    requires d == Replying(c, k, t, Reply(c.queues[k][0], c.streams[k], k, c.epOut[Ep(k)], c.devAddr))
    ensures ValidCtx(d) && Moves(c, d, id)
  {
    hide Moves, ValidCtx, Toggles, StreamsOk, StreamOk, Reply, LfsrAt, Kept, OutState, Payload, Scrambled, RxShape;
    Lengths(c);
    Bounds(c);
    StreamAt(c, k);
    ToggleAt(c, k);
    SetStream(c.streams, c.queues, k, t, c.queues[k]);
    Again(c, d);
    if id == k {
      BuildMoves(c, d, id, t, Reply(c.queues[k][0], c.streams[k], id, c.epOut[Ep(id)], c.devAddr));
    } else {
      Aside(c, d, id);
    }
  }

  lemma AckMoved(c: Ctx, d: Ctx, id: nat)
    requires ValidCtx(c) && ValidCtx(d) && id < MAX_STREAMS && d.devAddr == c.devAddr && c.hostSt == HS_WAITACK
      && c.streamOut == id
    requires d.hostSt == HS_STREAMIN && c.queues[id] != [] && d.queues == c.queues[id := c.queues[id][1..]]
      && d.streams == c.streams
    requires d.epIn == c.epIn && d.epOut == c.epOut[Ep(id) := ToggleAdvance(c.epOut[Ep(id)])] && c.lastPid == PID_ACK
    ensures Moves(c, d, id)
  {
    Lengths(c);
    hide ValidCtx, Reply, LfsrAt, LfsrSeq, Kept, Payload, Scrambled, ToggleAdvance, Taking, Signing, Slipping;
  }

  lemma NakMoved(c: Ctx, d: Ctx, id: nat)
    requires ValidCtx(c) && ValidCtx(d) && id < MAX_STREAMS && d.devAddr == c.devAddr && c.hostSt == HS_WAITACK
      && c.streamOut == id
    requires d.hostSt == HS_STREAMIN && d.queues == c.queues && d.epOut == c.epOut && d.epIn == c.epIn
    requires d.streams == c.streams[id := c.streams[id].(dpiLfsr := c.streams[id].rewindLfsr)] && c.lastPid == PID_NAK
    ensures Moves(c, d, id)
  {
    Lengths(c);
    hide ValidCtx, Reply, LfsrAt, LfsrSeq, Kept, Payload, Scrambled, ToggleAdvance, Taking, Signing, Slipping;
  }

  lemma RetireMoves(c: Ctx, c1: Ctx, id: nat)
    requires ValidCtx(c) && id < MAX_STREAMS && c.hostSt == HS_WAITACK && c1 == c.(sending := None) && Retire(c1).Next?
    requires c.streams[c.streamOut].xfr != Isochronous ==> c.lastPid == PID_ACK
    ensures ValidCtx(Retire(c1).c) && (c.streams[id].xfr != Isochronous ==> Moves(c, Retire(c1).c, id))
  {
    hide RxShape, Moves, ValidCtx, Toggles, StreamsOk, StreamOk, Kept, ToggleAdvance;
    Lengths(c);
    Bounds(c);
    var k := c.streamOut;
    StreamAt(c, k);
    ToggleAt(c, k);
    ToggleKeeps(c.epOut, Ep(k), c.epOut[Ep(k)]);
    var s, q := c.streams[k], c.queues[k];
    Again(c, c1);
    var d := Retire(c1).c;
    StillOk(s, q, s);
    SetStream(c.streams, c.queues, k, s, q[1..]);
    Again(c, d);
    if id == k {
      if s.xfr != Isochronous {
        AckMoved(c, d, id);
      }
    } else {
      Aside(c, d, id);
    }
  }

  lemma RewindMoves(c: Ctx, d: Ctx, id: nat)
    requires ValidCtx(c) && id < MAX_STREAMS && c.hostSt == HS_WAITACK
    requires var s := c.streams[c.streamOut];
      d == c.(sending := None, streams := c.streams[c.streamOut := s.(dpiLfsr := s.rewindLfsr)], hostSt := HS_STREAMIN)
    requires c.lastPid == PID_NAK
    ensures ValidCtx(d) && Moves(c, d, id)
  {
    hide RxShape, Moves, ValidCtx, Toggles, StreamsOk, StreamOk, Kept;
    Lengths(c);
    Bounds(c);
    var k := c.streamOut;
    StreamAt(c, k);
    ToggleAt(c, k);
    var s, q := c.streams[k], c.queues[k];
    StillOk(s, q, s.(dpiLfsr := s.rewindLfsr));
    SetStream(c.streams, c.queues, k, s.(dpiLfsr := s.rewindLfsr), q);
    Again(c, d);
    if id == k {
      NakMoved(c, d, id);
    } else {
      Aside(c, d, id);
    }
  }

  /** Only an ACK is acceptance, and only a NAK refusal. */
  lemma AnswerPids(t: XfrType, bus: BusState, pid: bv8, late: bool)
    requires t != Control
    ensures AnswerTo(t, bus, pid, late).Accepted? && t != Isochronous ==> pid == PID_ACK
    ensures AnswerTo(t, bus, pid, late).Refused? ==> t != Isochronous && pid == PID_NAK
  {}

  lemma AckMoves(c: Ctx, id: nat)
    requires ValidCtx(c) && id < MAX_STREAMS && c.hostSt == HS_WAITACK && ServeAck(c).Next?
    ensures ValidCtx(ServeAck(c).c) && (Live(c, id) ==> Moves(c, ServeAck(c).c, id))
  {
    hide RxShape, Moves, Retire, AnswerTo, ValidCtx, Toggles, StreamsOk, StreamOk, Kept;
    Lengths(c);
    Bounds(c);
    var k := c.streamOut;
    StreamAt(c, k);
    ToggleAt(c, k);
    var s, q := c.streams[k], c.queues[k];
    var d := ServeAck(c).c;
    AnswerPids(s.xfr, c.busState, c.lastPid, c.tickBits >= c.wait);
    match AnswerTo(s.xfr, c.busState, c.lastPid, c.tickBits >= c.wait)
    case Accepted => RetireMoves(c, c.(sending := None), id);
    case Refused => RewindMoves(c, d, id);
    case _ => QuietMoves(c, d, id);
  }

  lemma TakeMoved(c: Ctx, d: Ctx, id: nat, t: Stream, x: Desc)
    requires ValidCtx(c) && ValidCtx(d) && id < MAX_STREAMS && c.hostSt != HS_WAITACK
    requires d.hostSt == HS_STREAMOUT && d.devAddr == c.devAddr && d.epOut == c.epOut && d.streams == c.streams[id := t]
    requires d.epIn == c.epIn[Ep(id) := ToggleAdvance(c.epIn[Ep(id)])] && d.queues == c.queues[id := c.queues[id] + [x]]
    requires var s := c.streams[id];
      && SameSetup(s, t) && SameOut(s, t) && Kept(x, s.xfr) && Good(x, s, c.epIn[Ep(id)])
      && (s.checking ==> t.tstLfsr == LfsrAt(s.tstLfsr, |Payload(x)|))
      && (if s.retrieve then
            && c.recving == Some(x) && c.hostSt == HS_ACKIFDATA && c.streamIn == id
            && d.sending == Some(Desc([PID_ACK], NO_DATA_STAGE)) && !t.sigExpected && !s.sigExpected
          else t.sigExpected == s.sigExpected)
    ensures Moves(c, d, id)
  {
    Lengths(c);
    hide ValidCtx, Reply, LfsrAt, LfsrSeq, Kept, Payload, Scrambled, ToggleAdvance, Good, Signing, Slipping;
  }

  lemma SignMoved(c: Ctx, d: Ctx, id: nat, t: Stream, x: Desc)
    requires ValidCtx(c) && ValidCtx(d) && id < MAX_STREAMS && c.hostSt == HS_ACKIFDATA && c.streamIn == id
      && c.recving == Some(x)
    requires d.hostSt == HS_STREAMOUT && d.devAddr == c.devAddr && d.epOut == c.epOut && d.streams == c.streams[id := t]
    requires d.queues == c.queues && d.epIn[Ep(id)] == ToggleAdvance(x.bytes[0])
    requires var s := c.streams[id];
      && SameSetup(s, t) && SameOut(s, t) && s.retrieve && s.sigExpected && !t.sigExpected
      && Signs(x, s.tstSeq) && t.tstLfsr == x.bytes[5]
    requires d.sending == Some(Desc([PID_ACK], NO_DATA_STAGE))
    ensures Moves(c, d, id)
  {
    Lengths(c);
    hide ValidCtx, Reply, LfsrAt, LfsrSeq, Kept, Payload, Scrambled, ToggleAdvance, WellSigned, SeqNo, Taking,
      Slipping;
  }

  /** A refused packet leaves its stream alone, but may have used up its turn. */
  lemma RefuseMoved(c: Ctx, d: Ctx, id: nat, t: Stream, x: Desc)
    requires ValidCtx(c) && ValidCtx(d) && id < MAX_STREAMS && c.hostSt == HS_ACKIFDATA && c.streamIn == id
      && c.recving == Some(x)
    requires d.hostSt == HS_STREAMOUT && d.devAddr == c.devAddr && d.epOut == c.epOut && d.streams == c.streams[id := t]
    requires d.queues == c.queues && d.sending == Some(Desc([PID_NAK], NO_DATA_STAGE))
    requires var s, next := c.streams[id], c.epIn[Ep(id)];
      && SameSetup(s, t) && SameOut(s, t) && s.retrieve && t.sigExpected == s.sigExpected && t.tstLfsr == s.tstLfsr
      && (d.epIn[Ep(id)] == next
          || (d.epIn[Ep(id)] == ToggleAdvance(next) && !s.sigExpected && Slips(x, s, next)))
    ensures Moves(c, d, id)
  {
    Lengths(c);
    hide Status, ValidCtx, Reply, LfsrAt, LfsrSeq, Kept, Payload, Scrambled, ToggleAdvance, Slips, Taking, Signing;
  }

  lemma GeneratedKept(x: Desc, t: XfrType)
    requires |x.bytes| == GEN_LENGTH + 3 && x.dataStart == 0
    ensures Kept(x, t)
  {}

  lemma GenMoves(c: Ctx, d: Ctx, k: nat, id: nat, t: Stream, x: Desc)
    requires ValidCtx(c) && id < MAX_STREAMS && k < c.nstreams && c.hostSt == HS_STREAMIN && c.queues[k] == []
    requires !c.streams[k].retrieve
    requires x == Generated(c.streams[k], c.epIn[Ep(k)], GEN_LENGTH)
    requires t == c.streams[k].(tstLfsr := LfsrAt(c.streams[k].tstLfsr, GEN_LENGTH))
    requires d == c.(streamIn := k, queues := c.queues[k := [x]], epIn := c.epIn[Ep(k) := ToggleAdvance(c.epIn[Ep(k)])],
                     streams := c.streams[k := t], hostSt := HS_STREAMOUT)
    ensures ValidCtx(d) && Moves(c, d, id)
  {
    hide RxShape, Moves, ValidCtx, Toggles, StreamsOk, StreamOk, Kept, Payload, Good, Generated, LfsrAt, LfsrSeq,
      ToggleAdvance;
    Lengths(c);
    Bounds(c);
    StreamAt(c, k);
    ToggleAt(c, k);
    ToggleKeeps(c.epIn, Ep(k), c.epIn[Ep(k)]);
    var s, q := c.streams[k], c.queues[k];
    GeneratedGood(s, c.epIn[Ep(k)], GEN_LENGTH);
    GeneratedKept(x, s.xfr);
    StillOk(s, q, t);
    assert q + [x] == [x];
    SetStream(c.streams, c.queues, k, t, q + [x]);
    Again(c, d);
    if id == k {
      TakeMoved(c, d, id, t, x);
    } else {
      Aside(c, d, id);
    }
  }

  lemma InMoves(c: Ctx, id: nat)
    requires ValidCtx(c) && id < MAX_STREAMS && c.hostSt == HS_STREAMIN && ServeIn(c).Next?
    ensures ValidCtx(ServeIn(c).c) && Moves(c, ServeIn(c).c, id)
  {
    hide Moves, ValidCtx, Toggles, StreamsOk, StreamOk, Kept, TimeLeft, Used, Generated, LfsrAt, NextId, InState,
      TokenBytes, ToggleAdvance, RxShape;
    Lengths(c);
    Bounds(c);
    var k := NextId(c.streamIn, c.nstreams);
    StreamAt(c, k);
    ToggleAt(c, k);
    var s, q, d := c.streams[k], c.queues[k], ServeIn(c).c;
    if TimeLeft(c) > MIN_TIME_LEFT && !s.retrieve && s.send && q == [] && Used(c) + c.lost < MAX_TRANSFERS {
      GenMoves(c, d, k, id, s.(tstLfsr := LfsrAt(s.tstLfsr, GEN_LENGTH)), Generated(s, c.epIn[Ep(k)], GEN_LENGTH));
    } else {
      QuietMoves(c, d, id);
    }
  }

  // ---- Receiving -------------------------------------------------------------------------------------

  /** What is made of a packet, in one of four ways. */
  predicate Judged(x: Desc, s: Stream, next: bv8, r: Taken) {
    && r.Taken? && IsToggle(r.next) && SameSetup(s, r.s) && SameOut(s, r.s) && r.s.sigExpected == s.sigExpected
    && (if s.xfr == Isochronous then r.keep ==> r.accept && Kept(x, s.xfr)
        else if r.keep then
          && r.accept && !s.sigExpected && Kept(x, s.xfr) && Good(x, s, next) && r.next == ToggleAdvance(next)
          && (s.checking ==> r.s.tstLfsr == LfsrAt(s.tstLfsr, |Payload(x)|))
        else if r.accept then
          s.sigExpected && Signs(x, s.tstSeq) && r.s.tstLfsr == x.bytes[5] && r.next == ToggleAdvance(x.bytes[0])
        else
          && r.s.tstLfsr == s.tstLfsr
          && (r.next == next || (r.next == ToggleAdvance(next) && !s.sigExpected && Slips(x, s, next))))
  }

  lemma GoodKept(x: Desc, s: Stream, next: bv8)
    requires s.xfr != Isochronous && Good(x, s, next)
    ensures Kept(x, s.xfr)
  {}

  lemma ExaminedJudged(x: Desc, s: Stream, next: bv8)
    requires RxShape(x) && IsToggle(next) && (s.xfr == Isochronous ==> s.sigExpected) && Examine(x, s, next).Taken?
    ensures Judged(x, s, next, Examine(x, s, next))
  {
    hide Examine, Intact, Kept, Payload, WellSigned, SeqNo, LfsrAt, LfsrSeq, ToggleAdvance;
    ToggleStays(next);
    if s.xfr == Isochronous {
      ExaminedIso(x, s, next);
    } else if s.sigExpected {
      ExaminedSign(x, s, next);
      ToggleStays(x.bytes[0]);
    } else {
      ExaminedPlain(x, s, next);
      if Good(x, s, next) {
        GoodKept(x, s, next);
      }
    }
  }

  lemma JudgedSame(x: Desc, s: Stream, t: Stream, next: bv8, r: Taken)
    requires Judged(x, t, next, r) && t == s.(nretries := t.nretries, retryLfsr := t.retryLfsr)
    ensures Judged(x, s, next, r)
  {
    hide Intact, Kept, Payload, WellSigned, SeqNo, LfsrAt, LfsrSeq, ToggleAdvance, IsToggle;
  }

  /** Every packet that is looked at is judged so. */
  lemma VerdictJudged(x: Desc, s: Stream, next: bv8)
    requires RxShape(x) && IsToggle(next) && (s.xfr == Isochronous ==> s.sigExpected) && Verdict(s, x, next).Taken?
    ensures Judged(x, s, next, Verdict(s, x, next))
  {
    hide Examine, Willing, Counted, RxShape, IsToggle, Signs, Slips, Good, Kept, LfsrAt, ToggleAdvance;
    var t := Counted(s);
    CountedKeeps(s);
    if Willing(s, x) {
      hide Judged;
      ExaminedJudged(x, t, next);
      JudgedSame(x, s, t, next, Verdict(s, x, next));
    }
  }

  lemma StatusIs()
    ensures Status(true) == Desc([PID_ACK], NO_DATA_STAGE) && Status(false) == Desc([PID_NAK], NO_DATA_STAGE)
  {}

  /** A packet that was looked at is taken, or is the signature, or is refused. */
  lemma CollectedMoves(c: Ctx, d: Ctx, x: Desc, id: nat, r: Taken, t: Stream)
    requires ValidCtx(c) && id < MAX_STREAMS && c.hostSt == HS_ACKIFDATA && c.recving == Some(x) && r.Taken?
    requires Judged(x, c.streams[c.streamIn], c.epIn[Ep(c.streamIn)], r)
    requires t == if r.s.xfr == Isochronous then r.s else r.s.(sigExpected := r.s.sigExpected && !r.accept)
    requires d == Collected(c, x, r.keep, t, r.next).(recving := None, sending := d.sending,
      transmitting := d.transmitting)
    requires r.s.xfr != Isochronous ==> d.sending == Some(Status(r.accept))
    ensures ValidCtx(d) && (c.streams[id].xfr != Isochronous ==> Moves(c, d, id))
  {
    StatusIs();
    hide Status, Moves, ValidCtx, RxShape, Toggles, StreamsOk, StreamOk, Kept, Payload, LfsrAt, LfsrSeq, Good, Signs,
      Slips, ToggleAdvance;
    Lengths(c);
    Bounds(c);
    var k := c.streamIn;
    StreamAt(c, k);
    ToggleAt(c, k);
    var s, q := c.streams[k], c.queues[k];
    StillOk(s, q, t);
    ToggleKeeps(c.epIn, Ep(k), r.next);
    SetStream(c.streams, c.queues, k, t, if r.keep then q + [x] else q);
    Again(c, d);
    if id != k {
      Aside(c, d, id);
    } else if s.xfr == Isochronous {
    } else if r.keep {
      TakeMoved(c, d, id, t, x);
    } else if r.accept {
      SignMoved(c, d, id, t, x);
    } else {
      RefuseMoved(c, d, id, t, x);
    }
  }

  lemma TakeMoves(c: Ctx, c1: Ctx, x: Desc, id: nat)
    requires ValidCtx(c) && id < MAX_STREAMS && c.hostSt == HS_ACKIFDATA && c.recving == Some(x)
    requires c1 == c.(recving := None) && ValidCtx(c1) && RxShape(x) && TakeData(c1, x).Next?
    ensures ValidCtx(TakeData(c1, x).c) && (c.streams[id].xfr != Isochronous ==> Moves(c, TakeData(c1, x).c, id))
  {
    hide Status, Verdict, Judged, Moves, ValidCtx, RxShape, Toggles, StreamsOk, StreamOk, Kept, Payload, LfsrAt,
      LfsrSeq, Collected;
    Lengths(c);
    Bounds(c);
    StreamAt(c, c.streamIn);
    ToggleAt(c, c.streamIn);
    var r := Decide(c, x);
    VerdictJudged(x, c.streams[c.streamIn], c.epIn[Ep(c.streamIn)]);
    var t := if r.s.xfr == Isochronous then r.s else r.s.(sigExpected := r.s.sigExpected && !r.accept);
    CollectedWhere(c, c1, x, r.keep, t, r.next);
    CollectedMoves(c, TakeData(c1, x).c, x, id, r, t);
  }

  lemma CollectedWhere(c: Ctx, c1: Ctx, x: Desc, keep: bool, t: Stream, next: bv8)
    requires ValidCtx(c) && c1 == c.(recving := None) && ValidCtx(c1)
    ensures Collected(c1, x, keep, t, next) == Collected(c, x, keep, t, next).(recving := None)
  {
    hide ValidCtx;
    Lengths(c);
    Bounds(c);
  }

  lemma ToggleAt(c: Ctx, k: nat)
    requires ValidCtx(c) && k < MAX_STREAMS
    ensures Toggles(c.epIn) && Toggles(c.epOut)
    ensures IsToggle(c.epIn[Ep(k)]) && IsToggle(c.epOut[Ep(k)]) && (c.recving.Some? ==> RxShape(c.recving.value))
    ensures c.hostSt == HS_ACKIFDATA ==> c.streams[c.streamIn].retrieve
  {}

  lemma ReplyMoves(c: Ctx, id: nat)
    requires ValidCtx(c) && id < MAX_STREAMS && c.hostSt == HS_ACKIFDATA && ServeReply(c).Next?
    ensures ValidCtx(ServeReply(c).c) && (Live(c, id) ==> Moves(c, ServeReply(c).c, id))
  {
    hide TakeData, Moves, ValidCtx, RxShape, Toggles, StreamsOk, StreamOk, Kept;
    Lengths(c);
    Bounds(c);
    StreamAt(c, c.streamIn);
    ToggleAt(c, c.streamIn);
    var c1 := c.(recving := None);
    Again(c, c1);
    var t := c.streams[c.streamIn].xfr;
    if Answered(c, t) && IsToggle(c.lastPid) {
      TakeMoves(c, c1, c.recving.value, id);
    } else {
      assert WithoutData(c, t) != HS_WAITACK && WithoutData(c, t) != HS_WAIT_PKT;
      Again(c, ServeReply(c).c);
      Aside(c, ServeReply(c).c, id);
    }
  }

  /** Every call of streams_service that returns leaves a context, and makes one of the moves for every
      stream that sends and is not isochronous. */
  lemma ServiceMoves(c: Ctx, id: nat)
    requires ValidCtx(c) && c.sending.Some? && id < MAX_STREAMS && Service(c).Next?
    ensures ValidCtx(Service(c).c) && (Live(c, id) ==> Moves(c, Service(c).c, id))
  {
    Lengths(c);
    StreamAt(c, c.streamIn);
    ToggleAt(c, c.streamIn);
    hide ServeOut, ServeAck, ServeIn, ServeReply, Moves, Toggles, StreamsOk;
    match c.hostSt
    case HS_STARTFRAME => OutMoves(c, id);
    case HS_STREAMOUT => OutMoves(c, id);
    case HS_WAITACK => AckMoves(c, id);
    case HS_STREAMIN => InMoves(c, id);
    case HS_ACKIFDATA => ReplyMoves(c, id);
    case HS_WAIT_PKT =>
      Again(c, Service(c).c);
      Aside(c, Service(c).c, id);
    case HS_ERROR =>
    case HS_NEXTFRAME => Aside(c, c, id);
  }
}
