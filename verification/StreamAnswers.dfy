/** The streaming host's handshakes: what it answers the device, and what the device's answers do to a stream. */
module StreamAnswers {
  import opened BitSeq
  import opened CrcRoutines
  import opened Transfer
  import opened Streams
  import opened StreamPackets
  import opened StreamMoves
  import opened StreamRuns

  // ---- The host's answers ------------------------------------------------------------------------------

  /** The device's packet has been looked at: it is kept, or was the signature, or neither. */
  predicate Welcome(c: Ctx, d: Ctx)
    requires ValidCtx(c) && ValidCtx(d)
  {
    |d.queues[c.streamIn]| > |c.queues[c.streamIn]|
    || (c.streams[c.streamIn].sigExpected && !d.streams[c.streamIn].sigExpected)
  }

  /** A call that takes a packet from the device answers it with ACK if it is kept or was the signature, and with NAK
      otherwise; the packets of isochronous streams are not answered. */
  lemma HandshakeSent(c: Ctx)
    requires ValidCtx(c) && c.sending.Some? && c.hostSt == HS_ACKIFDATA && Service(c).Next?
    requires c.recving.Some? && Service(c).c.recving.None?
    ensures var d := Service(c).c;
      && ValidCtx(d)
      && (c.streams[c.streamIn].xfr != Isochronous ==>
            d.transmitting && d.sending == Some(Desc([if Welcome(c, d) then PID_ACK else PID_NAK], NO_DATA_STAGE)))
      && (c.streams[c.streamIn].xfr == Isochronous ==> d.sending == c.sending && d.transmitting == c.transmitting)
  {
    ServiceMoves(c, 0);
    Lengths(c);
    ToggleAt(c, c.streamIn);
    var c1, x := c.(recving := None), c.recving.value;
    Again(c, c1);
    StreamAt(c, c.streamIn);
    var s := c.streams[c.streamIn];
    assert ServeReply(c) == TakeData(c1, x) by {
      hide ValidCtx, TakeData, WithoutData;
    }
    assert Decide(c1, x).Taken? by {
      hide Decide, ValidCtx, Collected;
    }
    VerdictJudged(x, s, c.epIn[Ep(c.streamIn)]);
    StatusIs();
    TakenAnswers(c1, x, Decide(c1, x));
    hide ValidCtx, TakeData, Decide, Judged, Status;
  }

  lemma TakenAnswers(c: Ctx, x: Desc, r: Taken)
    requires ValidCtx(c) && RxShape(x) && r == Decide(c, x) && r.Taken? && TakeData(c, x).Next?
    requires Judged(x, c.streams[c.streamIn], c.epIn[Ep(c.streamIn)], r)
    ensures var s, d := c.streams[c.streamIn], TakeData(c, x).c;
      && |d.queues| == |d.streams| == MAX_STREAMS
      && (s.xfr == Isochronous ==> d.sending == c.sending && d.transmitting == c.transmitting)
      && (s.xfr != Isochronous ==>
            && d.transmitting && d.sending == Some(Status(r.accept))
            && (r.accept <==> |d.queues[c.streamIn]| > |c.queues[c.streamIn]|
                              || (s.sigExpected && !d.streams[c.streamIn].sigExpected)))
  {
    Lengths(c);
    hide ValidCtx, Decide, Status, Kept, Good, Signs, Slips, LfsrAt, ToggleAdvance, IsToggle;
  }

  // ---- The device's answers ----------------------------------------------------------------------------

  /** The bus state behind the device's answer to an OUT packet. */
  predicate OutAnswered(t: XfrType, bus: BusState) {
    (t == Bulk && bus == BulkOutAck) || (t == Interrupt && bus == InterruptOutAck)
  }

  /** What a stream awaiting an answer makes of it: on ACK the oldest packet is done with and the toggle advances; on
      NAK the LFSR goes back and the packet stays; any other answer, and none in time, is an error; until then it
      waits. */
  lemma AnswerTaken(c: Ctx)
    requires ValidCtx(c) && c.sending.Some? && c.hostSt == HS_WAITACK && Service(c).Next?
    requires c.streams[c.streamOut].xfr == Bulk || c.streams[c.streamOut].xfr == Interrupt
    ensures var id, d := c.streamOut, Service(c).c;
      var s, q, answered := c.streams[id], c.queues[id], OutAnswered(c.streams[id].xfr, c.busState);
      && d == c.(sending := None, hostSt := d.hostSt, queues := d.queues, epOut := d.epOut, streams := d.streams)
      && (if answered && c.lastPid == PID_ACK then
            && q != [] && d.hostSt == HS_STREAMIN && d.queues == c.queues[id := q[1..]] && d.streams == c.streams
            && d.epOut == c.epOut[1 + id := if c.epOut[1 + id] == PID_DATA0 then PID_DATA1 else PID_DATA0]
          else
            && d.queues == c.queues && d.epOut == c.epOut
            && (if answered && c.lastPid == PID_NAK then
                  d.hostSt == HS_STREAMIN && d.streams == c.streams[id := s.(dpiLfsr := s.rewindLfsr)]
                else
                  && d.streams == c.streams
                  && d.hostSt == if answered || c.tickBits >= c.wait then HS_ERROR else HS_WAITACK))
  {
    Lengths(c);
    ToggleAt(c, c.streamOut);
    hide ValidCtx, Toggles, StreamsOk;
  }

  /** An isochronous packet is not answered: it is done with as soon as it has been sent, and the toggle stays; a bus
      state that shows an answer is an error. */
  lemma IsoRetired(c: Ctx)
    requires ValidCtx(c) && c.sending.Some? && c.hostSt == HS_WAITACK && Service(c).Next?
    requires c.streams[c.streamOut].xfr == Isochronous
    ensures var id, d := c.streamOut, Service(c).c;
      && d == c.(sending := None, hostSt := d.hostSt, queues := d.queues)
      && (if c.busState == IsoOut then
            c.queues[id] != [] && d.hostSt == HS_STREAMIN && d.queues == c.queues[id := c.queues[id][1..]]
          else d.hostSt == HS_ERROR && d.queues == c.queues)
  {
    Lengths(c);
    hide ValidCtx, Toggles, StreamsOk;
  }

  /** Which bus state an OUT packet and an IN token leave behind. */
  lemma BusStates(t: XfrType)
    ensures t == Bulk ==> OutState(t) == BulkOut && InState(t) == BulkInToken && DataState(t) == BulkInData
    ensures t == Interrupt ==>
      OutState(t) == InterruptOut && InState(t) == InterruptInToken && DataState(t) == InterruptInData
    ensures t == Isochronous ==> OutState(t) == IsoOut && InState(t) == IsoInToken && DataState(t) == IsoInData
  {}

  /** The device's answer to a poll is over, and was not data, or there is none yet: a NAK makes the host go on to the
      next stream, any other PID to the next frame; for an isochronous stream a NAK is an error, and so is no answer
      in time. */
  lemma PollAnswered(c: Ctx)
    requires ValidCtx(c) && c.sending.Some? && c.hostSt == HS_ACKIFDATA
    requires var t := c.streams[c.streamIn].xfr;
      c.recving.None? || c.busState != DataState(if t == Control then Bulk else t) || !IsToggle(c.lastPid)
    ensures var t, d := c.streams[c.streamIn].xfr, Service(c);
      && d.Next? && d.c == c.(hostSt := d.c.hostSt)
      && (t == Bulk || t == Interrupt || t == Isochronous ==>
            var over := c.recving.Some? && c.busState == (if t == Bulk then BulkInData
                                                          else if t == Interrupt then InterruptInData else IsoInData);
            d.c.hostSt ==
              if over then
                (if c.lastPid != PID_NAK then HS_NEXTFRAME else if t == Isochronous then HS_ERROR else HS_STREAMOUT)
              else if c.tickBits >= c.wait then HS_ERROR else HS_ACKIFDATA)
  {
    hide ValidCtx, TakeData, IsToggle;
  }

  // ---- Polling -----------------------------------------------------------------------------------------

  /** A call polls the next stream in turn, and only one that retrieves: on the wire goes the IN token with the device's
      address and endpoint 1 + id. */
  lemma Polls(c: Ctx)
    requires ValidCtx(c) && c.sending.Some? && c.hostSt != HS_WAIT_PKT && Service(c).Next?
    requires Service(c).c.hostSt == HS_WAIT_PKT
    ensures var d, id := Service(c).c, (c.streamIn + 1) % c.nstreams;
      && c.hostSt == HS_STREAMIN && c.streams[id].retrieve && d.streamIn == id && d.transmitting && d.sending.Some?
      && d.lastPid == 0 && d.streams == c.streams && d.queues == c.queues
      && var field := ByteBits(c.devAddr)[..7] + ByteBits((1 + id) as bv8)[..4];
         BytesBits(d.sending.value.bytes) == ByteBits(PID_IN) + field + Crc5Of(field)
  {
    hide *;
    Bounds(c);
    FewStreams(c);
    PolledNext(c);
    NextTurn(c.streamIn, c.nstreams);
    InToken(c.devAddr, NextId(c.streamIn, c.nstreams));
  }

  lemma FewStreams(c: Ctx)
    requires ValidCtx(c)
    ensures c.nstreams <= MAX_STREAMS
  {}

  lemma InToken(device: bv8, id: nat)
    requires device < 0x80 && id < MAX_STREAMS
    ensures var field := ByteBits(device)[..7] + ByteBits((1 + id) as bv8)[..4];
      BytesBits(TokenBytes(PID_IN, device, (1 + id) as bv8)) == ByteBits(PID_IN) + field + Crc5Of(field)
  {
    TokenBits(PID_IN, device, (1 + id) as bv8);
    hide TokenBytes, ByteBits, Crc5Of, BytesBits;
  }

  /** Only HS_STREAMIN leads to a poll. */
  lemma PolledNext(c: Ctx)
    requires ValidCtx(c) && c.sending.Some? && c.hostSt != HS_WAIT_PKT && Service(c).Next?
    requires Service(c).c.hostSt == HS_WAIT_PKT
    ensures c.hostSt == HS_STREAMIN && Service(c) == ServeIn(c)
    ensures var d, id := Service(c).c, NextId(c.streamIn, c.nstreams);
      && id < |c.streams| && c.streams[id].retrieve && d.streamIn == id && d.transmitting && d.lastPid == 0
      && d.sending == Some(Desc(TokenBytes(PID_IN, c.devAddr, (1 + id) as bv8), NO_DATA_STAGE))
      && d.streams == c.streams && d.queues == c.queues
  {
    Lengths(c);
    match c.hostSt
    case HS_STARTFRAME => OutGoesOn(c);
    case HS_STREAMOUT => OutGoesOn(c);
    case HS_WAITACK => AckGoesOn(c);
    case HS_ACKIFDATA => ReplyGoesOn(c);
    case HS_STREAMIN => InPolls(c);
    case _ =>
  }

  lemma OutGoesOn(c: Ctx)
    requires ValidCtx(c) && ServeOut(c).Next?
    ensures ServeOut(c).c.hostSt != HS_WAIT_PKT
  {
    Lengths(c);
    hide ValidCtx, TimeLeft, NextId, Reply, LfsrAt, OutState, Scrambled, ReplyFits;
  }

  lemma AckGoesOn(c: Ctx)
    requires ValidCtx(c) && ServeAck(c).Next?
    ensures ServeAck(c).c.hostSt != HS_WAIT_PKT
  {
    Lengths(c);
    hide ValidCtx, AnswerTo, ToggleAdvance;
  }

  lemma ReplyGoesOn(c: Ctx)
    requires ValidCtx(c) && c.hostSt == HS_ACKIFDATA && ServeReply(c).Next?
    ensures ServeReply(c).c.hostSt != HS_WAIT_PKT
  {
    Lengths(c);
    ToggleAt(c, c.streamIn);
    hide ValidCtx, Decide, RxShape, IsToggle;
  }

  lemma InPolls(c: Ctx)
    requires ValidCtx(c) && ServeIn(c).Next? && ServeIn(c).c.hostSt == HS_WAIT_PKT
    ensures var d, id := ServeIn(c).c, NextId(c.streamIn, c.nstreams);
      && id < |c.streams| && c.streams[id].retrieve && d.streamIn == id && d.transmitting && d.lastPid == 0
      && d.sending == Some(Desc(TokenBytes(PID_IN, c.devAddr, (1 + id) as bv8), NO_DATA_STAGE))
      && d.streams == c.streams && d.queues == c.queues
  {
    Lengths(c);
    hide ValidCtx, TimeLeft, TokenBytes, Generated, InState;
  }

  lemma NextTurn(id: nat, n: nat)
    requires 1 <= n && id < n
    ensures NextId(id, n) == (id + 1) % n
  {}

  // ---- The course of a frame ---------------------------------------------------------------------------

  /** Bit intervals until the next frame is due. */
  function UntilFrame(c: Ctx): nat
    requires ValidCtx(c)
  {
    Sub32((c.frameStart + 12000) % 0x1_0000_0000, c.tickBits)
  }

  lemma UntilIs(c: Ctx)
    requires ValidCtx(c)
    ensures UntilFrame(c) == TimeLeft(c)
  {}

  /** Looking for something to send: nothing is begun with 800 bit intervals or less to go in the frame, and the host
      waits for the next one; else the next stream in turn is considered. One that does not send loses what it was
      sent, one that has nothing is passed over, and the packet of any other one is on its way. */
  lemma OutCourse(c: Ctx)
    requires ValidCtx(c) && c.sending.Some? && (c.hostSt == HS_STARTFRAME || c.hostSt == HS_STREAMOUT)
      && Service(c).Next?
    ensures var d, id := Service(c).c, (c.streamOut + 1) % c.nstreams;
      id < |c.streams| && id < |c.queues| &&
      if UntilFrame(c) <= 800 then d == c.(hostSt := HS_NEXTFRAME)
      else if !c.streams[id].send then d == c.(streamOut := id, hostSt := HS_STREAMIN, queues := c.queues[id := []])
      else if c.queues[id] == [] then d == c.(streamOut := id, hostSt := HS_STREAMIN)
      else
        && d == c.(streamOut := id, hostSt := HS_WAITACK, streams := d.streams, sending := d.sending,
          transmitting := true,
                   busState := d.busState, wait := d.wait, lastPid := 0)
        && d.sending.Some?
  {
    UntilIs(c);
    Bounds(c);
    Lengths(c);
    NextTurn(c.streamOut, c.nstreams);
    hide ValidCtx, UntilFrame, TimeLeft, NextId, Reply, LfsrAt, OutState, Scrambled, ReplyFits, KeptAll, Payload;
    StreamAt(c, (c.streamOut + 1) % c.nstreams);
  }

  /** Looking for something to fetch: the same, and the next stream in turn is polled if it retrieves. If it does not,
      but sends, has nothing in hand, and a descriptor is free, it is given a packet of 64 bytes of the device's LFSR
      stream under the PID whose turn it is. */
  lemma InCourse(c: Ctx)
    requires ValidCtx(c) && c.sending.Some? && c.hostSt == HS_STREAMIN && Service(c).Next?
    ensures var d, id := Service(c).c, (c.streamIn + 1) % c.nstreams;
      id < |c.streams| && id < |c.queues| && 1 + id < |c.epIn| &&
      var s, next := c.streams[id], c.epIn[1 + id];
      if UntilFrame(c) <= 800 then d == c.(hostSt := HS_NEXTFRAME)
      else if s.retrieve then d.hostSt == HS_WAIT_PKT && d.streamIn == id && d.queues == c.queues
        && d.streams == c.streams
      else if s.send && c.queues[id] == [] && Used(c) + c.lost < MAX_TRANSFERS then
        d == c.(streamIn := id, hostSt := HS_STREAMOUT,
                queues := c.queues[id := [Desc(DataBytes(next, LfsrSeq(s.tstLfsr, 64)), 0)]],
                epIn := c.epIn[1 + id := ToggleAdvance(next)],
                streams := c.streams[id := s.(tstLfsr := LfsrAt(s.tstLfsr, 64))])
      else d == c.(streamIn := id, hostSt := HS_STREAMOUT)
  {
    UntilIs(c);
    Bounds(c);
    Lengths(c);
    NextTurn(c.streamIn, c.nstreams);
    hide ValidCtx, UntilFrame, TimeLeft, NextId, LfsrAt, LfsrSeq, TokenBytes, DataBytes, ToggleAdvance, Used, InState;
  }
}
