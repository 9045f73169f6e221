/** From the streaming host to the wires: its replies are transfers the transmitter can send, and the monitor
    hears. */
module StreamWire {
  import opened BitSeq
  import opened Transfer
  import opened Streams
  import opened HostDriver
  import opened HostModel
  import opened HostRoundTrip
  import UsbMonitor
  import StreamMoves
  import LineCode

  /** A reply is two packets with valid PIDs: the OUT token and, behind it, the data packet. */
  lemma ReplySendable(x: Desc, s: Stream, id: nat, next: bv8, device: bv8)
    requires Kept(x, s.xfr) && id < MAX_STREAMS && IsToggle(next) && ReplyFits(x)
    ensures var r := Reply(x, s, id, next, device);
      && Sendable(r) && TwoPackets(r) && r.dataStart == 3
      && r.bytes[..3] == TokenBytes(PID_OUT, device, Ep(id) as bv8) && r.bytes[3..] == DataBytes(next, ReplyData(x, s))
      && r.bytes[0] == PID_OUT && r.bytes[3] == next && ValidPid(PID_OUT) && ValidPid(next)
  {
    hide Kept, ReplyData, Crc5Byte, TokenField, Bit;
    PidsValid();
  }

  lemma PidsValid()
    ensures ValidPid(PID_OUT) && ValidPid(PID_DATA0) && ValidPid(PID_DATA1)
  {}

  /** A reply handed to the driver with more than 800 bit intervals left in the frame is on the wire, bit for
      bit, before the next frame boundary; and the monitor calls back for its two packets exactly, unless the
      device combines a D- pull-up with RX_ENABLE. */
  lemma ReplyHeard(h: Host, ins: seq<In>, dnpu: bool, rx: bool, x: Desc, s: Stream, id: nat, next: bv8, device: bv8)
    requires Kept(x, s.xfr) && id < MAX_STREAMS && IsToggle(next) && ReplyFits(x)
      && h.sending == Reply(x, s, id, next, device)
    requires AboutToSend(h, dnpu) && Silent(ins, dnpu, rx) && Awake(h, |ins|) && |ins| == |Wave(h.sending)|
    requires h.frameStart <= h.tickBits && h.frameStart + FRAME_INTERVAL - h.tickBits > MIN_TIME_LEFT
    ensures var g := HostRun(h, ins);
      && g.0.tx.state == ST_IDLE && g.0.tickBits - g.0.frameStart < FRAME_INTERVAL
      && (g.1 == UsbMonitor.PacketEvents(TokenBytes(PID_OUT, device, Ep(id) as bv8))
                 + UsbMonitor.PacketEvents(DataBytes(next, ReplyData(x, s)))
          <==> !(dnpu && rx))
  {
    ReplySendable(x, s, id, next, device);
    TransferHeard(h, ins, dnpu, rx);
    OutFitsInFrame(h, ins, dnpu, rx);
    hide HostRun, Wave, Reply, ReplyData, TokenBytes, DataBytes, UsbMonitor.PacketEvents, Kept, AboutToSend, Silent,
      Awake;
  }

  lemma TwoPacketsLength(x: Desc)
    requires Sendable(x) && x.dataStart == 3 && TwoPackets(x)
    ensures |Wave(x)| + 138 <= |x.bytes| * 10 + 160
  {
    PacketLength(BytesBits(x.bytes[..3]), false);
    PacketLength(BytesBits(x.bytes[3..|x.bytes|]), true);
  }

  /** The host waits for the answer to an OUT packet for as long as it takes to send it, however many stuff bits that
      needs, and for 138 bit intervals more. */
  lemma AnswerHasTime(c: Ctx)
    requires ValidCtx(c) && ServeOut(c).Next? && c.hostSt != HS_WAITACK && ServeOut(c).c.hostSt == HS_WAITACK
    ensures var d := ServeOut(c).c;
      && d.sending.Some? && Sendable(d.sending.value) && d.wait < 0x1_0000_0000
        && d.tickBits == c.tickBits < 0x1_0000_0000
      && |Wave(d.sending.value)| + 138 <= Sub32(d.wait, d.tickBits)
  {
    hide *;
    StreamMoves.Bounds(c);
    StreamMoves.Lengths(c);
    OutWaits(c);
    var id, d := NextId(c.streamOut, c.nstreams), ServeOut(c).c;
    OutReplies(c);
    var x, s := c.queues[id][0], c.streams[id];
    ReplySendable(x, s, id, c.epOut[1 + id], c.devAddr);
    ReplyLength(d.sending.value);
    TwoPacketsLength(d.sending.value);
    WaitDistance(c.tickBits, |d.sending.value.bytes|, d.wait);
  }

  lemma ReplyLength(x: Desc)
    requires Sendable(x)
    ensures |x.bytes| <= 73
  {}

  /** Ten bit intervals a byte, and 160. */
  predicate WaitsFor(wait: nat, now: nat, n: nat) { wait == (now + n * 10 + 160) % TWO32 }

  /** It waits for the answer to a poll for as long as the device may take to begin, 18 bit intervals, and a whole data
      packet of 64 bytes behind SYNC takes without stuff bits. */
  lemma DataHasTime(c: Ctx, pid: bv8, data: seq<bv8>)
    requires ValidCtx(c) && c.sending.Some? && c.hostSt == HS_WAIT_PKT && |data| == 64
    ensures var n := 18 + |LineCode.SYNC| + |BytesBits(DataBytes(pid, data))|;
      Service(c) == Outcome.Next(c.(wait := (c.tickBits + n) % 0x1_0000_0000, hostSt := HS_ACKIFDATA))
  {
    hide BytesBits;
    assert |BytesBits(DataBytes(pid, data))| == 8 * 67;
  }

  lemma WaitDistance(now: nat, n: nat, wait: nat)
    requires now < 0x1_0000_0000 && n <= 73 && WaitsFor(wait, now, n)
    ensures wait < 0x1_0000_0000 && Sub32(wait, now) == n * 10 + 160
  {}

  lemma OutReplies(c: Ctx)
    requires ValidCtx(c) && ServeOut(c).Next? && c.hostSt != HS_WAITACK && ServeOut(c).c.hostSt == HS_WAITACK
    ensures var id, d := NextId(c.streamOut, c.nstreams), ServeOut(c).c;
      && id < MAX_STREAMS && |c.queues| == |c.streams| == MAX_STREAMS && 1 + id < |c.epOut|
      && c.queues[id] != [] && Kept(c.queues[id][0], c.streams[id].xfr) && ReplyFits(c.queues[id][0])
      && IsToggle(c.epOut[1 + id])
      && d.sending == Some(Reply(c.queues[id][0], c.streams[id], id, c.epOut[1 + id], c.devAddr))
  {
    StreamMoves.Lengths(c);
    StreamMoves.Bounds(c);
    var id := NextId(c.streamOut, c.nstreams);
    StreamMoves.StreamAt(c, id);
    StreamMoves.ToggleAt(c, id);
    hide ValidCtx, TimeLeft, Reply, LfsrAt, ReplyFits, Scrambled, OutState, IsToggle, Toggles, StreamsOk, NextId,
      Kept, Payload, StreamOk;
  }

  lemma OutWaits(c: Ctx)
    requires ValidCtx(c) && ServeOut(c).Next? && c.hostSt != HS_WAITACK && ServeOut(c).c.hostSt == HS_WAITACK
    ensures var d := ServeOut(c).c;
      && d.sending.Some? && WaitsFor(d.wait, c.tickBits, |d.sending.value.bytes|)
      && d.tickBits == c.tickBits < 0x1_0000_0000
  {
    StreamMoves.Lengths(c);
    StreamMoves.Bounds(c);
    var id := NextId(c.streamOut, c.nstreams);
    StreamMoves.StreamAt(c, id);
    var s, q := c.streams[id], c.queues[id];
    hide ValidCtx, TimeLeft, Reply, LfsrAt, ReplyFits, Scrambled, NextId, Kept, Payload, Replying, StreamsOk,
      WaitsFor;
    assert q != [] && s.send && s.xfr != Control;
    var t := s.(rewindLfsr := s.dpiLfsr, dpiLfsr := LfsrAt(s.dpiLfsr, Scrambled(q[0], s)));
    var reply := Reply(q[0], s, id, c.epOut[1 + id], c.devAddr);
    assert ServeOut(c) == Outcome.Next(Replying(c, id, t, reply));
    ReplyingWaits(c, id, t, reply);
  }

  lemma ReplyingWaits(c: Ctx, id: nat, s: Stream, reply: Desc)
    requires id < |c.streams| && s.xfr != Control
    ensures var d := Replying(c, id, s, reply);
      d.sending == Some(reply) && WaitsFor(d.wait, c.tickBits, |reply.bytes|) && d.tickBits == c.tickBits
  {
    hide OutState;
  }
}
