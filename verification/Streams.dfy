/** The streaming host (usbdpi_stream.c) over the values its descriptors hold: what each packet
    operation computes, and what one call of streams_service does. */
module Streams {
  import opened CrcRoutines
  import opened Transfer
  import opened Seqs

  datatype Option<T> = None | Some(value: T)

  // ---- The LFSR streams ----------------------------------------------------------------------------

  function Lfsr(x: bv8): bv8 {
    (x << 1) ^ (((x >> 1) ^ (x >> 2) ^ (x >> 3) ^ (x >> 7)) & 1)
  }

  function LfsrAt(x: bv8, n: nat): bv8 {
    if n == 0 then x else Lfsr(LfsrAt(x, n - 1))
  }

  lemma {:induction false} LfsrAdd(x: bv8, m: nat, n: nat)
    ensures LfsrAt(LfsrAt(x, m), n) == LfsrAt(x, m + n)
    decreases n
  {
    hide Lfsr;
    if n > 0 {
      LfsrAdd(x, m, n - 1);
    }
  }

  function LfsrSeq(x: bv8, n: nat): (r: seq<bv8>)
    ensures |r| == n && forall i :: 0 <= i < n ==> r[i] == LfsrAt(x, i)
  {
    seq(n, i requires 0 <= i < n => LfsrAt(x, i))
  }

  lemma LfsrSeqConcat(x: bv8, m: nat, n: nat)
    ensures LfsrSeq(x, m + n) == LfsrSeq(x, m) + LfsrSeq(LfsrAt(x, m), n)
  {
    hide LfsrAt;
    forall i | 0 <= i < n
      ensures LfsrAt(x, m + i) == LfsrAt(LfsrAt(x, m), i)
    {
      LfsrAdd(x, m, i);
    }
  }

  /** Data combined with the stream that starts at x. */
  function Scramble(data: seq<bv8>, x: bv8): (r: seq<bv8>)
    ensures |r| == |data| && forall i :: 0 <= i < |data| ==> r[i] == data[i] ^ LfsrAt(x, i)
  {
    seq(|data|, i requires 0 <= i < |data| => data[i] ^ LfsrAt(x, i))
  }

  lemma ScrambleConcat(a: seq<bv8>, b: seq<bv8>, x: bv8)
    ensures Scramble(a + b, x) == Scramble(a, x) + Scramble(b, LfsrAt(x, |a|))
  {
    hide *;
    var l, r := Scramble(a + b, x), Scramble(a, x) + Scramble(b, LfsrAt(x, |a|));
    forall i | 0 <= i < |a| + |b|
      ensures l[i] == r[i]
    {
      if i >= |a| {
        LfsrAdd(x, |a|, i - |a|);
      }
    }
  }

  function TstSeed(id: nat): bv8 requires id < 15 { (0x10 + id * 7) as bv8 }
  function DpiSeed(id: nat): bv8 requires id < 15 { (0x9B - id * 7) as bv8 }
  function RetrySeed(id: nat): bv8 requires id < 15 { (0x24 + id * 7) as bv8 }

  // ---- State -----------------------------------------------------------------------------------------

  const MAX_STREAMS: nat := 15
  const MAX_ENDPOINTS: nat := 16
  const MAX_TRANSFERS: nat := 32
  const SIGNATURE: nat := 16

  datatype XfrType = Control | Isochronous | Bulk | Interrupt

  datatype HostSt = HS_STARTFRAME | HS_WAITACK | HS_WAIT_PKT | HS_ACKIFDATA
                  | HS_STREAMOUT | HS_STREAMIN | HS_NEXTFRAME | HS_ERROR

  datatype BusState = OtherBus | IsoOut | IsoInToken | IsoInData
                    | BulkOut | BulkOutAck | BulkInToken | BulkInData
                    | InterruptOut | InterruptOutAck | InterruptInToken | InterruptInData

  /** A stream without its list of received packets. */
  datatype Stream = Stream(retrieve: bool, send: bool, retrying: bool, checking: bool, sigExpected: bool, xfr: XfrType,
                           tstSeq: nat, tstLfsr: bv8, dpiLfsr: bv8, rewindLfsr: bv8, retryLfsr: bv8, nretries: nat)

  /** Both endpoints of a stream. */
  function Ep(id: nat): nat { 1 + id }

  /** The streaming part of the context; `queues` are the received packets, oldest first, and `lost` counts
      the descriptors that streams_init has forgotten. */
  datatype Ctx = Ctx(hostSt: HostSt, busState: BusState, lastPid: bv8, nstreams: nat, streamIn: nat, streamOut: nat,
                     streams: seq<Stream>, queues: seq<seq<Desc>>, epIn: seq<bv8>, epOut: seq<bv8>,
                     sending: Option<Desc>, recving: Option<Desc>, transmitting: bool,
                     tickBits: nat, frameStart: nat, wait: nat, devAddr: bv8, lost: nat)

  predicate IsToggle(pid: bv8) { pid == PID_DATA0 || pid == PID_DATA1 }

  /** A received packet as the reception callback leaves it: at least its PID, and a data stage at 0 or
      none. */
  predicate RxShape(x: Desc) {
    1 <= |x.bytes| <= MAX_DATA && (x.dataStart == 0 || x.dataStart == NO_DATA_STAGE)
  }

  /** A packet kept for the reply: PID, data field and CRC, with room to build the reply's header. */
  predicate Kept(x: Desc, t: XfrType) {
    x.dataStart == 0 && 3 <= |x.bytes| < MAX_DATA && (t == Isochronous ==> |x.bytes| >= 3 + SIGNATURE)
  }

  predicate KeptAll(q: seq<Desc>, t: XfrType) {
    forall k :: 0 <= k < |q| ==> Kept(q[k], t)
  }

  predicate Toggles(e: seq<bv8>) {
    |e| == MAX_ENDPOINTS && forall i :: 0 <= i < MAX_ENDPOINTS ==> IsToggle(e[i])
  }

  predicate StreamOk(s: Stream, q: seq<Desc>) {
    KeptAll(q, s.xfr) && (s.xfr == Isochronous ==> s.sigExpected)
  }

  predicate StreamsOk(streams: seq<Stream>, queues: seq<seq<Desc>>) {
    |streams| == MAX_STREAMS && |queues| == MAX_STREAMS
      && forall i :: 0 <= i < MAX_STREAMS ==> StreamOk(streams[i], queues[i])
  }

  predicate ValidCtx(c: Ctx) {
    && 1 <= c.nstreams <= MAX_STREAMS && c.streamIn < c.nstreams && c.streamOut < c.nstreams
    && Toggles(c.epIn) && Toggles(c.epOut) && StreamsOk(c.streams, c.queues)
    && (c.recving.Some? ==> RxShape(c.recving.value))
    && (c.hostSt == HS_WAIT_PKT || c.hostSt == HS_ACKIFDATA ==> c.streams[c.streamIn].retrieve)
    && c.tickBits < TWO32 && c.frameStart < TWO32 && c.devAddr < 0x80
  }

  // ---- Packet operations -----------------------------------------------------------------------------

  /** The data field of a received packet. */
  function Payload(x: Desc): seq<bv8>
    requires x.dataStart == 0 && |x.bytes| >= 3
  {
    x.bytes[1..|x.bytes| - 2]
  }

  /** stream_data_check: the verdict, and the endpoint's next toggle and the stream's next LFSR; or
      Undefined where the C code computes a data length below zero. */
  datatype Checked = Undefined | Checked(ok: bool, next: bv8, tst: bv8)

  function CheckData(x: Desc, s: Stream, next: bv8, offset: nat, accept: bool): Checked
    requires RxShape(x)
  {
    if |x.bytes| >= MAX_DATA || x.dataStart + 2 + offset > |x.bytes| then Checked(false, next, s.tstLfsr)
    else if |x.bytes| < 3 then Undefined
    else
      var data := Payload(x);
      if x.bytes[|x.bytes| - 2..] != Crc16Bytes(data) then Checked(false, next, s.tstLfsr)
      else
        var inTurn := x.bytes[0] == next;
        var next' := if inTurn && accept then ToggleAdvance(next) else next;
        if !s.checking then Checked(inTurn && accept, next', s.tstLfsr)
        else if |data| < offset then Undefined
        else
          var ok := inTurn && accept && data[offset..] == LfsrSeq(s.tstLfsr, |data| - offset);
          Checked(ok, next', if ok then LfsrAt(s.tstLfsr, |data| - offset) else s.tstLfsr)
  }

  datatype SigChecked = SigChecked(ok: bool, seqNo: nat, tst: bv8, next: bv8)

  const SIG_HEAD: seq<bv8> := [0x1A, 0xA0, 0x9E, 0x57]
  const SIG_TAIL: seq<bv8> := [0x75, 0xE9, 0x0A, 0x16]

  /** The sixteen bytes of a stream signature; the length field is positive and below 0x10000000. */
  predicate WellSigned(sig: seq<bv8>)
    requires |sig| >= SIGNATURE
  {
    sig[..4] == SIG_HEAD && sig[12..16] == SIG_TAIL && sig[8..12] != [0, 0, 0, 0] && sig[11] < 0x10
  }

  function SeqNo(sig: seq<bv8>): nat
    requires |sig| >= SIGNATURE
  {
    (sig[6] as int) + 256 * (sig[7] as int)
  }

  /** stream_sig_check. */
  function CheckSig(x: Desc, s: Stream, next: bv8): SigChecked
    requires RxShape(x)
  {
    var len, iso := |x.bytes|, s.xfr == Isochronous;
    var failed := SigChecked(false, s.tstSeq, s.tstLfsr, next);
    if (if iso then len < 3 + SIGNATURE else len != 3 + SIGNATURE) || x.dataStart != 0 then failed
    else
      var sig := x.bytes[1..];
      if !WellSigned(sig) then failed
      else if iso then
        if SeqNo(sig) < s.tstSeq then failed
        else SigChecked(true, (SeqNo(sig) + 1) % 0x1_0000, sig[4], PID_DATA0)
      else if SeqNo(sig) != s.tstSeq then failed
      else SigChecked(true, (s.tstSeq + 1) % 0x1_0000, sig[4], ToggleAdvance(x.bytes[0]))
  }

  /** stream_data_gen: a packet as the device would have sent it. */
  function Generated(s: Stream, next: bv8, len: nat): Desc {
    Desc(DataBytes(next, LfsrSeq(s.tstLfsr, len)), 0)
  }

  /** The data field of the reply to a kept packet. */
  function ReplyData(x: Desc, s: Stream): (r: seq<bv8>)
    requires Kept(x, s.xfr)
    ensures |r| == |Payload(x)|
  {
    var data := Payload(x);
    if s.xfr == Isochronous then
      data[..4] + [s.dpiLfsr] + data[5..SIGNATURE] + Scramble(data[SIGNATURE..], s.dpiLfsr)
    else Scramble(data, s.dpiLfsr)
  }

  /** How many bytes of the reply use up the LFSR. */
  function Scrambled(x: Desc, s: Stream): nat
    requires Kept(x, s.xfr)
  {
    if s.xfr == Isochronous then |Payload(x)| - SIGNATURE else |Payload(x)|
  }

  /** stream_data_process builds the reply in a 73-byte buffer and asserts room for its CRC. */
  predicate ReplyFits(x: Desc)
    requires x.dataStart == 0 && |x.bytes| >= 3
  {
    4 + |Payload(x)| < MAX_DATA - 2
  }

  function Reply(x: Desc, s: Stream, id: nat, next: bv8, device: bv8): (r: Desc)
    requires Kept(x, s.xfr) && id < MAX_STREAMS
  {
    Desc(TokenBytes(PID_OUT, device, Ep(id) as bv8) + DataBytes(next, ReplyData(x, s)), 3)
  }

  // ---- streams_service -------------------------------------------------------------------------------

  /** Either an assertion of the C code fails (or its behaviour is undefined), or the call returns. */
  datatype Outcome = Fault | Next(c: Ctx)

  function NextId(id: nat, nstreams: nat): (r: nat)
    requires 1 <= nstreams && id < nstreams
    ensures r < nstreams
  {
    if id + 1 >= nstreams then 0 else id + 1
  }

  /** Bit intervals to the frame boundary, in unsigned 32-bit arithmetic. */
  function TimeLeft(c: Ctx): nat
    requires ValidCtx(c)
  {
    (c.frameStart + FRAME_INTERVAL - c.tickBits) % TWO32
  }

  function OutState(t: XfrType): BusState
    requires t != Control
  {
    match t
    case Interrupt => InterruptOut
    case Bulk => BulkOut
    case Isochronous => IsoOut
  }

  function InState(t: XfrType): BusState
    requires t != Control
  {
    match t
    case Interrupt => InterruptInToken
    case Bulk => BulkInToken
    case Isochronous => IsoInToken
  }

  function DataState(t: XfrType): BusState
    requires t != Control
  {
    match t
    case Interrupt => InterruptInData
    case Bulk => BulkInData
    case Isochronous => IsoInData
  }

  /** HS_STARTFRAME and HS_STREAMOUT. */
  function ServeOut(c: Ctx): Outcome
    requires ValidCtx(c)
  {
    if TimeLeft(c) <= MIN_TIME_LEFT then Next(c.(hostSt := HS_NEXTFRAME))
    else
      var id := NextId(c.streamOut, c.nstreams);
      var s, q := c.streams[id], c.queues[id];
      if !s.send then Next(c.(streamOut := id, hostSt := HS_STREAMIN, queues := c.queues[id := []]))
      else if q == [] then Next(c.(streamOut := id, hostSt := HS_STREAMIN))
      else if !ReplyFits(q[0]) || s.xfr == Control then Fault
      else
        Next(Replying(c, id, s.(rewindLfsr := s.dpiLfsr, dpiLfsr := LfsrAt(s.dpiLfsr, Scrambled(q[0], s))),
                      Reply(q[0], s, id, c.epOut[Ep(id)], c.devAddr)))
  }

  /** The OUT token and its data packet are handed to the driver. */
  function Replying(c: Ctx, id: nat, s: Stream, reply: Desc): Ctx
    requires id < |c.streams| && s.xfr != Control
  {
    c.(streamOut := id, streams := c.streams[id := s], sending := Some(reply), transmitting := true,
      busState := OutState(s.xfr),
       wait := (c.tickBits + |reply.bytes| * 10 + 160) % TWO32, lastPid := 0, hostSt := HS_WAITACK)
  }

  datatype Answer = Accepted | Refused | Pending | Wrong

  /** What became of the packet just sent: isochronous packets are not answered. */
  function AnswerTo(t: XfrType, bus: BusState, pid: bv8, late: bool): Answer
    requires t != Control
  {
    if t == Isochronous then if bus == IsoOut then Accepted else Wrong
    else if bus == (if t == Bulk then BulkOutAck else InterruptOutAck) then
      if pid == PID_ACK then Accepted else if pid == PID_NAK then Refused else Wrong
    else if late then Wrong
    else Pending
  }

  /** HS_WAITACK. */
  function ServeAck(c: Ctx): Outcome
    requires ValidCtx(c)
  {
    var id := c.streamOut;
    var s := c.streams[id];
    if s.xfr == Control then Fault
    else
      match AnswerTo(s.xfr, c.busState, c.lastPid, c.tickBits >= c.wait)
      case Accepted => Retire(c.(sending := None))
      case Refused => Next(c.(sending := None, streams := c.streams[id := s.(dpiLfsr := s.rewindLfsr)],
        hostSt := HS_STREAMIN))
      case Pending => Next(c.(sending := None, hostSt := HS_WAITACK))
      case Wrong => Next(c.(sending := None, hostSt := HS_ERROR))
  }

  /** The packet was accepted: the oldest received one is done with. */
  function Retire(c: Ctx): Outcome
    requires ValidCtx(c)
  {
    var id := c.streamOut;
    if c.queues[id] == [] then Fault
    else
      Next(c.(queues := c.queues[id := c.queues[id][1..]], hostSt := HS_STREAMIN,
              epOut := if c.streams[id].xfr == Isochronous then c.epOut
                       else c.epOut[Ep(id) := ToggleAdvance(c.epOut[Ep(id)])]))
  }

  /** Descriptors in use. */
  function Used(c: Ctx): nat {
    (if c.sending.Some? then 1 else 0) + (if c.recving.Some? then 1 else 0) + Total(c.queues)
  }

  const GEN_LENGTH: nat := 64

  /** HS_STREAMIN. */
  function ServeIn(c: Ctx): Outcome
    requires ValidCtx(c)
  {
    if TimeLeft(c) <= MIN_TIME_LEFT then Next(c.(hostSt := HS_NEXTFRAME))
    else
      var id := NextId(c.streamIn, c.nstreams);
      var s, c1 := c.streams[id], c.(streamIn := id);
      if s.retrieve then
        if s.xfr == Control then Fault
        else Next(c1.(sending := Some(Desc(TokenBytes(PID_IN, c.devAddr, Ep(id) as bv8), NO_DATA_STAGE)),
                      transmitting := true, busState := InState(s.xfr), hostSt := HS_WAIT_PKT, lastPid := 0))
      else if s.send && c.queues[id] == [] && Used(c) + c.lost < MAX_TRANSFERS then
        var x := Generated(s, c.epIn[Ep(id)], GEN_LENGTH);
        Next(c1.(queues := c.queues[id := [x]], epIn := c.epIn[Ep(id) := ToggleAdvance(c.epIn[Ep(id)])],
                 streams := c.streams[id := s.(tstLfsr := LfsrAt(s.tstLfsr, GEN_LENGTH))], hostSt := HS_STREAMOUT))
      else Next(c1.(hostSt := HS_STREAMOUT))
  }

  /** How often the next data packet of a stream will be refused, from the retry LFSR. */
  function Retries(x: bv8): (n: nat)
    ensures n <= 3
  {
    if x & 7 == 7 then 3 else if x & 7 == 6 || x & 7 == 5 then 2 else if x & 7 == 4 then 1 else 0
  }

  predicate Answered(c: Ctx, t: XfrType) {
    t != Control && c.recving.Some? && c.busState == DataState(t)
  }

  /** Where the host goes when there is no data packet. */
  function WithoutData(c: Ctx, t: XfrType): HostSt {
    if t == Control then HS_ERROR
    else if !Answered(c, t) then if c.tickBits >= c.wait then HS_ERROR else c.hostSt
    else if c.lastPid != PID_NAK then HS_NEXTFRAME
    else if t == Isochronous then HS_ERROR
    else HS_STREAMOUT
  }

  /** HS_ACKIFDATA. */
  function ServeReply(c: Ctx): Outcome
    requires ValidCtx(c)
  {
    var t := c.streams[c.streamIn].xfr;
    if Answered(c, t) && IsToggle(c.lastPid) then TakeData(c.(recving := None), c.recving.value)
    else Next(c.(hostSt := WithoutData(c, t)))
  }

  /** The decision before the packet is looked at: isochronous packets need data, others may be
      refused on purpose. */
  predicate Willing(s: Stream, x: Desc) {
    if s.xfr == Isochronous then |x.bytes| > 3 else !(s.retrying && s.nretries > 0)
  }

  /** One refusal fewer to make, or a new number of them drawn for the next packet. */
  function Redrawn(s: Stream): Stream {
    var refused := s.retrying && s.nretries > 0;
    s.(nretries := if refused then s.nretries - 1 else Retries(s.retryLfsr),
       retryLfsr := if refused then s.retryLfsr else Lfsr(s.retryLfsr))
  }

  /** The stream with the decision counted. */
  function Counted(s: Stream): Stream {
    if s.xfr == Isochronous then s else Redrawn(s)
  }

  /** What is made of a packet the host is willing to take. */
  datatype Taken = Broken | Taken(accept: bool, keep: bool, s: Stream, next: bv8)

  function Examine(x: Desc, s: Stream, next: bv8): Taken
    requires RxShape(x)
  {
    if !s.sigExpected then Contents(x, s, next, 0, true)
    else
      var g := CheckSig(x, s, next);
      var s1 := s.(tstSeq := g.seqNo, tstLfsr := g.tst);
      if !g.ok then Contents(x, s1, g.next, 0, false)
      else if s.xfr != Isochronous then Taken(true, false, s1, g.next)
      else Contents(x, s1, g.next, SIGNATURE, true)
  }

  function Contents(x: Desc, s: Stream, next: bv8, offset: nat, accept: bool): Taken
    requires RxShape(x)
  {
    if offset >= |x.bytes| then Taken(accept, accept, s, next)
    else
      match CheckData(x, s, next, offset, accept)
      case Undefined => Broken
      case Checked(ok, next', tst) => Taken(accept && ok, accept && ok, s.(tstLfsr := tst), next')
  }

  /** What a stream makes of packet x. */
  function Verdict(s: Stream, x: Desc, next: bv8): Taken
    requires RxShape(x)
  {
    if Willing(s, x) then Examine(x, Counted(s), next) else Taken(false, false, Counted(s), next)
  }

  function Decide(c: Ctx, x: Desc): Taken
    requires ValidCtx(c) && RxShape(x)
  {
    Verdict(c.streams[c.streamIn], x, c.epIn[Ep(c.streamIn)])
  }

  /** The packet is kept or dropped, and the stream and its endpoint's toggle are brought up to date. */
  function Collected(c: Ctx, x: Desc, keep: bool, s: Stream, next: bv8): Ctx
    requires ValidCtx(c)
  {
    var id := c.streamIn;
    c.(queues := if keep then c.queues[id := c.queues[id] + [x]] else c.queues, epIn := c.epIn[Ep(id) := next],
       streams := c.streams[id := s], hostSt := HS_STREAMOUT)
  }

  /** A status packet, for all but isochronous streams. */
  function Status(accept: bool): Desc {
    Desc([if accept then PID_ACK else PID_NAK], NO_DATA_STAGE)
  }

  function TakeData(c: Ctx, x: Desc): Outcome
    requires ValidCtx(c) && RxShape(x)
  {
    match Decide(c, x)
    case Broken => Fault
    case Taken(accept, keep, s, next) =>
      if s.xfr == Isochronous then Next(Collected(c, x, keep, s, next))
      else if c.sending.None? then Fault
      else
        Next(Collected(c, x, keep, s.(sigExpected := s.sigExpected && !accept), next)
               .(sending := Some(Status(accept)), transmitting := true))
  }

  /** streams_service, called by the idle arm: nothing is being sent or received, and a descriptor for
      the next transfer is at hand. */
  function Service(c: Ctx): Outcome
    requires ValidCtx(c) && c.sending.Some?
  {
    match c.hostSt
    case HS_STARTFRAME => ServeOut(c)
    case HS_STREAMOUT => ServeOut(c)
    case HS_WAITACK => ServeAck(c)
    case HS_STREAMIN => ServeIn(c)
    case HS_WAIT_PKT => Next(c.(wait := (c.tickBits + 18 + 8 + 8 + 64 * 8 + 16) % TWO32, hostSt := HS_ACKIFDATA))
    case HS_ACKIFDATA => ServeReply(c)
    case HS_ERROR => Fault
    case HS_NEXTFRAME => Next(c)
  }
}
