/** usbdpi_stream.c over the descriptor pool: the streaming host as it runs, in place. */
module StreamHost {
  import opened CrcRoutines
  import opened Transfer
  import opened Streams
  import opened StreamPackets
  import opened PoolLinks
  import opened TransferPool
  import opened Seqs
  import opened StreamLaws
  import opened StreamMoves
  import opened StreamRuns
  import UsbMonitor
  import Reception

  // ---- Loops over packet data ------------------------------------------------------------------------

  lemma LfsrNext(x: bv8, n: nat)
    ensures LfsrAt(x, n + 1) == Lfsr(LfsrAt(x, n)) && LfsrAt(x, 0) == x
  {
    hide Lfsr;
  }

  lemma ScrambleNext(data: seq<bv8>, x: bv8, i: nat)
    requires i < |data|
    ensures Scramble(data[..i + 1], x) == Scramble(data[..i], x) + [data[i] ^ LfsrAt(x, i)]
    ensures Scramble(data[..0], x) == []
  {
    hide LfsrAt, Scramble;
    Slices(data, i);
    assert Scramble(data[..i + 1], x)[i] == data[i] ^ LfsrAt(x, i);
    ScramblePrefix(data, x, i);
  }

  lemma ScramblePrefix(data: seq<bv8>, x: bv8, i: nat)
    requires i < |data|
    ensures Scramble(data[..i + 1], x)[..i] == Scramble(data[..i], x)
  {
    hide LfsrAt;
  }

  lemma LfsrSeqNext(x: bv8, i: nat)
    ensures LfsrSeq(x, i + 1) == LfsrSeq(x, i) + [LfsrAt(x, i)] && LfsrSeq(x, 0) == []
  {
    hide LfsrAt;
  }

  /** stream_data_process combines the received bytes with the host's LFSR. */
  method Combine(data: seq<bv8>, start: bv8) returns (out: seq<bv8>, lfsr: bv8)
    ensures out == Scramble(data, start) && lfsr == LfsrAt(start, |data|)
  {
    hide *;
    out, lfsr := [], start;
    var i := 0;
    LfsrNext(start, 0);
    assert data[..0] == [] && data[..|data|] == data && |Scramble([], start)| == 0;
    while i < |data|
      invariant 0 <= i <= |data| && lfsr == LfsrAt(start, i) && out == Scramble(data[..i], start)
    {
      ScrambleNext(data, start, i);
      LfsrNext(start, i);
      out := out + [data[i] ^ lfsr];
      lfsr := Lfsr(lfsr);
      i := i + 1;
    }
  }

  /** stream_data_gen writes the device's bytes. */
  method Generate(start: bv8, len: nat) returns (out: seq<bv8>, lfsr: bv8)
    ensures out == LfsrSeq(start, len) && lfsr == LfsrAt(start, len)
  {
    hide *;
    out, lfsr := [], start;
    var i := 0;
    LfsrNext(start, 0);
    LfsrSeqNext(start, 0);
    while i < len
      invariant 0 <= i <= len && lfsr == LfsrAt(start, i) && out == LfsrSeq(start, i)
    {
      LfsrSeqNext(start, i);
      LfsrNext(start, i);
      out := out + [lfsr];
      lfsr := Lfsr(lfsr);
      i := i + 1;
    }
  }

  /** stream_data_check compares every byte, and runs to the end even after a mismatch. */
  method Compare(data: seq<bv8>, start: bv8) returns (ok: bool, lfsr: bv8)
    ensures ok == (data == LfsrSeq(start, |data|)) && lfsr == LfsrAt(start, |data|)
  {
    hide *;
    ok, lfsr := true, start;
    var i := 0;
    LfsrNext(start, 0);
    LfsrSeqNext(start, 0);
    assert data[..0] == [] && data[..|data|] == data;
    while i < |data|
      invariant 0 <= i <= |data| && lfsr == LfsrAt(start, i) && ok == (data[..i] == LfsrSeq(start, i))
    {
      LfsrSeqNext(start, i);
      LfsrNext(start, i);
      Extended(data, LfsrSeq(start, i), lfsr, i);
      if data[i] != lfsr {
        ok := false;
      }
      lfsr := Lfsr(lfsr);
      i := i + 1;
    }
  }

  lemma Extended<T>(data: seq<T>, p: seq<T>, x: T, i: nat)
    requires i < |data| && |p| == i
    ensures data[..i + 1] == p + [x] <==> data[..i] == p && data[i] == x
  {
    Slices(data, i);
    if data[..i + 1] == p + [x] {
      assert (p + [x])[..i] == p && data[..i + 1][..i] == data[..i] && data[..i + 1][i] == data[i];
    }
  }

  function First<T>(q: seq<T>): Option<T> { if q == [] then None else Some(q[0]) }

  /** The slots behind the received lists. */
  function Queues(slots: seq<seq<Desc>>): seq<seq<Desc>>
    requires |slots| == SLOTS
  {
    slots[4..]
  }

  lemma QueuesSet(slots: seq<seq<Desc>>, s: nat, q: seq<Desc>)
    requires |slots| == SLOTS && s < SLOTS
    ensures Queues(slots[s := q]) == if s < 4 then Queues(slots) else Queues(slots)[s - 4 := q]
  {}

  // ---- The host --------------------------------------------------------------------------------------

  class Host {
    const pool: Pool
    var hostSt: HostSt
    var busState: BusState
    var lastPid: bv8
    var nstreams: nat
    var streamIn: nat
    var streamOut: nat
    var streams: seq<Stream>
    /** ep_in[].next_data and ep_out[].next_data */
    var epIn: seq<bv8>
    var epOut: seq<bv8>
    /** The driver is in one of the states SYNC, SEND, EOP0, EOP. */
    var transmitting: bool
    var tickBits: nat
    var frameStart: nat
    var wait: nat
    var devAddr: bv8

    /** The values behind the pointers. */
    ghost function View(): Ctx
      requires pool.Valid()
      reads this, pool, pool.next, pool.desc
    {
      var slots := pool.Slots();
      Ctx(hostSt, busState, lastPid, nstreams, streamIn, streamOut, streams, Queues(slots), epIn, epOut,
          First(slots[SENDING]), First(slots[RECVING]), transmitting, tickBits, frameStart, wait, devAddr, pool.lost)
    }

    lemma Fields()
      requires pool.Valid()
      ensures var v, slots := View(), pool.Slots();
        && v.hostSt == hostSt && v.busState == busState && v.lastPid == lastPid && v.nstreams == nstreams
        && v.streamIn == streamIn && v.streamOut == streamOut && v.streams == streams && v.queues == Queues(slots)
        && v.epIn == epIn && v.epOut == epOut && v.sending == First(slots[SENDING])
          && v.recving == First(slots[RECVING])
        && v.transmitting == transmitting && v.tickBits == tickBits && v.frameStart == frameStart && v.wait == wait
        && v.devAddr == devAddr && v.lost == pool.lost
    {}

    lemma Queue(id: nat)
      requires pool.Valid() && id < MAX_STREAMS
      ensures |View().queues| == MAX_STREAMS && View().queues[id] == pool.Slots()[RECEIVED(id)]
    {}

    /** The pool is whole, the context is well formed, and whatever is being sent is owned by `sending`. */
    ghost predicate Valid()
      reads this, pool, pool.next, pool.desc
    {
      pool.Valid() && pool.held == NULL && ValidCtx(View()) && (transmitting ==> pool.sending != NULL)
    }

    /** usbdpi_create: a zeroed context after bus_reset, and a free pool. */
    constructor ()
      ensures fresh(pool) && fresh(pool.next) && fresh(pool.desc)
      ensures pool.Valid() && pool.held == NULL && pool.lost == 0 && Settled(View()) && hostSt == HS_NEXTFRAME
        && !transmitting
      ensures Used(View()) == 0
    {
      pool := new Pool.Setup();
      hostSt, busState, lastPid := HS_NEXTFRAME, OtherBus, 0;
      nstreams, streamIn, streamOut := 0, 0, 0;
      streams := seq(MAX_STREAMS, _ => Stream(false, false, false, false, false, Control, 0, 0, 0, 0, 0, 0));
      epIn, epOut := seq(MAX_ENDPOINTS, _ => PID_DATA0), seq(MAX_ENDPOINTS, _ => PID_DATA0);
      transmitting, tickBits, frameStart, wait, devAddr := false, 0, 0, 0, 0;
      new;
      pool.Behind(HELD, pool.held);
      NoneIn(View().queues);
    }

    method OutStreamNext() returns (id: nat)
      requires 1 <= nstreams && streamOut < nstreams
      modifies this`streamOut
      ensures id == streamOut == NextId(old(streamOut), nstreams)
    {
      id := streamOut + 1;
      if id >= nstreams {
        id := 0;
      }
      streamOut := id;
    }

    method InStreamNext() returns (id: nat)
      requires 1 <= nstreams && streamIn < nstreams
      modifies this`streamIn
      ensures id == streamIn == NextId(old(streamIn), nstreams)
    {
      id := streamIn + 1;
      if id >= nstreams {
        id := 0;
      }
      streamIn := id;
    }

    /** transfer_send, whose assertion is the precondition on `sending`: no buffer is lost. */
    method TransferSend(x: Ptr)
      requires pool.Valid() && x != NULL && (pool.sending == NULL || pool.sending == x)
      requires if pool.sending == NULL then pool.Holding(x) else pool.held == NULL
      requires 1 <= |pool.desc[x].bytes| <= MAX_DATA
      modifies this`transmitting, pool`sending, pool`held, pool`g
      ensures pool.Valid() && pool.held == NULL && pool.sending == x && transmitting
      ensures var b := old(pool.Slots());
        pool.Slots() == if old(pool.sending) == NULL then b[HELD := []][SENDING := b[HELD]] else b
    {
      if pool.sending == NULL {
        pool.PutSending(x);
      }
      transmitting := true;
    }

    /** The reply's token and data PID, in a descriptor of its own. */
    method OpenReply(id: nat, size: nat) returns (reply: Ptr)
      requires pool.Valid() && pool.held == NULL && pool.Slots()[FREE] != []
      requires id < MAX_STREAMS && |epOut| == MAX_ENDPOINTS && IsToggle(epOut[Ep(id)]) && devAddr < 0x80
        && size < MAX_DATA - 3
      modifies pool`free, pool`held, pool`g, pool.next, pool.desc
      ensures pool.Valid() && pool.Holding(reply) && OnlyHeld(old(pool.Slots()), pool.Slots())
      ensures pool.Slots()[HELD] == [Desc(TokenBytes(PID_OUT, devAddr, Ep(id) as bv8) + [epOut[Ep(id)]], 3)]
    {
      hide TokenBytes;
      pool.Behind(HELD, pool.held);
      reply := pool.Alloc();
      var endpoint := Ep(id) as bv8;
      EndpointSmall(id);
      pool.Token(reply, HELD, PID_OUT, devAddr, endpoint);
      pool.Behind(HELD, pool.held);
      var ok := pool.DataStart(reply, HELD, epOut[Ep(id)], size);
      assert ok;
    }

    /** stream_data_process: the reply to the oldest received packet; false where the C code asserts. */
    method StreamDataProcess(id: nat) returns (ok: bool, reply: Ptr)
      requires pool.Valid() && pool.held == NULL && pool.Slots()[FREE] != []
      requires id < MAX_STREAMS && |streams| == MAX_STREAMS && |epOut| == MAX_ENDPOINTS && IsToggle(epOut[Ep(id)])
        && devAddr < 0x80
      requires pool.received[id] != NULL && pool.Slots()[RECEIVED(id)] != []
      requires Kept(pool.Slots()[RECEIVED(id)][0], streams[id].xfr)
      modifies this`streams, pool`free, pool`held, pool`g, pool.next, pool.desc
      ensures pool.Valid() && OnlyHeld(old(pool.Slots()), pool.Slots())
      ensures var x, s := old(pool.Slots())[RECEIVED(id)][0], old(streams[id]);
        && ok == ReplyFits(x)
        && (ok ==> pool.Holding(reply) && pool.Slots()[HELD] == [Reply(x, s, id, epOut[Ep(id)], devAddr)]
                   && streams == old(streams)[id := s.(rewindLfsr := s.dpiLfsr, dpiLfsr := LfsrAt(s.dpiLfsr,
                     Scrambled(x, s)))])
    {
      var s := streams[id];
      pool.Oldest(id);
      var x := pool.desc[pool.received[id]];
      KeptShort(x, s.xfr);
      hide Kept, TokenBytes, LfsrAt, Scramble, ReplyData, Payload, Scrambled, OnlyHeld;
      reply := OpenReply(id, |x.bytes| - 3);
      var out, lfsr := Scrambles(x, s);
      streams := streams[id := s.(rewindLfsr := s.dpiLfsr, dpiLfsr := lfsr)];
      ok := 4 + |out| < MAX_DATA - 2;
      if ok {
        label before:
        pool.Behind(HELD, pool.held);
        pool.DataEnd(reply, HELD, out);
        OnlyHeldSet(old(pool.Slots()), old@before(pool.Slots()), pool.Slots()[HELD]);
        ReplyBytes(x, s, id, epOut[Ep(id)], devAddr);
      }
    }

    /** streams_init. Lists that still hold packets are dropped, and their descriptors are lost. */
    method StreamsInit(n: nat, types: seq<XfrType>, u: Setup) returns (ok: bool)
      requires pool.Valid() && pool.held == NULL && Settled(View()) && n <= |types|
      modifies this`nstreams, this`streamIn, this`streamOut, this`streams, pool`received, pool`g, pool`lost
      ensures pool.Valid() && pool.held == NULL
      ensures var r := Init(old(View()), n, types, u); ok == r.Some? && View() == if ok then r.value else old(View())
    {
      hide Pool.Valid, Pool.Slots, Host.View, Queues, First, Settled, InitStreams, InitQueues, Total;
      ghost var c := View();
      Fields();
      SettledShape(c);
      if n == 0 || n > MAX_STREAMS {
        return false;
      }
      nstreams, streamIn, streamOut := n, 0, n - 1;
      StartStreams(n, types, u);
      Fields();
      ok := true;
    }

    /** The loop over the streams. */
    method StartStreams(n: nat, types: seq<XfrType>, u: Setup)
      requires pool.Valid() && pool.held == NULL && |streams| == MAX_STREAMS && n <= |types| && n <= MAX_STREAMS
      modifies this`streams, pool`received, pool`g, pool`lost
      ensures pool.Valid() && pool.held == NULL && streams == InitStreams(old(streams), n, types, u)
      ensures var b := old(pool.Slots());
        && Queues(pool.Slots()) == InitQueues(Queues(b), n) && pool.lost == old(pool.lost) + Total(Queues(b)[..n])
        && pool.Slots()[SENDING] == b[SENDING] && pool.Slots()[RECVING] == b[RECVING]
    {
      hide Pool.Valid, Pool.Slots, Queues, Initial, InitStreams, InitQueues, Total;
      ghost var a, b := streams, pool.Slots();
      QueueAt(b, 0);
      Begun(a, Queues(b), types, u);
      var id := 0;
      while id < n
        invariant 0 <= id <= n && pool.Valid() && pool.held == NULL
        invariant |streams| == MAX_STREAMS && streams == InitStreams(a, id, types, u)
        invariant Queues(pool.Slots()) == InitQueues(Queues(b), id)
        invariant pool.Slots()[SENDING] == b[SENDING] && pool.Slots()[RECVING] == b[RECVING]
        invariant pool.lost == old(pool.lost) + Total(Queues(b)[..id])
      {
        Forgotten(Queues(b), id);
        QueueAt(pool.Slots(), id);
        QueuesSet(pool.Slots(), RECEIVED(id), []);
        Started(a, id, types, u);
        streams := streams[id := Initial(id, types[id], u)];
        pool.Forget(id);
        id := id + 1;
      }
    }

    // ---- streams_service, arm by arm ---------------------------------------------------------------------

    /** The oldest received packet is scrambled and sent; false where the C code asserts. */
    method SendReply(id: nat) returns (ok: bool)
      requires pool.Valid() && pool.held == NULL && pool.sending != NULL
      requires id < MAX_STREAMS && |streams| == MAX_STREAMS && |epOut| == MAX_ENDPOINTS && IsToggle(epOut[Ep(id)])
        && devAddr < 0x80
      requires pool.Slots()[RECEIVED(id)] != [] && Kept(pool.Slots()[RECEIVED(id)][0], streams[id].xfr)
      modifies this`streams, this`busState, this`wait, this`lastPid, this`hostSt, this`transmitting
      modifies pool`free, pool`sending, pool`held, pool`g, pool.next, pool.desc
      ensures pool.Valid()
      ensures ok == (ReplyFits(old(pool.Slots())[RECEIVED(id)][0]) && old(streams[id]).xfr != Control)
      ensures ok ==> pool.held == NULL && pool.sending != NULL && transmitting
      ensures ok ==> OnlySending(old(pool.Slots()), pool.Slots())
      ensures ok ==> var s, x := old(streams[id]), old(pool.Slots())[RECEIVED(id)][0];
        var reply := Reply(x, s, id, epOut[Ep(id)], devAddr);
        && pool.Slots()[SENDING] == [reply] && busState == OutState(s.xfr) && lastPid == 0 && hostSt == HS_WAITACK
        && streams == old(streams)[id := s.(rewindLfsr := s.dpiLfsr, dpiLfsr := LfsrAt(s.dpiLfsr, Scrambled(x, s)))]
        && wait == (tickBits + |reply.bytes| * 10 + 160) % TWO32
    {
      hide Pool.Valid, Pool.Slots, Pool.Holding, Pool.Owns, OnlyHeld, OnlySending, Kept, Reply, ReplyFits, OutState,
        LfsrAt, Scrambled;
      ghost var before := pool.Slots();
      pool.Oldest(id);
      pool.Behind(SENDING, pool.sending);
      pool.ReleaseSending();
      ghost var released := pool.Slots();
      ReleasedSending(before, released);
      var reply;
      ok, reply := StreamDataProcess(id);
      ghost var built := pool.Slots();
      if !ok || streams[id].xfr == Control {
        ok := false;
        return;
      }
      ReplyLength(before[RECEIVED(id)][0], old(streams[id]), id, epOut[Ep(id)], devAddr);
      Dispatch(reply, streams[id].xfr);
      BuiltSending(before, released, built, pool.Slots());
    }

    /** The reply is sent, and its answer awaited. */
    method Dispatch(reply: Ptr, t: XfrType)
      requires pool.Valid() && pool.Holding(reply) && pool.sending == NULL && t != Control
      requires |pool.Slots()[HELD]| == 1 && 1 <= |pool.Slots()[HELD][0].bytes| <= MAX_DATA
      modifies this`busState, this`wait, this`lastPid, this`hostSt, this`transmitting, pool`sending, pool`held, pool`g
      ensures pool.Valid() && pool.held == NULL && pool.sending == reply && reply != NULL && transmitting
      ensures var b := old(pool.Slots());
        && pool.Slots() == b[HELD := []][SENDING := b[HELD]]
        && busState == OutState(t) && lastPid == 0 && hostSt == HS_WAITACK
          && wait == (tickBits + |b[HELD][0].bytes| * 10 + 160) % TWO32
    {
      hide Pool.Valid, Pool.Slots, OutState;
      pool.IsHeld(reply);
      pool.Behind(HELD, pool.held);
      busState := OutState(t);
      var maxBits := |pool.desc[reply].bytes| * 10 + 160;
      TransferSend(reply);
      wait := (tickBits + maxBits) % TWO32;
      lastPid := 0;
      hostSt := HS_WAITACK;
    }

    /** A stream that sends is considered; c is the context the call began with. */
    method ConsiderOut(id: nat, ghost c: Ctx) returns (ok: bool)
      requires pool.Valid() && pool.held == NULL && pool.sending != NULL && !transmitting && ValidCtx(c)
      requires id == NextId(c.streamOut, c.nstreams) && View() == c.(streamOut := id, hostSt := HS_STREAMIN)
      requires id < |c.streams| && c.streams[id].send && TimeLeft(c) > MIN_TIME_LEFT
      modifies this`hostSt, this`streams, this`busState, this`wait, this`lastPid, this`transmitting
      modifies pool`free, pool`sending, pool`held, pool`g, pool.next, pool.desc
      ensures pool.Valid() && ok == ServeOut(c).Next?
      ensures ok ==> pool.held == NULL && pool.sending != NULL && View() == ServeOut(c).c
    {
      hide Pool.Valid, Pool.Slots, Host.View, Queues, First, ValidCtx, ServeOut, TimeLeft, NextId, Kept;
      Lengths(c);
      Bounds(c);
      Queue(id);
      pool.Oldest(id);
      if pool.received[id] != NULL {
        ok := Respond(id, c);
      } else {
        ok := true;
        OutNothing(c, View(), id);
      }
    }

    /** What a reply needs is at hand. */
    lemma ToReply(id: nat, c: Ctx)
      requires pool.Valid() && ValidCtx(c) && View() == c.(streamOut := id, hostSt := HS_STREAMIN)
      requires id < MAX_STREAMS && |c.queues| == |c.streams| == MAX_STREAMS && c.queues[id] != []
      ensures streams == c.streams && epOut == c.epOut && |epOut| == MAX_ENDPOINTS && devAddr == c.devAddr < 0x80
        && tickBits == c.tickBits && IsToggle(epOut[Ep(id)])
      ensures pool.Slots()[RECEIVED(id)] == c.queues[id] && Kept(c.queues[id][0], c.streams[id].xfr)
    {
      hide Pool.Valid, Pool.Slots, Host.View, Queues, First, ValidCtx, Toggles, StreamsOk, StreamOk, Kept, IsToggle,
        RxShape;
      Fields();
      Lengths(c);
      Bounds(c);
      Queue(id);
      StreamAt(c, id);
      ToggleAt(c, id);
      StillOk(c.streams[id], c.queues[id], c.streams[id]);
    }

    /** The stream has a packet to reply to. */
    method Respond(id: nat, ghost c: Ctx) returns (ok: bool)
      requires pool.Valid() && pool.held == NULL && pool.sending != NULL && !transmitting && ValidCtx(c)
      requires id == NextId(c.streamOut, c.nstreams) && View() == c.(streamOut := id, hostSt := HS_STREAMIN)
      requires id < MAX_STREAMS && |c.queues| == |c.streams| == MAX_STREAMS && c.streams[id].send
        && TimeLeft(c) > MIN_TIME_LEFT
      requires c.queues[id] != []
      modifies this`hostSt, this`streams, this`busState, this`wait, this`lastPid, this`transmitting
      modifies pool`free, pool`sending, pool`held, pool`g, pool.next, pool.desc
      ensures pool.Valid() && ok == ServeOut(c).Next?
      ensures ok ==> pool.held == NULL && pool.sending != NULL && View() == ServeOut(c).c
    {
      hide Pool.Valid, Pool.Slots, Host.View, Queues, First, OnlySending, ValidCtx, Kept, Reply, ReplyFits, OutState,
        LfsrAt, Scrambled, ServeOut, TimeLeft, NextId, IsToggle;
      ghost var slots := pool.Slots();
      Fields();
      ToReply(id, c);
      ok := SendReply(id);
      if ok {
        OnlySendingQueues(slots, pool.Slots());
        Fields();
        OneSending(pool.Slots());
        OutReplies(c, View(), id);
      } else {
        OutFaults(c, id);
      }
    }

    /** HS_STARTFRAME and HS_STREAMOUT; false where the C code asserts. */
    method ServiceOut() returns (ok: bool)
      requires Valid() && !transmitting && pool.sending != NULL && (hostSt == HS_STARTFRAME || hostSt == HS_STREAMOUT)
      modifies this`hostSt, this`streamOut, this`streams, this`busState, this`wait, this`lastPid, this`transmitting
      modifies pool`free, pool`sending, pool`received, pool`held, pool`g, pool.next, pool.desc
      ensures pool.Valid() && ok == ServeOut(old(View())).Next?
      ensures ok ==> Valid() && View() == ServeOut(old(View())).c
    {
      hide Pool.Valid, Pool.Slots, Host.View, Queues, First, OnlySending, ValidCtx, Toggles, StreamsOk, StreamOk,
        RxShape, Kept, Reply, ReplyFits, OutState, LfsrAt, Scrambled, Moves, ServeOut, TimeLeft, NextId;
      ghost var c, slots := View(), pool.Slots();
      Fields();
      Lengths(c);
      Bounds(c);
      TimeLeftIs(c);
      ok := true;
      if (frameStart + FRAME_INTERVAL - tickBits) % TWO32 <= MIN_TIME_LEFT {
        hostSt := HS_NEXTFRAME;
        Fields();
        OutLate(c, View());
      } else {
        var id := OutStreamNext();
        hostSt := HS_STREAMIN;
        Fields();
        if !streams[id].send {
          pool.Discard(id);
          QueuesSet(slots, RECEIVED(id), []);
          QueuesSet(slots[RECEIVED(id) := []], FREE, pool.Slots()[FREE]);
          Fields();
          OutDiscards(c, View(), id);
        } else {
          ok := ConsiderOut(id, c);
        }
      }
      if ok {
        OutMoves(c, 0);
      }
    }

    /** What the device made of the packet. */
    method ReadAnswer(id: nat) returns (accepted: bool)
      requires id < |streams| && streams[id].xfr != Control
      modifies this`hostSt, this`streams
      ensures var s, answer := old(streams)[id], AnswerTo(old(streams)[id].xfr, busState, lastPid, tickBits >= wait);
        && accepted == (answer == Accepted)
        && streams == (if answer == Refused then old(streams)[id := s.(dpiLfsr := s.rewindLfsr)] else old(streams))
        && hostSt == match answer
                     case Accepted => old(hostSt)
                     case Refused => HS_STREAMIN
                     case Pending => old(hostSt)
                     case Wrong => HS_ERROR
    {
      var s := streams[id];
      AnswerIs(s.xfr, busState, lastPid, tickBits >= wait);
      accepted := false;
      if s.xfr == Isochronous {
        if busState == IsoOut {
          accepted := true;
        } else {
          hostSt := HS_ERROR;
        }
      } else if busState == (if s.xfr == Bulk then BulkOutAck else InterruptOutAck) {
        if lastPid == PID_ACK {
          accepted := true;
        } else if lastPid == PID_NAK {
          streams := streams[id := s.(dpiLfsr := s.rewindLfsr)];
          hostSt := HS_STREAMIN;
        } else {
          hostSt := HS_ERROR;
        }
      } else if tickBits >= wait {
        hostSt := HS_ERROR;
      }
    }

    /** HS_WAITACK; false where the C code asserts. */
    method ServiceAck() returns (ok: bool)
      requires Valid() && !transmitting && hostSt == HS_WAITACK
      modifies this`hostSt, this`streams, this`epOut
      modifies pool`free, pool`sending, pool`received, pool`held, pool`g, pool.next
      ensures pool.Valid() && ok == ServeAck(old(View())).Next?
      ensures ok ==> Valid() && View() == ServeAck(old(View())).c
    {
      hide Pool.Valid, Pool.Slots, Host.View, Queues, First, ValidCtx, Toggles, StreamsOk, StreamOk, RxShape, Kept,
        Moves, ServeAck, ToggleAdvance, AnswerTo;
      ghost var c, slots := View(), pool.Slots();
      Fields();
      Lengths(c);
      Bounds(c);
      Queue(streamOut);
      ok := true;
      pool.ReleaseSending();
      ReleasedQueues(slots, pool.Slots());
      var id := streamOut;
      var s := streams[id];
      if s.xfr == Control {
        ok := false;
        AckFaults(c);
        return;
      }
      ghost var answer := AnswerTo(s.xfr, busState, lastPid, tickBits >= wait);
      var accepted := ReadAnswer(id);
      if accepted {
        ok := RetirePacket(id);
      }
      if ok {
        Fields();
        AckDone(c, View(), answer);
        AckMoves(c, 0);
      } else {
        AckFaults(c);
      }
    }

    /** The accepted packet goes back to the pool, and the endpoint's toggle advances. */
    method RetirePacket(id: nat) returns (ok: bool)
      requires pool.Valid() && id < MAX_STREAMS && |streams| == MAX_STREAMS && |epOut| == MAX_ENDPOINTS
      modifies this`hostSt, this`epOut, pool`free, pool`received, pool`g, pool.next
      ensures pool.Valid() && ok == (old(pool.Slots())[RECEIVED(id)] != [])
      ensures pool.Slots()[SENDING] == old(pool.Slots())[SENDING] && pool.Slots()[RECVING] == old(pool.Slots())[RECVING]
      ensures ok ==> Queues(pool.Slots()) == Queues(old(pool.Slots()))[id := old(pool.Slots())[RECEIVED(id)][1..]]
      ensures ok ==> hostSt == HS_STREAMIN
      ensures ok ==> epOut == if streams[id].xfr == Isochronous
        then old(epOut) else old(epOut)[Ep(id) := ToggleAdvance(old(epOut)[Ep(id)])]
    {
      hide Pool.Valid, ToggleAdvance;
      ghost var b := pool.Slots();
      pool.Oldest(id);
      ok := pool.received[id] != NULL;
      if ok {
        pool.ReleaseReceived(id);
        QueuesSet(b, RECEIVED(id), b[RECEIVED(id)][1..]);
        QueuesSet(b[RECEIVED(id) := b[RECEIVED(id)][1..]], FREE, pool.Slots()[FREE]);
        if streams[id].xfr != Isochronous {
          epOut := epOut[Ep(id) := ToggleAdvance(epOut[Ep(id)])];
        }
        hostSt := HS_STREAMIN;
      }
    }

    // ---- Receiving -----------------------------------------------------------------------------------------

    /** stream_sig_check. */
    method StreamSigCheck(id: nat, x: Desc) returns (ok: bool)
      requires RxShape(x) && id < MAX_STREAMS && |streams| == MAX_STREAMS && |epIn| == MAX_ENDPOINTS
      modifies this`streams, this`epIn
      ensures var s := old(streams)[id];
        var g := CheckSig(x, s, old(epIn)[Ep(id)]);
        && ok == g.ok && streams == old(streams)[id := s.(tstSeq := g.seqNo, tstLfsr := g.tst)]
        && epIn == old(epIn)[Ep(id) := g.next]
    {
      hide CheckSig;
      var s, seqNo, tst, next := streams[id], 0, 0, 0;
      ok, seqNo, tst, next := CheckSignature(x, s, epIn[Ep(id)]);
      if ok {
        streams := streams[id := s.(tstSeq := seqNo, tstLfsr := tst)];
        epIn := epIn[Ep(id) := next];
      } else {
        assert s.(tstSeq := s.tstSeq, tstLfsr := s.tstLfsr) == s;
        assert streams == streams[id := s] && epIn == epIn[Ep(id) := epIn[Ep(id)]];
      }
    }

    /** stream_data_check; `defined` is false where the C code computes a data length below zero. */
    method StreamDataCheck(id: nat, x: Desc, offset: nat, accept: bool) returns (defined: bool, ok: bool)
      requires RxShape(x) && id < MAX_STREAMS && |streams| == MAX_STREAMS && |epIn| == MAX_ENDPOINTS
      modifies this`streams, this`epIn
      ensures var s := old(streams)[id];
        var r := CheckData(x, s, old(epIn)[Ep(id)], offset, accept);
        && defined == r.Checked? && (offset == 0 ==> defined == !TooShort(x))
        && (defined ==> ok == r.ok && streams == old(streams)[id := s.(tstLfsr := r.tst)])
        && (defined ==> epIn == old(epIn)[Ep(id) := r.next])
    {
      hide CheckData;
      CheckedData(x, streams[id], epIn[Ep(id)], accept);
      var next, tst;
      defined, ok, next, tst := CheckContent(x, streams[id], epIn[Ep(id)], offset, accept);
      if defined {
        epIn := epIn[Ep(id) := next];
        streams := streams[id := streams[id].(tstLfsr := tst)];
      }
    }

    /** Whether the next data packet of a stream is to be considered, or refused on purpose. */
    method Choose(id: nat, x: Desc) returns (accept: bool)
      requires id < |streams|
      modifies this`streams
      ensures accept == Willing(old(streams)[id], x) && streams == old(streams)[id := Counted(old(streams)[id])]
    {
      hide Lfsr, Retries, Redrawn;
      var s := streams[id];
      RedrawnIs(s);
      if s.xfr == Isochronous {
        assert streams == streams[id := s];
        accept := |x.bytes| > 3;
      } else if s.retrying && s.nretries > 0 {
        accept := false;
        streams := streams[id := s.(nretries := s.nretries - 1)];
      } else {
        streams := streams[id := s.(nretries := Retries(s.retryLfsr), retryLfsr := Lfsr(s.retryLfsr))];
        accept := true;
      }
    }

    /** The signature, if one is expected; only isochronous packets have content behind it. */
    method ConsiderSig(id: nat, x: Desc) returns (accept: bool, keep: bool, offset: nat)
      requires RxShape(x) && id < MAX_STREAMS && |streams| == MAX_STREAMS && |epIn| == MAX_ENDPOINTS
      modifies this`streams, this`epIn
      ensures |streams| == MAX_STREAMS && |epIn| == MAX_ENDPOINTS
      ensures streams == old(streams)[id := streams[id]] && epIn == old(epIn)[Ep(id) := epIn[Ep(id)]]
      ensures var s0, next0, s := old(streams)[id], old(epIn)[Ep(id)], streams[id];
        if !s0.sigExpected then accept && keep && s == s0 && epIn == old(epIn) && offset == 0
        else
          var g := CheckSig(x, s0, next0);
          && accept == g.ok && s == s0.(tstSeq := g.seqNo, tstLfsr := g.tst) && epIn[Ep(id)] == g.next
          && keep == (g.ok && s.xfr == Isochronous) && offset == if g.ok then SIGNATURE else 0
    {
      hide CheckSig, RxShape;
      accept, keep, offset := true, true, 0;
      if streams[id].sigExpected {
        accept := StreamSigCheck(id, x);
        keep := accept && streams[id].xfr == Isochronous;
        if accept {
          offset := SIGNATURE;
        }
      }
    }

    /** The signature, if one is expected, and the content. */
    method Consider(id: nat, x: Desc) returns (defined: bool, accept: bool, keep: bool)
      requires RxShape(x) && id < MAX_STREAMS && |streams| == MAX_STREAMS && |epIn| == MAX_ENDPOINTS
      modifies this`streams, this`epIn
      ensures var r := Examine(x, old(streams)[id], old(epIn)[Ep(id)]);
        && defined == r.Taken?
        && (defined ==> accept == r.accept && keep == r.keep)
        && (defined ==> streams == old(streams)[id := r.s] && epIn == old(epIn)[Ep(id) := r.next])
    {
      hide CheckSig, CheckData, RxShape, TooShort, Examine;
      ghost var s0, next0 := streams[id], epIn[Ep(id)];
      var offset;
      defined := true;
      accept, keep, offset := ConsiderSig(id, x);
      ghost var s, next, offered := streams[id], epIn[Ep(id)], accept;
      if (keep || !accept) && offset < |x.bytes| {
        var ok;
        defined, ok := StreamDataCheck(id, x, offset, accept);
        accept := accept && ok;
        keep := accept;
      }
      ExamineIs(x, s0, next0, s, next, offset, offered);
    }

    /** What to make of a data packet. The packet itself is kept, or not, by the caller. */
    method Inspect(id: nat, x: Desc) returns (defined: bool, accept: bool, keep: bool)
      requires RxShape(x) && id < MAX_STREAMS && |streams| == MAX_STREAMS && |epIn| == MAX_ENDPOINTS
      modifies this`streams, this`epIn
      ensures var r := Verdict(old(streams)[id], x, old(epIn)[Ep(id)]);
        && defined == r.Taken?
        && (defined ==> accept == r.accept && keep == r.keep)
        && (defined ==> streams == old(streams)[id := r.s] && epIn == old(epIn)[Ep(id) := r.next])
    {
      hide Examine, Willing, Counted, RxShape;
      defined, keep := true, false;
      accept := Choose(id, x);
      if accept {
        defined, accept, keep := Consider(id, x);
      } else {
        assert epIn == epIn[Ep(id) := epIn[Ep(id)]];
      }
    }

    /** The packet joins its stream's list, or goes back to the pool. */
    method Collect(rx: Ptr, id: nat, keep: bool)
      requires pool.Valid() && pool.Holding(rx) && id < MAX_STREAMS
      modifies pool`free, pool`received, pool`held, pool`g, pool.next
      ensures pool.Valid() && pool.held == NULL && |old(pool.Slots())[HELD]| == 1
      ensures pool.Slots()[SENDING] == old(pool.Slots())[SENDING] && pool.Slots()[RECVING] == old(pool.Slots())[RECVING]
      ensures var b := old(pool.Slots());
        Queues(pool.Slots()) == if keep then Queues(b)[id := b[RECEIVED(id)] + b[HELD]] else Queues(b)
    {
      hide Pool.Valid, Pool.Slots;
      ghost var b := pool.Slots();
      pool.IsHeld(rx);
      pool.Behind(HELD, rx);
      if keep {
        pool.Oldest(id);
        if pool.received[id] == NULL {
          pool.PutReceived(rx, id);
          assert b[RECEIVED(id)] + b[HELD] == b[HELD];
        } else {
          pool.Append(rx, id);
        }
        KeptQueues(b, pool.Slots(), id);
      } else {
        pool.Release(rx);
        OnlyHeldQueues(b, pool.Slots());
      }
    }

    /** The packet is acknowledged or not; no signature is expected once one has been accepted. */
    method SendStatus(id: nat, accept: bool)
      requires pool.Valid() && pool.held == NULL && pool.sending != NULL && id < |streams|
      modifies this`streams, this`transmitting, pool.desc
      ensures pool.Valid() && transmitting && Queues(pool.Slots()) == Queues(old(pool.Slots()))
      ensures First(pool.Slots()[SENDING]) == Some(Status(accept))
        && pool.Slots()[RECVING] == old(pool.Slots())[RECVING]
      ensures var s := old(streams)[id]; streams == old(streams)[id := s.(sigExpected := s.sigExpected && !accept)]
    {
      hide Pool.Valid, Pool.Slots;
      ghost var b := pool.Slots();
      pool.Behind(SENDING, pool.sending);
      pool.StatusStage(pool.sending, SENDING, if accept then PID_ACK else PID_NAK);
      QueuesSet(b, SENDING, pool.Slots()[SENDING]);
      transmitting := true;
      var s := streams[id];
      assert streams[id := s.(sigExpected := s.sigExpected)] == streams;
      if accept {
        streams := streams[id := s.(sigExpected := false)];
      }
    }

    /** The packet and its status are dealt with. */
    method Conclude(rx: Ptr, id: nat, accept: bool, keep: bool)
      requires pool.Valid() && pool.Holding(rx) && pool.sending != NULL && id < MAX_STREAMS && |streams| == MAX_STREAMS
      modifies this`hostSt, this`streams, this`transmitting, pool`free, pool`received, pool`held, pool`g, pool.next,
        pool.desc
      ensures pool.Valid() && pool.held == NULL && hostSt == HS_STREAMOUT && |old(pool.Slots())[HELD]| == 1
      ensures pool.Slots()[RECVING] == old(pool.Slots())[RECVING]
      ensures var b := old(pool.Slots());
        Queues(pool.Slots()) == if keep then Queues(b)[id := b[RECEIVED(id)] + b[HELD]] else Queues(b)
      ensures var s := old(streams)[id];
        if s.xfr == Isochronous then
          streams == old(streams) && transmitting == old(transmitting)
            && First(pool.Slots()[SENDING]) == First(old(pool.Slots())[SENDING])
        else
          streams == old(streams)[id := s.(sigExpected := s.sigExpected && !accept)] && transmitting
          && First(pool.Slots()[SENDING]) == Some(Status(accept))
    {
      hide Pool.Valid, Pool.Slots, Pool.Holding, Queues, First, Status;
      Collect(rx, id, keep);
      if streams[id].xfr != Isochronous {
        SendStatus(id, accept);
      }
      hostSt := HS_STREAMOUT;
    }

    /** The received packet now belongs to the stream; false where the C code asserts or is undefined. */
    method ReceiveData(id: nat, ghost c: Ctx) returns (ok: bool)
      requires pool.Valid() && pool.held == NULL && !transmitting && ValidCtx(c) && View() == c && id == c.streamIn
      requires pool.recving != NULL && pool.sending != NULL && ValidCtx(c.(recving := None))
      requires c.recving.Some? && RxShape(c.recving.value)
      modifies this`hostSt, this`streams, this`epIn, this`transmitting
      modifies pool`free, pool`received, pool`recving, pool`held, pool`g, pool.next, pool.desc
      ensures pool.Valid() && ok == TakeData(c.(recving := None), c.recving.value).Next?
      ensures ok ==> pool.held == NULL && pool.sending != NULL
      ensures ok ==> View() == TakeData(c.(recving := None), c.recving.value).c
    {
      hide Pool.Valid, Pool.Slots, Pool.Holding, Pool.Owns, Host.View, Queues, First, ValidCtx, RxShape, TakeData,
        Verdict, Status;
      ghost var b := pool.Slots();
      Fields();
      Lengths(c);
      Bounds(c);
      Queue(id);
      pool.Behind(RECVING, pool.recving);
      pool.Behind(SENDING, pool.sending);
      OneReceived(b);
      OneSending(b);
      var rx := pool.TakeRecving();
      pool.IsHeld(rx);
      pool.Behind(HELD, rx);
      var x := pool.desc[rx];
      var defined, accept, keep := Inspect(id, x);
      if !defined {
        TakeFaults(c.(recving := None), x);
        return false;
      }
      VerdictBounds(c, x);
      ghost var s1, next1, taken := streams[id], epIn[Ep(id)], pool.Slots();
      StolenQueues(b, taken);
      Conclude(rx, id, accept, keep);
      ok := true;
      Fields();
      TakeDone(c.(recving := None), View(), x, s1, next1, accept, keep);
    }

    /** HS_ACKIFDATA; false where the C code asserts or is undefined. */
    method ServiceReply() returns (ok: bool)
      requires Valid() && !transmitting && pool.sending != NULL && hostSt == HS_ACKIFDATA
      modifies this`hostSt, this`streams, this`epIn, this`transmitting
      modifies pool`free, pool`received, pool`recving, pool`held, pool`g, pool.next, pool.desc
      ensures pool.Valid() && ok == ServeReply(old(View())).Next?
      ensures ok ==> Valid() && View() == ServeReply(old(View())).c
    {
      hide Pool.Valid, Pool.Slots, Host.View, Queues, First, ValidCtx, RxShape, TakeData, ServeReply, Moves;
      ghost var c, b := View(), pool.Slots();
      Fields();
      Lengths(c);
      Bounds(c);
      ToggleAt(c, c.streamIn);
      Unreceived(c);
      pool.Behind(RECVING, pool.recving);
      FirstIs(b[RECVING]);
      var id := streamIn;
      var t := streams[id].xfr;
      ok := true;
      if t == Control {
        hostSt := HS_ERROR;
        Fields();
        ReplyNone(c, View());
      } else if pool.recving != NULL && busState == DataState(t) && IsToggle(lastPid) {
        ok := ReceiveData(id, c);
        ReplyHasData(c);
      } else {
        NoData(t);
        Fields();
        ReplyNone(c, View());
      }
      if ok {
        ReplyMoves(c, 0);
      }
    }

    /** No data packet: a NAK, an unexpected packet, nothing yet, or nothing in time. */
    method NoData(t: XfrType)
      requires t != Control && hostSt == HS_ACKIFDATA
      modifies this`hostSt
      ensures hostSt == if pool.recving != NULL && busState == DataState(t) then
                          if lastPid != PID_NAK then HS_NEXTFRAME else if t == Isochronous
                            then HS_ERROR else HS_STREAMOUT
                        else if tickBits >= wait then HS_ERROR else HS_ACKIFDATA
    {
      if pool.recving != NULL && busState == DataState(t) {
        if lastPid == PID_NAK {
          hostSt := if t == Isochronous then HS_ERROR else HS_STREAMOUT;
        } else {
          hostSt := HS_NEXTFRAME;
        }
      } else if tickBits >= wait {
        hostSt := HS_ERROR;
      }
    }

    /** streams_service, once the idle arm has provided a descriptor. It fails exactly where the C code
        asserts or is undefined; otherwise the pool is whole again and the context is the specified one. */
    method StreamsService() returns (ok: bool)
      requires Valid() && !transmitting && pool.sending != NULL && View().sending.Some?
      modifies this, pool`free, pool`received, pool`sending, pool`recving, pool`held, pool`g, pool.next, pool.desc
      ensures pool.Valid() && ok == Service(old(View())).Next?
      ensures ok ==> Valid() && View() == Service(old(View())).c
    {
      hide Pool.Valid, Pool.Slots, Host.View, ValidCtx, ServeOut, ServeAck, ServeIn, ServeReply;
      ghost var c, b := View(), pool.Slots();
      Fields();
      pool.Behind(SENDING, pool.sending);
      ok := true;
      match hostSt {
        case HS_STARTFRAME => ok := ServiceOut();
        case HS_STREAMOUT => ok := ServiceOut();
        case HS_WAITACK => ok := ServiceAck();
        case HS_STREAMIN => ok := ServiceIn();
        case HS_WAIT_PKT =>
          wait := (tickBits + 18 + 8 + 8 + 64 * 8 + 16) % TWO32;
          hostSt := HS_ACKIFDATA;
          Fields();
          assert View() == Service(c).c;
          ServiceMoves(c, 0);
        case HS_ACKIFDATA => ok := ServiceReply();
        case HS_ERROR => ok := false;
        case HS_NEXTFRAME =>
      }
    }

    // ---- Between the calls -------------------------------------------------------------------------------

    /** The idle arm provides a descriptor for the next transfer; false where the C code asserts, with the
        pool exhausted. */
    method Idle() returns (ok: bool)
      requires Valid() && !transmitting
      modifies pool`free, pool`sending, pool`held, pool`g, pool.next, pool.desc
      ensures pool.Valid() && ok == (old(View()).sending.Some? || Used(old(View())) + pool.lost < MAX_TRANSFERS)
      ensures ok ==> Valid() && pool.sending != NULL && View().sending.Some? && Interlude(old(View()), View())
      ensures ok ==> View() == old(View()).(sending := View().sending)
    {
      hide Pool.Valid, Pool.Slots, Pool.Holding, Host.View, ValidCtx, Interlude, Used, Queues;
      ghost var c, b := View(), pool.Slots();
      Fields();
      SomeFree();
      pool.Behind(SENDING, pool.sending);
      pool.Behind(HELD, pool.held);
      ok := true;
      if pool.sending == NULL {
        var x := pool.Alloc();
        if x == NULL {
          return false;
        }
        ghost var m := pool.Slots();
        pool.IsHeld(x);
        pool.PutSending(x);
        AllocatedQueues(b, m, pool.Slots(), SENDING);
        Fields();
      }
      Resent(c, View());
    }

    /** The driver has sent the packet and is idle, or waits for the device. */
    method Sent()
      requires Valid()
      modifies this`transmitting
      ensures Valid() && !transmitting && View() == old(View()).(transmitting := false)
        && Interlude(old(View()), View())
    {
      hide Pool.Valid, Pool.Slots, Host.View, ValidCtx, Interlude;
      ghost var c := View();
      Fields();
      transmitting := false;
      Fields();
      Resent(c, View());
    }

    /** What the bit level reports: the last PID, the state of the bus, the clock. */
    method Observe(pid: bv8, bus: BusState, ticks: nat)
      requires Valid() && ticks < TWO32
      modifies this`lastPid, this`busState, this`tickBits
      ensures Valid() && View() == old(View()).(lastPid := pid, busState := bus, tickBits := ticks)
      ensures Interlude(old(View()), View())
    {
      hide Pool.Valid, Pool.Slots, Host.View, ValidCtx, Interlude;
      ghost var c := View();
      Fields();
      lastPid, busState, tickBits := pid, bus, ticks;
      Fields();
      Observed(c, View());
    }

    /** A frame begins while nothing is being sent: SOF is sent, in the descriptor at hand or a new one, and the
        host starts over. False where the C code asserts. */
    method FrameStart(frame: nat) returns (ok: bool)
      requires Valid() && !transmitting
      modifies this`hostSt, this`frameStart, this`transmitting
      modifies pool`free, pool`sending, pool`held, pool`g, pool.next, pool.desc
      ensures pool.Valid() && ok == (old(View()).sending.Some? || Used(old(View())) + pool.lost < MAX_TRANSFERS)
      ensures ok ==> Valid() && transmitting && View().sending == Some(SofDesc(frame))
      ensures ok ==> View() == old(View()).(hostSt := HS_STARTFRAME, frameStart := tickBits, transmitting := true,
        sending := View().sending)
      ensures ok && old(hostSt) != HS_WAITACK && old(hostSt) != HS_ERROR ==> Interlude(old(View()), View())
    {
      hide Pool.Valid, Pool.Slots, Pool.Owns, Host.View, ValidCtx, Interlude, Used, Queues, SofDesc;
      ghost var c := View();
      Fields();
      Bounds(c);
      frameStart := tickBits;
      ghost var c1 := View();
      Fields();
      Retimed(c, c1);
      ok := Idle();
      if ok {
        Fields();
        SendSof(frame);
        hostSt := HS_STARTFRAME;
        Fields();
        Restarted(c, View());
      }
    }

    /** The SOF token, in the descriptor at hand. */
    method SendSof(frame: nat)
      requires pool.Valid() && pool.held == NULL && pool.sending != NULL
      modifies this`transmitting, pool`sending, pool`held, pool`g, pool.desc
      ensures pool.Valid() && pool.held == NULL && pool.sending == old(pool.sending) && transmitting
      ensures Queues(pool.Slots()) == Queues(old(pool.Slots())) && pool.Slots()[RECVING] == old(pool.Slots())[RECVING]
      ensures First(pool.Slots()[SENDING]) == Some(SofDesc(frame))
    {
      hide Pool.Valid, Pool.Slots, Pool.Owns, Queues, First, SofDesc;
      ghost var b := pool.Slots();
      pool.Behind(SENDING, pool.sending);
      SofSmall(frame);
      pool.Token(pool.sending, SENDING, PID_SOF, (frame % 128) as bv8, ((frame / 128) % 16) as bv8);
      pool.Behind(SENDING, pool.sending);
      QueuesSet(b, SENDING, pool.Slots()[SENDING]);
      FirstIs(pool.Slots()[SENDING]);
      TransferSend(pool.sending);
    }

    /** usbdpi_data_callback for traffic from the device; false where the C code asserts: no descriptor, or no
        space in it. */
    method DataCallback(e: UsbMonitor.Event) returns (ok: bool)
      requires pool.Valid() && pool.held == NULL
      modifies pool`free, pool`recving, pool`held, pool`g, pool.next, pool.desc
      ensures pool.Valid() && pool.held == NULL
      ensures var b := old(pool.Slots());
        var before := if b[RECVING] == [] then BLANK else b[RECVING][0];
        && ok == ((b[RECVING] != [] || b[FREE] != []) && Reception.Receive(before, e).Rx?)
        && (ok ==> pool.Slots()[RECVING] == [Reception.Receive(before, e).x])
      ensures Queues(pool.Slots()) == Queues(old(pool.Slots())) && pool.Slots()[SENDING] == old(pool.Slots())[SENDING]
    {
      hide Pool.Valid, Pool.Slots, Pool.Holding, Pool.Owns, Queues;
      ghost var b := pool.Slots();
      pool.Behind(RECVING, pool.recving);
      pool.Behind(HELD, pool.held);
      if pool.recving == NULL {
        var x := pool.Alloc();
        if x == NULL {
          return false;
        }
        ghost var m := pool.Slots();
        pool.IsHeld(x);
        pool.PutRecving(x);
        AllocatedQueues(b, m, pool.Slots(), RECVING);
      }
      pool.Behind(RECVING, pool.recving);
      ghost var c := pool.Slots();
      ok := Collects(e);
      QueuesSet(c, RECVING, pool.Slots()[RECVING]);
    }

    /** The event's effect on the descriptor that `recving` points to. */
    method Collects(e: UsbMonitor.Event) returns (ok: bool)
      requires pool.Valid() && pool.recving != NULL && pool.Owns(RECVING, pool.recving)
      requires pool.recving < pool.desc.Length && pool.Slots()[RECVING] == [pool.desc[pool.recving]]
      modifies pool.desc
      ensures pool.Valid() && ok == Reception.Receive(old(pool.Slots())[RECVING][0], e).Rx?
      ensures ok ==> pool.Slots() == old(pool.Slots())[RECVING := [Reception.Receive(old(pool.Slots())[RECVING][0],
        e).x]]
      ensures !ok ==> pool.Slots() == old(pool.Slots())
    {
      hide Pool.Valid, Pool.Slots, Pool.Owns;
      ghost var b := pool.Slots();
      var tr, x := pool.recving, pool.desc[pool.recving];
      assert b[RECVING := [x]] == b;
      ok := true;
      match e {
        case Sync => pool.Write(tr, RECVING, BLANK);
        case Eop =>
        case Pid(d) =>
          ok := |x.bytes| < MAX_DATA;
          if ok {
            if IsToggle(d) {
              ok := pool.DataStart(tr, RECVING, d, 0);
            } else {
              ok := pool.AppendBytes(tr, RECVING, [d]);
            }
          }
        case Byte(d) =>
          ok := |x.bytes| < MAX_DATA;
          if ok {
            ok := pool.AppendBytes(tr, RECVING, [d]);
          }
      }
    }

    /** The callbacks of one whole packet from the device: `recving` then holds just that packet. */
    method ReceivePacket(ev: seq<UsbMonitor.Event>, ghost bytes: seq<bv8>) returns (ok: bool)
      requires Valid() && bytes != [] && ev == UsbMonitor.PacketEvents(bytes)
      modifies pool`free, pool`recving, pool`held, pool`g, pool.next, pool.desc
      ensures pool.Valid()
      ensures ok == (|bytes| <= MAX_DATA
        && (old(View()).recving.Some? || Used(old(View())) + pool.lost < MAX_TRANSFERS))
      ensures ok ==> Valid() && View() == old(View()).(recving := Some(Reception.Arrived(bytes)))
      ensures ok ==> Interlude(old(View()), View())
    {
      hide Pool.Valid, Pool.Slots, Host.View, ValidCtx, Interlude, Used, Queues, First, Reception.Receive,
        Reception.ReceiveAll, UsbMonitor.PacketEvents, Reception.Arrived;
      ghost var c, b := View(), pool.Slots();
      Fields();
      SomeFree();
      FirstIs(b[RECVING]);
      pool.Behind(RECVING, pool.recving);
      ghost var start := if b[RECVING] == [] then BLANK else b[RECVING][0];
      Reception.PacketCollected(start, bytes);
      EventsSplit(bytes);
      Reception.ReceiveSnoc(start, ev, 0);
      ok := DataCallback(ev[0]);
      var i := 1;
      while i < |ev| && ok
        invariant 1 <= i <= |ev| && pool.Valid() && pool.held == NULL
        invariant Queues(pool.Slots()) == Queues(b) && pool.Slots()[SENDING] == b[SENDING]
        invariant ok ==> (b[RECVING] != [] || b[FREE] != []) && |pool.Slots()[RECVING]| == 1
        invariant ok ==> Reception.ReceiveAll(start, ev[..i]) == Reception.Rx(pool.Slots()[RECVING][0])
        invariant !ok ==> (b[RECVING] == [] && b[FREE] == []) || Reception.ReceiveAll(start, ev).NoSpace?
      {
        Reception.ReceiveSnoc(start, ev, i);
        ok := DataCallback(ev[i]);
        i := i + 1;
      }
      assert ev[..|ev|] == ev;
      if ok {
        Fields();
        OneReceived(pool.Slots());
        ReceivedIs(bytes);
        Rereceived(c, View());
      }
    }

    /** A descriptor is free exactly if the others do not account for the whole pool. */
    lemma SomeFree()
      requires pool.Valid() && pool.held == NULL
      ensures pool.Slots()[FREE] != [] <==> Used(View()) + pool.lost < MAX_TRANSFERS
    {
      var slots := pool.Slots();
      pool.Behind(SENDING, pool.sending);
      pool.Behind(RECVING, pool.recving);
      pool.Behind(HELD, pool.held);
      pool.Conserved();
      TotalSlots(slots);
    }

    /** stream_data_gen into a stream's empty list, if a descriptor is free. */
    method StreamDataGen(id: nat) returns (made: bool)
      requires pool.Valid() && pool.held == NULL && id < MAX_STREAMS && |streams| == MAX_STREAMS
        && |epIn| == MAX_ENDPOINTS
      requires IsToggle(epIn[Ep(id)]) && pool.Slots()[RECEIVED(id)] == []
      modifies this`streams, this`epIn, pool`free, pool`received, pool`held, pool`g, pool.next, pool.desc
      ensures pool.Valid() && pool.held == NULL && made == (old(pool.Slots())[FREE] != [])
      ensures pool.Slots()[SENDING] == old(pool.Slots())[SENDING] && pool.Slots()[RECVING] == old(pool.Slots())[RECVING]
      ensures !made ==> streams == old(streams) && epIn == old(epIn)
      ensures !made ==> Queues(pool.Slots()) == Queues(old(pool.Slots()))
      ensures made ==> var s, next := old(streams[id]), old(epIn)[Ep(id)];
        && streams == old(streams)[id := s.(tstLfsr := LfsrAt(s.tstLfsr, GEN_LENGTH))]
        && epIn == old(epIn)[Ep(id) := ToggleAdvance(next)]
        && Queues(pool.Slots()) == Queues(old(pool.Slots()))[id := [Generated(s, next, GEN_LENGTH)]]
    {
      hide Pool.Valid, Pool.Slots, ToggleAdvance, LfsrAt, LfsrSeq, Generated;
      ghost var b := pool.Slots();
      pool.Behind(HELD, pool.held);
      pool.Oldest(id);
      var x := pool.Alloc();
      made := x != NULL;
      if made {
        var s, data := streams[id], epIn[Ep(id)];
        epIn := epIn[Ep(id) := ToggleAdvance(data)];
        pool.Behind(HELD, pool.held);
        var ok := pool.DataStart(x, HELD, data, GEN_LENGTH);
        pool.Behind(HELD, pool.held);
        var out, lfsr := Generate(s.tstLfsr, GEN_LENGTH);
        streams := streams[id := s.(tstLfsr := lfsr)];
        pool.DataEnd(x, HELD, out);
        pool.PutReceived(x, id);
        GeneratedBytes(s, data, GEN_LENGTH);
        MadeQueues(b, pool.Slots(), id, Generated(s, data, GEN_LENGTH));
      }
    }

    /** The next stream is polled, or packets are made up for it; c is the context the call began with. The
        descriptor to send is at hand, so the arm's own allocation is not needed. */
    method ConsiderIn(id: nat, ghost c: Ctx) returns (ok: bool)
      requires pool.Valid() && pool.held == NULL && pool.sending != NULL && ValidCtx(c)
      requires id == NextId(c.streamIn, c.nstreams) && View() == c.(streamIn := id) && TimeLeft(c) > MIN_TIME_LEFT
      requires pool.Slots()[FREE] != [] <==> Used(c) + c.lost < MAX_TRANSFERS
      modifies this`hostSt, this`streams, this`epIn, this`busState, this`lastPid, this`transmitting
      modifies pool`free, pool`sending, pool`received, pool`held, pool`g, pool.next, pool.desc
      ensures pool.Valid() && ok == ServeIn(c).Next?
      ensures ok ==> pool.held == NULL && pool.sending != NULL && View() == ServeIn(c).c
    {
      hide Pool.Valid, Pool.Slots, Host.View, Queues, First, ValidCtx, Toggles, StreamsOk, StreamOk, RxShape, Kept,
        Moves, ServeIn, TimeLeft, NextId, LfsrAt, Generated, ToggleAdvance, TokenBytes, Used, InState;
      Fields();
      Lengths(c);
      Bounds(c);
      Queue(id);
      ToggleAt(c, id);
      ok := true;
      if streams[id].retrieve {
        ok := Poll(id);
        if ok {
          Fields();
          InPolls(c, View(), id);
        } else {
          InFaults(c, id);
        }
      } else {
        Pretend(id, c);
      }
    }

    /** A stream that is not polled: a packet is made up for it, if it sends and has none. */
    method Pretend(id: nat, ghost c: Ctx)
      requires pool.Valid() && pool.held == NULL && pool.sending != NULL && ValidCtx(c)
      requires id == NextId(c.streamIn, c.nstreams) && View() == c.(streamIn := id) && TimeLeft(c) > MIN_TIME_LEFT
      requires id < |c.streams| && !c.streams[id].retrieve
        && (pool.Slots()[FREE] != [] <==> Used(c) + c.lost < MAX_TRANSFERS)
      modifies this`hostSt, this`streams, this`epIn, pool`free, pool`received, pool`held, pool`g, pool.next, pool.desc
      ensures pool.Valid() && pool.held == NULL && ServeIn(c) == Next(View())
    {
      hide Pool.Valid, Pool.Slots, Host.View, Queues, First, ValidCtx, Toggles, StreamsOk, StreamOk, RxShape, Kept,
        Moves, ServeIn, TimeLeft, NextId, LfsrAt, Generated, ToggleAdvance, TokenBytes, Used, InState;
      Fields();
      Lengths(c);
      Bounds(c);
      Queue(id);
      ToggleAt(c, id);
      pool.Oldest(id);
      var made := false;
      if streams[id].send && pool.received[id] == NULL {
        made := StreamDataGen(id);
      }
      hostSt := HS_STREAMOUT;
      Fields();
      InOther(c, View(), id, made);
    }

    /** HS_STREAMIN; false where the C code asserts. */
    method ServiceIn() returns (ok: bool)
      requires Valid() && !transmitting && pool.sending != NULL && hostSt == HS_STREAMIN
      modifies this`hostSt, this`streamIn, this`streams, this`epIn, this`busState, this`lastPid, this`transmitting
      modifies pool`free, pool`sending, pool`received, pool`held, pool`g, pool.next, pool.desc
      ensures pool.Valid() && ok == ServeIn(old(View())).Next?
      ensures ok ==> Valid() && View() == ServeIn(old(View())).c
    {
      hide Pool.Valid, Pool.Slots, Host.View, Queues, First, ValidCtx, Toggles, StreamsOk, StreamOk, RxShape, Kept,
        Moves, ServeIn, TimeLeft, NextId, LfsrAt, Generated, ToggleAdvance, TokenBytes, Used, InState;
      ghost var c := View();
      Fields();
      Bounds(c);
      TimeLeftIs(c);
      SomeFree();
      ok := true;
      if (frameStart + FRAME_INTERVAL - tickBits) % TWO32 <= MIN_TIME_LEFT {
        hostSt := HS_NEXTFRAME;
        Fields();
        InLate(c, View());
      } else {
        var id := InStreamNext();
        Fields();
        ok := ConsiderIn(id, c);
      }
      if ok {
        InMoves(c, 0);
      }
    }

    /** An IN token is sent. */
    method Poll(id: nat) returns (ok: bool)
      requires pool.Valid() && pool.held == NULL && pool.sending != NULL && id < MAX_STREAMS
        && |streams| == MAX_STREAMS && devAddr < 0x80
      modifies this`hostSt, this`busState, this`lastPid, this`transmitting, pool`sending, pool`held, pool`g, pool.desc
      ensures pool.Valid() && ok == (streams[id].xfr != Control) && pool.held == NULL
        && pool.sending == old(pool.sending)
      ensures Queues(pool.Slots()) == Queues(old(pool.Slots())) && pool.Slots()[RECVING] == old(pool.Slots())[RECVING]
      ensures First(pool.Slots()[SENDING]) == Some(Desc(TokenBytes(PID_IN, devAddr, Ep(id) as bv8), NO_DATA_STAGE))
      ensures ok ==> hostSt == HS_WAIT_PKT && busState == InState(streams[id].xfr) && lastPid == 0 && transmitting
    {
      hide Pool.Valid, Pool.Slots, TokenBytes, InState;
      ghost var b := pool.Slots();
      EndpointSmall(id);
      pool.Behind(SENDING, pool.sending);
      pool.Token(pool.sending, SENDING, PID_IN, devAddr, Ep(id) as bv8);
      pool.Behind(SENDING, pool.sending);
      QueuesSet(b, SENDING, pool.Slots()[SENDING]);
      TransferSend(pool.sending);
      ok := streams[id].xfr != Control;
      if ok {
        busState := InState(streams[id].xfr);
        hostSt := HS_WAIT_PKT;
        lastPid := 0;
      }
    }
  }

  // ---- What an arm does, field by field ----------------------------------------------------------------

  predicate SameBus(c: Ctx, d: Ctx) {
    && d.nstreams == c.nstreams && d.streamIn == c.streamIn && d.epIn == c.epIn && d.epOut == c.epOut
      && d.recving == c.recving
    && d.tickBits == c.tickBits && d.frameStart == c.frameStart && d.devAddr == c.devAddr && d.lost == c.lost
  }

  predicate SameSend(c: Ctx, d: Ctx) {
    && d.busState == c.busState && d.lastPid == c.lastPid && d.sending == c.sending && d.transmitting == c.transmitting
    && d.wait == c.wait && d.streams == c.streams
  }

  lemma OutLate(c: Ctx, d: Ctx)
    requires ValidCtx(c) && TimeLeft(c) <= MIN_TIME_LEFT && SameBus(c, d) && SameSend(c, d)
    requires d.hostSt == HS_NEXTFRAME && d.streamOut == c.streamOut && d.queues == c.queues
    ensures ServeOut(c) == Next(d)
  {
    hide ValidCtx, TimeLeft;
  }

  lemma OutDiscards(c: Ctx, d: Ctx, id: nat)
    requires ValidCtx(c) && TimeLeft(c) > MIN_TIME_LEFT && SameBus(c, d) && SameSend(c, d)
      && id == NextId(c.streamOut, c.nstreams)
    requires id < MAX_STREAMS && |c.queues| == MAX_STREAMS && |c.streams| == MAX_STREAMS && !c.streams[id].send
    requires d.hostSt == HS_STREAMIN && d.streamOut == id && d.queues == c.queues[id := []]
    ensures ServeOut(c) == Next(d)
  {
    hide ValidCtx, TimeLeft, NextId;
  }

  lemma OutNothing(c: Ctx, d: Ctx, id: nat)
    requires ValidCtx(c) && TimeLeft(c) > MIN_TIME_LEFT && SameBus(c, d) && SameSend(c, d)
      && id == NextId(c.streamOut, c.nstreams)
    requires id < MAX_STREAMS && |c.queues| == MAX_STREAMS && |c.streams| == MAX_STREAMS && c.streams[id].send
      && c.queues[id] == []
    requires d.hostSt == HS_STREAMIN && d.streamOut == id && d.queues == c.queues
    ensures ServeOut(c) == Next(d)
  {
    hide ValidCtx, TimeLeft, NextId;
  }

  lemma OutFaults(c: Ctx, id: nat)
    requires ValidCtx(c) && TimeLeft(c) > MIN_TIME_LEFT && id == NextId(c.streamOut, c.nstreams)
    requires id < MAX_STREAMS && |c.queues| == MAX_STREAMS && |c.streams| == MAX_STREAMS && c.streams[id].send
      && c.queues[id] != []
    requires Kept(c.queues[id][0], c.streams[id].xfr) && (!ReplyFits(c.queues[id][0]) || c.streams[id].xfr == Control)
    ensures ServeOut(c) == Fault
  {
    hide ValidCtx, TimeLeft, NextId, ReplyFits;
  }

  lemma OutReplies(c: Ctx, d: Ctx, id: nat)
    requires ValidCtx(c) && TimeLeft(c) > MIN_TIME_LEFT && SameBus(c, d) && id == NextId(c.streamOut, c.nstreams)
    requires id < MAX_STREAMS && |c.queues| == MAX_STREAMS && |c.streams| == MAX_STREAMS
      && |c.epOut| == MAX_ENDPOINTS && c.streams[id].send
    requires c.queues[id] != [] && Kept(c.queues[id][0], c.streams[id].xfr) && ReplyFits(c.queues[id][0])
      && c.streams[id].xfr != Control
    requires var s, x := c.streams[id], c.queues[id][0];
      var reply := Reply(x, s, id, c.epOut[Ep(id)], c.devAddr);
      && d.sending == Some(reply) && d.busState == OutState(s.xfr) && d.lastPid == 0 && d.hostSt == HS_WAITACK
        && d.transmitting
      && d.streams == c.streams[id := s.(rewindLfsr := s.dpiLfsr, dpiLfsr := LfsrAt(s.dpiLfsr, Scrambled(x, s)))]
      && d.wait == (c.tickBits + |reply.bytes| * 10 + 160) % TWO32
    requires d.streamOut == id && d.queues == c.queues
    ensures ServeOut(c) == Next(d)
  {
    hide ValidCtx, TimeLeft, NextId, ReplyFits, Reply, LfsrAt, Scrambled, Kept, OutState;
  }

  lemma ReleasedQueues(a: seq<seq<Desc>>, b: seq<seq<Desc>>)
    requires |a| == SLOTS && b == a[SENDING := []][FREE := a[SENDING] + a[FREE]]
    ensures Queues(b) == Queues(a) && b[SENDING] == [] && First(b[SENDING]) == None && b[RECVING] == a[RECVING]
    ensures forall id :: 0 <= id < MAX_STREAMS ==> b[RECEIVED(id)] == a[RECEIVED(id)]
  {}

  lemma AnswerIs(t: XfrType, bus: BusState, pid: bv8, late: bool)
    requires t != Control
    ensures var a := AnswerTo(t, bus, pid, late);
      if t == Isochronous then a == if bus == IsoOut then Accepted else Wrong
      else if bus == (if t == Bulk then BulkOutAck else InterruptOutAck) then
        a == if pid == PID_ACK then Accepted else if pid == PID_NAK then Refused else Wrong
      else a == if late then Wrong else Pending
  {}

  lemma AckFaults(c: Ctx)
    requires ValidCtx(c) && |c.streams| == MAX_STREAMS && |c.queues| == MAX_STREAMS && c.streamOut < MAX_STREAMS
    requires var s := c.streams[c.streamOut];
      s.xfr == Control || (AnswerTo(s.xfr, c.busState, c.lastPid, c.tickBits >= c.wait) == Accepted
        && c.queues[c.streamOut] == [])
    ensures ServeAck(c) == Fault
  {
    hide ValidCtx, AnswerTo;
  }

  lemma AckDone(c: Ctx, d: Ctx, a: Answer)
    requires ValidCtx(c) && |c.streams| == MAX_STREAMS && |c.queues| == MAX_STREAMS && |c.epOut| == MAX_ENDPOINTS
      && c.streamOut < MAX_STREAMS
    requires c.streams[c.streamOut].xfr != Control
    requires a == AnswerTo(c.streams[c.streamOut].xfr, c.busState, c.lastPid, c.tickBits >= c.wait)
    requires d == c.(sending := None, hostSt := d.hostSt, streams := d.streams, queues := d.queues, epOut := d.epOut)
    requires var id := c.streamOut;
      var s, q := c.streams[id], c.queues[id];
      match a
      case Accepted => q != [] && d.hostSt == HS_STREAMIN && d.streams == c.streams
        && d.queues == c.queues[id := q[1..]]
        && d.epOut == if s.xfr == Isochronous then c.epOut else c.epOut[Ep(id) := ToggleAdvance(c.epOut[Ep(id)])]
      case Refused => d.hostSt == HS_STREAMIN && d.streams == c.streams[id := s.(dpiLfsr := s.rewindLfsr)]
        && d.queues == c.queues && d.epOut == c.epOut
      case Pending => d.hostSt == HS_WAITACK && d.streams == c.streams && d.queues == c.queues && d.epOut == c.epOut
      case Wrong => d.hostSt == HS_ERROR && d.streams == c.streams && d.queues == c.queues && d.epOut == c.epOut
    ensures ServeAck(c) == Next(d)
  {
    hide ValidCtx, AnswerTo, ToggleAdvance;
  }

  lemma {:induction false} TotalSlots(slots: seq<seq<Desc>>)
    requires |slots| == SLOTS
    ensures Total(slots) == |slots[FREE]| + |slots[SENDING]| + |slots[RECVING]| + |slots[HELD]| + Total(Queues(slots))
  {
    assert slots == slots[..4] + slots[4..];
    TotalConcat(slots[..4], slots[4..]);
    TotalAt(slots[..4], 3);
    TotalAt(slots[..3], 2);
    TotalAt(slots[..2], 1);
    TotalAt(slots[..1], 0);
    assert slots[..4][..3] == slots[..3] && slots[..3][..2] == slots[..2] && slots[..2][..1] == slots[..1];
  }

  lemma GeneratedBytes(s: Stream, next: bv8, len: nat)
    ensures Generated(s, next, len) == Desc(([] + [next]) + LfsrSeq(s.tstLfsr, len) + Crc16Bytes(LfsrSeq(s.tstLfsr,
      len)), 0)
  {
    hide LfsrSeq, Crc16Bytes;
  }

  lemma MadeQueues(a: seq<seq<Desc>>, b: seq<seq<Desc>>, id: nat, x: Desc)
    requires |a| == SLOTS && id < MAX_STREAMS && |b| == SLOTS && b[RECEIVED(id)] == [x]
    requires forall s :: 4 <= s < SLOTS && s != RECEIVED(id) ==> b[s] == a[s]
    ensures Queues(b) == Queues(a)[id := [x]]
  {}

  lemma InLate(c: Ctx, d: Ctx)
    requires ValidCtx(c) && TimeLeft(c) <= MIN_TIME_LEFT && d == c.(hostSt := HS_NEXTFRAME)
    ensures ServeIn(c) == Next(d)
  {
    hide ValidCtx, TimeLeft;
  }

  lemma InFaults(c: Ctx, id: nat)
    requires ValidCtx(c) && TimeLeft(c) > MIN_TIME_LEFT && id == NextId(c.streamIn, c.nstreams) && id < |c.streams|
    requires c.streams[id].retrieve && c.streams[id].xfr == Control
    ensures ServeIn(c) == Fault
  {
    hide ValidCtx, TimeLeft, NextId;
  }

  lemma InPolls(c: Ctx, d: Ctx, id: nat)
    requires ValidCtx(c) && TimeLeft(c) > MIN_TIME_LEFT && id == NextId(c.streamIn, c.nstreams)
      && id < |c.streams| && id < MAX_STREAMS
    requires c.streams[id].retrieve && c.streams[id].xfr != Control
    requires d == c.(streamIn := id, sending := d.sending, transmitting := true, busState := d.busState,
      hostSt := HS_WAIT_PKT, lastPid := 0)
    requires d.sending == Some(Desc(TokenBytes(PID_IN, c.devAddr, Ep(id) as bv8), NO_DATA_STAGE))
      && d.busState == InState(c.streams[id].xfr)
    ensures ServeIn(c) == Next(d)
  {
    hide ValidCtx, TimeLeft, NextId, TokenBytes, InState;
  }

  lemma InOther(c: Ctx, d: Ctx, id: nat, made: bool)
    requires ValidCtx(c) && TimeLeft(c) > MIN_TIME_LEFT && id == NextId(c.streamIn, c.nstreams) && id < MAX_STREAMS
    requires |c.streams| == MAX_STREAMS && |c.queues| == MAX_STREAMS && |c.epIn| == MAX_ENDPOINTS
      && !c.streams[id].retrieve
    requires made == (c.streams[id].send && c.queues[id] == [] && Used(c) + c.lost < MAX_TRANSFERS)
    requires d == c.(streamIn := id, hostSt := HS_STREAMOUT, streams := d.streams, epIn := d.epIn, queues := d.queues)
    requires var s, next := c.streams[id], c.epIn[Ep(id)];
      if made then
        && d.streams == c.streams[id := s.(tstLfsr := LfsrAt(s.tstLfsr, GEN_LENGTH))]
          && d.epIn == c.epIn[Ep(id) := ToggleAdvance(next)]
        && d.queues == c.queues[id := [Generated(s, next, GEN_LENGTH)]]
      else d.streams == c.streams && d.epIn == c.epIn && d.queues == c.queues
    ensures ServeIn(c) == Next(d)
  {
    hide ValidCtx, TimeLeft, NextId, LfsrAt, Generated, ToggleAdvance, Used;
  }

  /** The signature's shape and sequence number decide; nothing is stored yet. */
  method CheckSignature(x: Desc, s: Stream, next: bv8) returns (ok: bool, seqNo: nat, tst: bv8, next': bv8)
    requires RxShape(x)
    ensures CheckSig(x, s, next) == SigChecked(ok, seqNo, tst, next')
    ensures !ok ==> seqNo == s.tstSeq && tst == s.tstLfsr && next' == next
  {
    hide WellSigned, SeqNo, ToggleAdvance;
    ok, seqNo, tst, next' := false, s.tstSeq, s.tstLfsr, next;
    var sized := |x.bytes| == 3 + SIGNATURE;
    if s.xfr == Isochronous {
      sized := |x.bytes| >= 3 + SIGNATURE;
    }
    if !sized || x.dataStart != 0 {
      return;
    }
    var sig := x.bytes[1..];
    if !WellSigned(sig) {
      return;
    }
    if s.xfr == Isochronous {
      if SeqNo(sig) >= s.tstSeq {
        return true, (SeqNo(sig) + 1) % 0x1_0000, sig[4], PID_DATA0;
      }
    } else if SeqNo(sig) == s.tstSeq {
      return true, (s.tstSeq + 1) % 0x1_0000, sig[4], ToggleAdvance(x.bytes[0]);
    }
  }

  /** The last two bytes are the CRC16 of those between them and the PID. */
  method CrcRight(x: Desc) returns (right: bool)
    requires x.dataStart == 0 && 3 <= |x.bytes|
    ensures right == (x.bytes[|x.bytes| - 2..] == Crc16Bytes(Payload(x)))
  {
    var crc := Crc16Pair(Payload(x));
    right := x.bytes[|x.bytes| - 2..] == crc;
  }

  /** The content from the offset on, where there is so much of it. */
  method ContentRight(data: seq<bv8>, s: Stream, offset: nat) returns (same: bool, tst: bv8)
    requires offset <= |data|
    ensures same == (data[offset..] == LfsrSeq(s.tstLfsr, |data| - offset)) && tst == LfsrAt(s.tstLfsr, |data| - offset)
  {
    same, tst := Compare(data[offset..], s.tstLfsr);
  }

  /** Both LFSR streams and the toggle decide about a packet; nothing is stored yet. */
  method CheckContent(x: Desc, s: Stream, next: bv8, offset: nat, accept: bool) returns (defined: bool, ok: bool,
    next': bv8, tst: bv8)
    requires RxShape(x)
    ensures var r := CheckData(x, s, next, offset, accept);
      defined == r.Checked? && (defined ==> ok == r.ok && next' == r.next && tst == r.tst)
  {
    hide LfsrAt, LfsrSeq, Crc16Bytes, ToggleAdvance;
    defined, ok, next', tst := true, false, next, s.tstLfsr;
    if |x.bytes| >= MAX_DATA || x.dataStart + 2 + offset > |x.bytes| {
      return;
    }
    if |x.bytes| < 3 {
      return false, false, next, tst;
    }
    var right := CrcRight(x);
    if !right {
      return;
    }
    if x.bytes[0] == next {
      if accept {
        next' := ToggleAdvance(next);
      }
      ok := accept;
    }
    var length := |x.bytes| - 3;
    if s.checking {
      if length < offset {
        return false, false, next, tst;
      }
      var same, lfsr := ContentRight(Payload(x), s, offset);
      ok := ok && same;
      if accept && ok {
        tst := lfsr;
      }
    }
  }

  lemma RedrawnIs(s: Stream)
    ensures Redrawn(s) == if s.retrying && s.nretries > 0 then s.(nretries := s.nretries - 1)
                          else s.(nretries := Retries(s.retryLfsr), retryLfsr := Lfsr(s.retryLfsr))
  {
    hide Lfsr, Retries;
    if s.retrying && s.nretries > 0 {
      assert Redrawn(s) == s.(nretries := s.nretries - 1, retryLfsr := s.retryLfsr);
    }
  }

  /** The signature's verdict, then the content's. */
  lemma ExamineIs(x: Desc, s0: Stream, next0: bv8, s: Stream, next: bv8, offset: nat, offered: bool)
    requires RxShape(x)
    requires if !s0.sigExpected then offered && s == s0 && next == next0 && offset == 0 else
             var g := CheckSig(x, s0, next0);
             offered == g.ok && s == s0.(tstSeq := g.seqNo, tstLfsr := g.tst) && next == g.next
               && offset == if g.ok then SIGNATURE else 0
    ensures Examine(x, s0, next0) == if s0.sigExpected && offered
      && s.xfr != Isochronous then Taken(true, false, s, next)
                                     else Contents(x, s, next, offset, offered)
  {
    hide CheckSig, Contents, RxShape;
  }

  lemma KeptQueues(a: seq<seq<Desc>>, b: seq<seq<Desc>>, id: nat)
    requires |a| == SLOTS && id < MAX_STREAMS && b == a[HELD := []][RECEIVED(id) := a[RECEIVED(id)] + a[HELD]]
    ensures Queues(b) == Queues(a)[id := a[RECEIVED(id)] + a[HELD]] && b[SENDING] == a[SENDING]
      && b[RECVING] == a[RECVING]
  {}

  lemma OneReceived(slots: seq<seq<Desc>>)
    requires |slots| == SLOTS && |slots[RECVING]| == 1
    ensures First(slots[RECVING]) == Some(slots[RECVING][0])
  {}

  lemma StolenQueues(a: seq<seq<Desc>>, b: seq<seq<Desc>>)
    requires |a| == SLOTS && b == a[RECVING := []][HELD := a[RECVING]]
    ensures Queues(b) == Queues(a) && b[SENDING] == a[SENDING] && b[RECVING] == [] && First(b[RECVING]) == None
      && b[HELD] == a[RECVING]
    ensures forall id :: 0 <= id < MAX_STREAMS ==> b[RECEIVED(id)] == a[RECEIVED(id)]
  {}

  lemma VerdictBounds(c: Ctx, x: Desc)
    requires ValidCtx(c) && RxShape(x)
    ensures c.streamIn < |c.streams| && Ep(c.streamIn) < |c.epIn|
  {
    Lengths(c);
    Bounds(c);
    hide ValidCtx;
  }

  lemma TakeFaults(c: Ctx, x: Desc)
    requires ValidCtx(c) && RxShape(x) && c.streamIn < |c.streams| && Ep(c.streamIn) < |c.epIn|
    requires Verdict(c.streams[c.streamIn], x, c.epIn[Ep(c.streamIn)]).Broken?
    ensures TakeData(c, x) == Fault
  {
    hide ValidCtx, RxShape, Verdict;
  }

  lemma TakeDone(c: Ctx, d: Ctx, x: Desc, s1: Stream, next: bv8, accept: bool, keep: bool)
    requires ValidCtx(c) && RxShape(x) && |c.streams| == MAX_STREAMS && |c.queues| == MAX_STREAMS
      && |c.epIn| == MAX_ENDPOINTS
    requires c.streamIn < MAX_STREAMS && c.sending.Some?
    requires Verdict(c.streams[c.streamIn], x, c.epIn[Ep(c.streamIn)]) == Taken(accept, keep, s1, next)
    requires d == c.(hostSt := HS_STREAMOUT, queues := d.queues, epIn := d.epIn, streams := d.streams,
      sending := d.sending,
                     transmitting := d.transmitting)
    requires var id := c.streamIn;
      && d.queues == (if keep then c.queues[id := c.queues[id] + [x]] else c.queues) && d.epIn == c.epIn[Ep(id) := next]
      && (if s1.xfr == Isochronous then
            && d.streams == c.streams[id := s1] && d.sending == c.sending && d.transmitting == c.transmitting
          else
            && d.streams == c.streams[id := s1.(sigExpected := s1.sigExpected && !accept)]
            && d.sending == Some(Status(accept)) && d.transmitting)
    ensures TakeData(c, x) == Next(d)
  {
    hide ValidCtx, RxShape, Verdict;
  }

  lemma FirstIs<T>(q: seq<T>)
    ensures First(q).Some? == (q != []) && (q != [] ==> First(q).value == q[0])
  {}

  lemma ReplyNone(c: Ctx, d: Ctx)
    requires ValidCtx(c) && c.hostSt == HS_ACKIFDATA && c.streamIn < |c.streams| && d == c.(hostSt := d.hostSt)
    requires var t := c.streams[c.streamIn].xfr;
      if t == Control then d.hostSt == HS_ERROR
      else if c.recving.Some? && c.busState == DataState(t) then
        && !IsToggle(c.lastPid)
        && d.hostSt == if c.lastPid != PID_NAK then HS_NEXTFRAME else if t == Isochronous
          then HS_ERROR else HS_STREAMOUT
      else d.hostSt == if c.tickBits >= c.wait then HS_ERROR else HS_ACKIFDATA
    ensures ServeReply(c) == Next(d)
  {
    hide ValidCtx, TakeData;
  }

  lemma ReplyHasData(c: Ctx)
    requires ValidCtx(c) && c.streamIn < |c.streams| && c.recving.Some? && RxShape(c.recving.value)
      && ValidCtx(c.(recving := None))
    requires c.streams[c.streamIn].xfr != Control && c.busState == DataState(c.streams[c.streamIn].xfr)
      && IsToggle(c.lastPid)
    ensures ServeReply(c) == TakeData(c.(recving := None), c.recving.value)
  {
    hide ValidCtx, TakeData;
  }

  lemma Unreceived(c: Ctx)
    requires ValidCtx(c)
    ensures ValidCtx(c.(recving := None))
  {
    hide Toggles, StreamsOk;
  }

  lemma AllocatedQueues(a: seq<seq<Desc>>, b: seq<seq<Desc>>, c: seq<seq<Desc>>, s: nat)
    requires |a| == SLOTS && a[FREE] != [] && (s == SENDING || s == RECVING)
    requires b == a[FREE := a[FREE][1..]][HELD := [BLANK]] && c == b[HELD := []][s := b[HELD]]
    ensures Queues(c) == Queues(a) && c[s] == [BLANK] && First(c[s]) == Some(BLANK)
    ensures s == SENDING ==> c[RECVING] == a[RECVING]
    ensures s == RECVING ==> c[SENDING] == a[SENDING]
  {}

  /** Only what is being sent differs. */
  lemma Resent(c: Ctx, d: Ctx)
    requires ValidCtx(c) && d == c.(sending := d.sending, transmitting := d.transmitting)
    ensures ValidCtx(d) && Interlude(c, d)
  {
    hide Toggles, StreamsOk;
  }

  lemma Observed(c: Ctx, d: Ctx)
    requires ValidCtx(c) && d == c.(lastPid := d.lastPid, busState := d.busState, tickBits := d.tickBits)
      && d.tickBits < TWO32
    ensures ValidCtx(d) && Interlude(c, d)
  {
    hide Toggles, StreamsOk, RxShape;
  }

  lemma Retimed(c: Ctx, d: Ctx)
    requires ValidCtx(c) && d == c.(frameStart := d.frameStart) && d.frameStart < TWO32
    ensures ValidCtx(d) && Used(d) == Used(c)
  {
    hide Toggles, StreamsOk;
  }

  lemma Restarted(c: Ctx, d: Ctx)
    requires ValidCtx(c) && d == c.(hostSt := HS_STARTFRAME, frameStart := c.tickBits, sending := d.sending,
      transmitting := d.transmitting)
    ensures ValidCtx(d) && (c.hostSt != HS_WAITACK && c.hostSt != HS_ERROR ==> Interlude(c, d))
  {
    hide Toggles, StreamsOk;
  }

  lemma SofSmall(frame: nat)
    ensures (frame % 128) as bv8 < 0x80 && ((frame / 128) % 16) as bv8 < 0x10
    ensures SofDesc(frame) == Desc(TokenBytes(PID_SOF, (frame % 128) as bv8, ((frame / 128) % 16) as bv8),
      NO_DATA_STAGE)
    ensures |TokenBytes(PID_SOF, (frame % 128) as bv8, ((frame / 128) % 16) as bv8)| == 3
  {
    hide TokenBytes;
  }

  lemma EventsSplit(bytes: seq<bv8>)
    ensures |UsbMonitor.PacketEvents(bytes)| >= 2
  {}

  lemma ReceivedIs(bytes: seq<bv8>)
    requires bytes != [] && |bytes| <= MAX_DATA
    ensures RxShape(Reception.Arrived(bytes))
  {}

  lemma Rereceived(c: Ctx, d: Ctx)
    requires ValidCtx(c) && d == c.(recving := d.recving) && d.recving.Some? && RxShape(d.recving.value)
    ensures ValidCtx(d) && Interlude(c, d)
  {
    hide Toggles, StreamsOk, RxShape;
  }

  lemma QueueAt(slots: seq<seq<Desc>>, id: nat)
    requires |slots| == SLOTS && id < MAX_STREAMS
    ensures |Queues(slots)| == MAX_STREAMS && Queues(slots)[id] == slots[RECEIVED(id)]
  {}

  lemma SettledShape(c: Ctx)
    requires Settled(c)
    ensures |c.streams| == MAX_STREAMS && |c.queues| == MAX_STREAMS
  {}

  lemma Begun(a: seq<Stream>, q: seq<seq<Desc>>, types: seq<XfrType>, u: Setup)
    requires |a| == MAX_STREAMS && |q| == MAX_STREAMS
    ensures InitStreams(a, 0, types, u) == a && InitQueues(q, 0) == q && Total(q[..0]) == 0
  {}

  lemma Started(a: seq<Stream>, id: nat, types: seq<XfrType>, u: Setup)
    requires |a| == MAX_STREAMS && id < MAX_STREAMS && id < |types|
    ensures InitStreams(a, id, types, u)[id := Initial(id, types[id], u)] == InitStreams(a, id + 1, types, u)
  {}

  /** What dropping one more list adds. */
  lemma Forgotten(q: seq<seq<Desc>>, id: nat)
    requires |q| == MAX_STREAMS && id < MAX_STREAMS
    ensures InitQueues(q, id)[id] == q[id] && InitQueues(q, id)[id := []] == InitQueues(q, id + 1)
    ensures Total(q[..id + 1]) == Total(q[..id]) + |q[id]|
  {
    assert q[..id + 1] == q[..id] + [q[id]];
    TotalConcat(q[..id], [q[id]]);
    assert [q[id]][1..] == [];
  }

  lemma TimeLeftIs(c: Ctx)
    requires ValidCtx(c)
    ensures TimeLeft(c) == (c.frameStart + FRAME_INTERVAL - c.tickBits) % TWO32
  {}

  lemma OneSending(slots: seq<seq<Desc>>)
    requires |slots| == SLOTS && |slots[SENDING]| == 1
    ensures First(slots[SENDING]) == Some(slots[SENDING][0])
  {}

  /** Nothing but the descriptor being sent and the free list differ. */
  predicate OnlySending(a: seq<seq<Desc>>, b: seq<seq<Desc>>) {
    && |a| == SLOTS && |b| == SLOTS
    && forall s :: 0 <= s < SLOTS && s != FREE && s != SENDING && s != HELD ==> a[s] == b[s]
  }

  lemma OnlySendingQueues(a: seq<seq<Desc>>, b: seq<seq<Desc>>)
    requires OnlySending(a, b)
    ensures Queues(a) == Queues(b) && a[RECVING] == b[RECVING]
  {}

  lemma ReleasedSending(a: seq<seq<Desc>>, b: seq<seq<Desc>>)
    requires |a| == SLOTS && b == a[SENDING := []][FREE := a[SENDING] + a[FREE]] && a[SENDING] != []
    ensures |b| == SLOTS && b[FREE] != [] && OnlySending(a, b)
      && forall id :: 0 <= id < MAX_STREAMS ==> b[RECEIVED(id)] == a[RECEIVED(id)]
  {}

  lemma BuiltSending(a: seq<seq<Desc>>, b: seq<seq<Desc>>, c: seq<seq<Desc>>, d: seq<seq<Desc>>)
    requires OnlySending(a, b) && OnlyHeld(b, c) && d == c[HELD := []][SENDING := c[HELD]]
    ensures OnlySending(a, d) && d[SENDING] == c[HELD]
  {}

  lemma ReplyLength(x: Desc, s: Stream, id: nat, next: bv8, device: bv8)
    requires Kept(x, s.xfr) && id < MAX_STREAMS && ReplyFits(x)
    ensures 1 <= |Reply(x, s, id, next, device).bytes| <= MAX_DATA
  {
    hide TokenBytes, ReplyData, Kept;
  }

  /** Nothing but the held descriptor and the free list differ. */
  predicate OnlyHeld(a: seq<seq<Desc>>, b: seq<seq<Desc>>) {
    |a| == SLOTS && |b| == SLOTS && forall s :: 0 <= s < SLOTS && s != FREE && s != HELD ==> a[s] == b[s]
  }

  lemma OnlyHeldSet(a: seq<seq<Desc>>, b: seq<seq<Desc>>, q: seq<Desc>)
    requires OnlyHeld(a, b)
    ensures OnlyHeld(a, b[HELD := q])
  {}

  lemma OnlyHeldQueues(a: seq<seq<Desc>>, b: seq<seq<Desc>>)
    requires OnlyHeld(a, b)
    ensures Queues(a) == Queues(b) && a[SENDING] == b[SENDING] && a[RECVING] == b[RECVING]
  {}

  lemma EndpointSmall(id: nat)
    requires id < MAX_STREAMS
    ensures Ep(id) as bv8 < 0x10
  {}

  lemma KeptShort(x: Desc, t: XfrType)
    requires Kept(x, t)
    ensures 3 <= |x.bytes| < MAX_DATA && x.dataStart == 0 && |Payload(x)| == |x.bytes| - 3
      && (t == Isochronous ==> |Payload(x)| >= SIGNATURE)
  {}

  lemma ReplyBytes(x: Desc, s: Stream, id: nat, next: bv8, device: bv8)
    requires Kept(x, s.xfr) && id < MAX_STREAMS
    ensures var t := TokenBytes(PID_OUT, device, Ep(id) as bv8);
      Reply(x, s, id, next, device) == Desc((t + [next]) + ReplyData(x, s) + Crc16Bytes(ReplyData(x, s)), 3)
  {
    hide TokenBytes, Kept, ReplyData, Crc16Bytes;
    var t, data := TokenBytes(PID_OUT, device, Ep(id) as bv8), ReplyData(x, s);
    assert t + DataBytes(next, data) == (t + [next]) + data + Crc16Bytes(data);
  }

  /** The data field of the reply: an isochronous packet keeps its signature but for the LFSR value. */
  method Scrambles(x: Desc, s: Stream) returns (out: seq<bv8>, lfsr: bv8)
    requires Kept(x, s.xfr)
    ensures out == ReplyData(x, s) && lfsr == LfsrAt(s.dpiLfsr, Scrambled(x, s))
  {
    KeptShort(x, s.xfr);
    hide Kept, LfsrAt, Scramble;
    var data := Payload(x);
    if s.xfr == Isochronous {
      var rest, end := Combine(data[SIGNATURE..], s.dpiLfsr);
      return data[..4] + [s.dpiLfsr] + data[5..SIGNATURE] + rest, end;
    }
    out, lfsr := Combine(data, s.dpiLfsr);
  }

  /** A host as a streaming test begins with it: created, and its streams initialised. Every descriptor is in
      the pool, and every stream that sends and is not isochronous is where its history starts. */
  method Launch(n: nat, types: seq<XfrType>, u: Setup) returns (h: Host)
    requires 1 <= n <= MAX_STREAMS && n <= |types|
    ensures fresh(h) && fresh(h.pool) && fresh(h.pool.next) && fresh(h.pool.desc)
    ensures h.Valid() && h.pool.lost == 0 && Used(h.View()) == 0 && !h.transmitting
    ensures h.View().nstreams == n && h.View().streamIn == 0 && h.View().streamOut == n - 1
    ensures u.send ==> forall id :: 0 <= id < n && types[id] != Isochronous ==> Fresh(h.View(), id)
  {
    hide Pool.Valid, Pool.Slots, Host.View, ValidCtx, Settled, Fresh, Initial, InitStreams, InitQueues, Used, Queues,
      First;
    h := new Host();
    ghost var c := h.View();
    h.Fields();
    InitFresh(c, n, types, u);
    InitUnused(c, n, types, u);
    var ok := h.StreamsInit(n, types, u);
    h.Fields();
  }

  lemma InitUnused(c: Ctx, n: nat, types: seq<XfrType>, u: Setup)
    requires Settled(c) && 1 <= n <= MAX_STREAMS && n <= |types| && Used(c) == 0
    ensures var d := Init(c, n, types, u);
      && d.Some? && Used(d.value) == 0 && d.value.lost == c.lost && d.value.transmitting == c.transmitting
  {
    SettledShape(c);
    NoneUsed(c.queues);
    var q := c.queues;
    forall i | 0 <= i < MAX_STREAMS
      ensures InitQueues(q, n)[i] == []
    {}
    NoneIn(q[..n]);
    NoneIn(InitQueues(q, n));
    hide Settled, Initial, InitStreams, Total, InitQueues;
  }

  lemma {:induction false} NoneUsed(q: seq<seq<Desc>>)
    requires Total(q) == 0
    ensures forall i :: 0 <= i < |q| ==> q[i] == []
  {
    if q != [] {
      NoneUsed(q[1..]);
    }
  }
}
