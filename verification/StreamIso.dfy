/** Isochronous streams: what is taken from the device, in which order, and what the device can read in the replies. */
module StreamIso {
  import opened CrcRoutines
  import opened Transfer
  import opened Streams
  import opened StreamPackets
  import opened StreamMoves
  import opened StreamRuns

  // ---- Replies -----------------------------------------------------------------------------------------

  /** The device can read data field r as what it sent, d: the signature is the one it sent but for the fifth byte,
      which is the LFSR value that the data behind it were combined with, so combining them again from there gives
      them back. */
  predicate Readable(d: seq<bv8>, r: seq<bv8>) {
    && |r| == |d| >= 16 && r[..4] == d[..4] && r[5..16] == d[5..16]
    && forall i :: 16 <= i < |d| ==> r[i] ^ LfsrAt(r[4], i - 16) == d[i]
  }

  /** The device can read an isochronous reply, from the host's own LFSR value. */
  lemma IsoReplyReadable(x: Desc, s: Stream)
    requires Kept(x, s.xfr) && s.xfr == Isochronous
    ensures Readable(Payload(x), ReplyData(x, s)) && ReplyData(x, s)[4] == s.dpiLfsr
  {
    var d, r := Payload(x), ReplyData(x, s);
    var head, tail := d[..4] + [s.dpiLfsr] + d[5..SIGNATURE], Scramble(d[SIGNATURE..], s.dpiLfsr);
    assert r == head + tail && |head| == 16;
    assert r[..4] == head[..4] && r[5..16] == head[5..16];
    forall i | 16 <= i < |d|
      ensures r[i] ^ LfsrAt(r[4], i - 16) == d[i]
    {
      assert r[i] == tail[i - 16] && d[SIGNATURE..][i - 16] == d[i];
      Twice(d[i], LfsrAt(s.dpiLfsr, i - 16));
    }
  }

  lemma Twice(a: bv8, b: bv8)
    ensures (a ^ b) ^ b == a
  {}

  /** The bytes of an OUT transfer: behind the token this PID and a data field that the device can read as p, from
      this LFSR value, before the CRC16. */
  predicate Reads(p: seq<bv8>, b: seq<bv8>, pid: bv8, lfsr: bv8) {
    && |b| == |p| + 6 >= 22 && b[3] == pid && Readable(p, b[4..|b| - 2]) && b[4..|b| - 2][4] == lfsr
  }

  /** What a host sends when it serves an isochronous stream reads so, with the endpoint's toggle, and the next reply
      goes on where its LFSR stream ends. */
  lemma IsoSent(c: Ctx)
    requires ValidCtx(c) && ServeOut(c).Next? && c.hostSt != HS_WAITACK && ServeOut(c).c.hostSt == HS_WAITACK
    requires c.streams[NextId(c.streamOut, c.nstreams)].xfr == Isochronous
    ensures var id, d := NextId(c.streamOut, c.nstreams), ServeOut(c).c;
      && id < |c.queues| && c.queues[id] != [] && Kept(c.queues[id][0], Isochronous) && d.sending.Some?
      && d.transmitting && |d.streams| == MAX_STREAMS && d.busState == IsoOut && d.queues == c.queues
      && var p, s := Payload(c.queues[id][0]), c.streams[id];
         && Reads(p, d.sending.value.bytes, c.epOut[1 + id], s.dpiLfsr)
         && d.streams[id].dpiLfsr == LfsrAt(s.dpiLfsr, |p| - 16)
  {
    Lengths(c);
    Bounds(c);
    var id := NextId(c.streamOut, c.nstreams);
    hide ValidCtx, ServeOut, LfsrAt, ReplyData, Reply, Readable, Toggles, StreamsOk, Kept, Reads, NextId;
    OutIso(c);
    IsoReads(c.queues[id][0], c.streams[id], id, c.epOut[1 + id], c.devAddr);
  }

  lemma IsoReads(x: Desc, s: Stream, id: nat, next: bv8, device: bv8)
    requires Kept(x, s.xfr) && s.xfr == Isochronous && id < MAX_STREAMS
    ensures Reads(Payload(x), Reply(x, s, id, next, device).bytes, next, s.dpiLfsr)
  {
    IsoReplyReadable(x, s);
    IsoFields(x, s, id, next, device);
    assert |Payload(x)| >= 16;
    hide Readable, Reply, ReplyData;
  }

  lemma IsoFields(x: Desc, s: Stream, id: nat, next: bv8, device: bv8)
    requires Kept(x, s.xfr) && id < MAX_STREAMS
    ensures var b, r := Reply(x, s, id, next, device).bytes, ReplyData(x, s);
      |b| == |r| + 6 && b[3] == next && b[4..|b| - 2] == r
  {
    hide Crc16Bytes, TokenBytes, ReplyData;
    var r := ReplyData(x, s);
    var b := TokenBytes(PID_OUT, device, Ep(id) as bv8) + DataBytes(next, r);
    assert b[4..|b| - 2] == r;
  }

  lemma OutIso(c: Ctx)
    requires ValidCtx(c) && ServeOut(c).Next? && c.hostSt != HS_WAITACK && ServeOut(c).c.hostSt == HS_WAITACK
    requires NextId(c.streamOut, c.nstreams) < |c.streams|
      && c.streams[NextId(c.streamOut, c.nstreams)].xfr == Isochronous
    ensures var id, d := NextId(c.streamOut, c.nstreams), ServeOut(c).c;
      && id < |c.queues| == |c.streams| == MAX_STREAMS && c.queues[id] != [] && Kept(c.queues[id][0], Isochronous)
      && var s, x := c.streams[id], c.queues[id][0];
         && |d.streams| == MAX_STREAMS && d.streams[id].dpiLfsr == LfsrAt(s.dpiLfsr, |Payload(x)| - 16)
         && 1 + id < |c.epOut| && d.sending == Some(Reply(x, s, id, c.epOut[1 + id], c.devAddr)) && d.transmitting
         && d.busState == IsoOut && d.queues == c.queues
  {
    Lengths(c);
    Bounds(c);
    var id := NextId(c.streamOut, c.nstreams);
    StreamAt(c, id);
    hide ValidCtx, TimeLeft, Reply, LfsrAt, Payload, ReplyFits;
  }

  // ---- What is taken -----------------------------------------------------------------------------------

  function Nat(b: bv8): (n: nat)
    ensures n < 0x100
  {
    b as nat
  }

  /** A little-endian word of four bytes. */
  function Word32(b: seq<bv8>, at: nat): nat
    requires at + 4 <= |b|
  {
    Nat(b[at]) + 0x100 * Nat(b[at + 1]) + 0x1_0000 * Nat(b[at + 2]) + 0x100_0000 * Nat(b[at + 3])
  }

  /** The packet's number, in the seventh and eighth byte of its signature. */
  function Number(x: Desc): (n: nat)
    requires |x.bytes| >= 19
    ensures n < 0x1_0000
  {
    Nat(x.bytes[7]) + 0x100 * Nat(x.bytes[8])
  }

  /** A data packet that carries a signature, as a number of words: the two marks and a sensible length. */
  predicate Marked(x: Desc) {
    && x.dataStart == 0 && |x.bytes| >= 19
    && Word32(x.bytes, 1) == 0x579EA01A && Word32(x.bytes, 13) == 0x160AE975 && 0 < Word32(x.bytes, 9) < 0x1000_0000
  }

  lemma WordBytes(b: seq<bv8>, at: nat, a0: bv8, a1: bv8, a2: bv8, a3: bv8)
    requires at + 4 <= |b|
    ensures Word32(b, at) == Nat(a0) + 0x100 * Nat(a1) + 0x1_0000 * Nat(a2) + 0x100_0000 * Nat(a3)
      <==> b[at..at + 4] == [a0, a1, a2, a3]
  {
    hide *;
    WordIs(b, at);
    var x0, x1, x2, x3 := b[at], b[at + 1], b[at + 2], b[at + 3];
    FourBytes(b, at, a0, a1, a2, a3);
    SameByte(x0, a0);
    SameByte(x1, a1);
    SameByte(x2, a2);
    SameByte(x3, a3);
    Places(Nat(x0), Nat(x1), Nat(x2), Nat(x3), Nat(a0), Nat(a1), Nat(a2), Nat(a3));
  }

  lemma WordIs(b: seq<bv8>, at: nat)
    requires at + 4 <= |b|
    ensures Word32(b, at)
      == Nat(b[at]) + 0x100 * Nat(b[at + 1]) + 0x1_0000 * Nat(b[at + 2]) + 0x100_0000 * Nat(b[at + 3])
  {
    hide Nat;
  }

  lemma FourBytes(b: seq<bv8>, at: nat, a0: bv8, a1: bv8, a2: bv8, a3: bv8)
    requires at + 4 <= |b|
    ensures b[at..at + 4] == [a0, a1, a2, a3] <==> b[at] == a0 && b[at + 1] == a1 && b[at + 2] == a2 && b[at + 3] == a3
  {
    assert b[at..at + 4] == [b[at], b[at + 1], b[at + 2], b[at + 3]];
  }

  lemma SameByte(a: bv8, b: bv8)
    ensures a == b <==> Nat(a) == Nat(b)
  {}

  lemma Places(x0: nat, x1: nat, x2: nat, x3: nat, a0: nat, a1: nat, a2: nat, a3: nat)
    requires x0 < 0x100 && x1 < 0x100 && x2 < 0x100 && a0 < 0x100 && a1 < 0x100 && a2 < 0x100
    ensures x0 + 0x100 * x1 + 0x1_0000 * x2 + 0x100_0000 * x3 == a0 + 0x100 * a1 + 0x1_0000 * a2 + 0x100_0000 * a3
      <==> x0 == a0 && x1 == a1 && x2 == a2 && x3 == a3
  {
    Place(x0, x1 + 0x100 * x2 + 0x1_0000 * x3, a0, a1 + 0x100 * a2 + 0x1_0000 * a3);
    Place(x1, x2 + 0x100 * x3, a1, a2 + 0x100 * a3);
    Place(x2, x3, a2, a3);
  }

  lemma Place(x: nat, y: nat, a: nat, b: nat)
    requires x < 0x100 && a < 0x100
    ensures x + 0x100 * y == a + 0x100 * b <==> x == a && y == b
  {}

  lemma Constants()
    ensures Nat(0x1A) + 0x100 * Nat(0xA0) + 0x1_0000 * Nat(0x9E) + 0x100_0000 * Nat(0x57) == 0x579EA01A
    ensures Nat(0x75) + 0x100 * Nat(0xE9) + 0x1_0000 * Nat(0x0A) + 0x100_0000 * Nat(0x16) == 0x160AE975
    ensures Nat(0) == 0
  {}

  /** The marks as the check of the bytes has them. */
  lemma MarkedIs(x: Desc)
    ensures Marked(x) <==> x.dataStart == 0 && |x.bytes| >= 19 && WellSigned(x.bytes[1..])
    ensures |x.bytes| >= 19 ==> Number(x) == SeqNo(x.bytes[1..])
  {
    if |x.bytes| >= 19 {
      var sig, b := x.bytes[1..], x.bytes;
      NumberIs(x);
      Constants();
      TopByte(b);
      assert sig[..4] == b[1..5] && sig[8..12] == b[9..13] && sig[12..16] == b[13..17] && sig[11] == b[12];
      hide Nat, Word32, Number, SeqNo;
      WordBytes(b, 1, 0x1A, 0xA0, 0x9E, 0x57);
      WordBytes(b, 13, 0x75, 0xE9, 0x0A, 0x16);
    }
  }

  lemma NumberIs(x: Desc)
    requires |x.bytes| >= 19
    ensures Number(x) == SeqNo(x.bytes[1..])
  {}

  lemma TopByte(b: seq<bv8>)
    requires |b| >= 19
    ensures Word32(b, 9) < 0x1000_0000 <==> b[12] < 0x10
    ensures Word32(b, 9) == 0 <==> b[9..13] == [0, 0, 0, 0]
  {
    WordBytes(b, 9, 0, 0, 0, 0);
    Constants();
    assert b[12] < 0x10 <==> Nat(b[12]) < 0x10;
    assert Word32(b, 9) == Nat(b[9]) + 0x100 * Nat(b[10]) + 0x1_0000 * Nat(b[11]) + 0x100_0000 * Nat(b[12]);
    hide Nat, Word32;
  }

  /** A packet whose signature is in sequence: its number is not below the one expected. */
  predicate Sequenced(x: Desc, s: Stream) { Marked(x) && Number(x) >= s.tstSeq }

  /** And whose content is right: DATA0, the CRC16 and, with checking, the bytes behind the signature, which follow from
      the LFSR value in it. */
  predicate Delivers(x: Desc, s: Stream) {
    && Sequenced(x, s) && Intact(x) && x.bytes[0] == PID_DATA0
    && (s.checking ==> x.bytes[17..|x.bytes| - 2] == LfsrSeq(x.bytes[5], |x.bytes| - 19))
  }

  /** An isochronous stream takes exactly such packets. A signature in sequence moves the expected number behind its own
      and the LFSR to its own, whatever the content is worth. */
  lemma IsoTaken(x: Desc, s: Stream, next: bv8)
    requires RxShape(x) && IsToggle(next) && s.xfr == Isochronous && s.sigExpected && !TooShort(x)
    ensures var r := Examine(x, s, next);
      && r.Taken? && r.keep == r.accept && (r.accept <==> Delivers(x, s))
      && r.s.tstSeq == (if Sequenced(x, s) then (Number(x) + 1) % 0x1_0000 else s.tstSeq)
      && r.s.tstLfsr == (if !Sequenced(x, s) then s.tstLfsr
                         else if Delivers(x, s) && s.checking then LfsrAt(x.bytes[5], |x.bytes| - 19) else x.bytes[5])
      && r.next == (if !Sequenced(x, s) then next
                    else if Intact(x) && x.bytes[0] == PID_DATA0 then PID_DATA1 else PID_DATA0)
  {
    IsoExamined(x, s, next);
    if Sequenced(x, s) {
      assert |x.bytes| >= 19 && x.dataStart == 0;
      hide *;
      IsoContent(x, s.(tstSeq := (Number(x) + 1) % 0x1_0000, tstLfsr := x.bytes[5]));
      DeliversIs(x, s);
    } else {
      hide *;
      Plain(x, s, next, false);
      DeliversIs(x, s);
    }
  }

  lemma DeliversIs(x: Desc, s: Stream)
    ensures Delivers(x, s) ==> Sequenced(x, s)
    ensures Sequenced(x, s) ==>
      && |x.bytes| >= 19
      && var n := |x.bytes| - 19;
         Delivers(x, s) <==>
           Intact(x) && x.bytes[0] == PID_DATA0 && (s.checking ==> x.bytes[17..n + 17] == LfsrSeq(x.bytes[5], n))
  {
    hide Intact, LfsrSeq;
  }

  lemma IsoExamined(x: Desc, s: Stream, next: bv8)
    requires RxShape(x) && s.xfr == Isochronous && s.sigExpected
    ensures Examine(x, s, next) ==
      if Sequenced(x, s) then
        Contents(x, s.(tstSeq := (Number(x) + 1) % 0x1_0000, tstLfsr := x.bytes[5]), PID_DATA0, SIGNATURE, true)
      else Contents(x, s, next, 0, false)
  {
    IsoSigned(x, s, next);
    hide CheckSig, Contents, Sequenced, Number, RxShape;
  }

  lemma IsoSigned(x: Desc, s: Stream, next: bv8)
    requires RxShape(x) && s.xfr == Isochronous
    ensures CheckSig(x, s, next) ==
      if Sequenced(x, s) then SigChecked(true, (Number(x) + 1) % 0x1_0000, x.bytes[5], PID_DATA0)
      else SigChecked(false, s.tstSeq, s.tstLfsr, next)
  {
    MarkedIs(x);
    hide WellSigned, SeqNo, Marked;
  }

  lemma IsoContent(x: Desc, s: Stream)
    requires RxShape(x) && x.dataStart == 0 && |x.bytes| >= 19
    ensures Contents(x, s, PID_DATA0, SIGNATURE, true) ==
      var n := |x.bytes| - 19;
      var good := Intact(x) && x.bytes[0] == PID_DATA0 && (s.checking ==> x.bytes[17..n + 17] == LfsrSeq(s.tstLfsr, n));
      Taken(good, good, s.(tstLfsr := if good && s.checking then LfsrAt(s.tstLfsr, n) else s.tstLfsr),
            if Intact(x) && x.bytes[0] == PID_DATA0 then PID_DATA1 else PID_DATA0)
  {
    assert Payload(x)[16..] == x.bytes[17..|x.bytes| - 2];
    hide LfsrAt, LfsrSeq, Crc16Bytes;
  }

  // ---- Over runs ---------------------------------------------------------------------------------------

  /** A number stays, grows, or starts over. */
  predicate Onward(a: nat, b: nat) { a <= b || b == 0 }

  /** What a step may do to a retrieving isochronous stream: a packet is added behind the others, and it is in
      sequence; or none is, and at most the number expected moves on. */
  predicate IsoStep(s: Stream, q: seq<Desc>, t: Stream, r: seq<Desc>) {
    && t.xfr == s.xfr && t.retrieve == s.retrieve
    && (if |r| > |q| then
          && r == q + [r[|q|]] && |r[|q|].bytes| >= 19 && Number(r[|q|]) >= s.tstSeq
          && t.tstSeq == (Number(r[|q|]) + 1) % 0x1_0000
        else Onward(s.tstSeq, t.tstSeq))
  }

  /** The stream is isochronous and retrieves. */
  predicate IsoIn(c: Ctx, id: nat)
    requires ValidCtx(c) && id < MAX_STREAMS
  {
    c.streams[id].xfr == Isochronous && c.streams[id].retrieve
  }

  predicate StepsIso(c: Ctx, d: Ctx, id: nat)
    requires ValidCtx(c) && ValidCtx(d) && id < MAX_STREAMS
  {
    IsoStep(c.streams[id], c.queues[id], d.streams[id], d.queues[id])
  }

  /** Nothing is added, and the number stays. */
  predicate StaysIso(c: Ctx, o: Outcome, id: nat)
    requires id < |c.streams| && id < |c.queues|
  {
    o.Next? ==>
      && |o.c.streams| == |c.streams| && |o.c.queues| == |c.queues| && |o.c.queues[id]| <= |c.queues[id]|
      && var s, t := c.streams[id], o.c.streams[id]; t.xfr == s.xfr && t.retrieve == s.retrieve && t.tstSeq == s.tstSeq
  }

  lemma OutStays(c: Ctx, id: nat)
    requires ValidCtx(c) && id < MAX_STREAMS && IsoIn(c, id)
    ensures |c.streams| == |c.queues| == MAX_STREAMS && StaysIso(c, ServeOut(c), id)
  {
    Lengths(c);
    hide ValidCtx, TimeLeft, NextId, Reply, LfsrAt, OutState, Scrambled, ReplyFits;
  }

  lemma AckStays(c: Ctx, id: nat)
    requires ValidCtx(c) && id < MAX_STREAMS && IsoIn(c, id)
    ensures |c.streams| == |c.queues| == MAX_STREAMS && StaysIso(c, ServeAck(c), id)
  {
    Lengths(c);
    hide ValidCtx, AnswerTo, ToggleAdvance;
  }

  lemma InStays(c: Ctx, id: nat)
    requires ValidCtx(c) && id < MAX_STREAMS && IsoIn(c, id)
    ensures |c.streams| == |c.queues| == MAX_STREAMS && StaysIso(c, ServeIn(c), id)
  {
    Lengths(c);
    hide ValidCtx, TimeLeft, NextId, Generated, LfsrAt, InState, TokenBytes, ToggleAdvance, Used;
  }

  lemma StaysSteps(c: Ctx, id: nat, o: Outcome)
    requires ValidCtx(c) && id < MAX_STREAMS && o.Next? && ValidCtx(o.c) && |c.streams| == |c.queues| == MAX_STREAMS
    requires StaysIso(c, o, id)
    ensures StepsIso(c, o.c, id)
  {
    hide ValidCtx, Number;
  }

  lemma ReplySteps(c: Ctx, id: nat)
    requires ValidCtx(c) && id < MAX_STREAMS && c.hostSt == HS_ACKIFDATA && ServeReply(c).Next?
    requires ValidCtx(ServeReply(c).c) && IsoIn(c, id)
    ensures StepsIso(c, ServeReply(c).c, id)
  {
    Lengths(c);
    ToggleAt(c, c.streamIn);
    StreamAt(c, c.streamIn);
    var c1, t := c.(recving := None), c.streams[c.streamIn].xfr;
    Again(c, c1);
    if Answered(c, t) && IsToggle(c.lastPid) {
      hide ValidCtx, RxShape, WithoutData, TakeData, StepsIso, Toggles, StreamsOk;
      TakeSteps(c1, c.recving.value, id);
    } else {
      hide ValidCtx, RxShape, WithoutData, TakeData, Number;
    }
  }

  lemma TakeSteps(c: Ctx, x: Desc, id: nat)
    requires ValidCtx(c) && id < MAX_STREAMS && RxShape(x) && TakeData(c, x).Next? && ValidCtx(TakeData(c, x).c)
    requires IsoIn(c, id)
    ensures StepsIso(c, TakeData(c, x).c, id)
  {
    Lengths(c);
    StreamAt(c, c.streamIn);
    ToggleAt(c, c.streamIn);
    var s, q, next := c.streams[id], c.queues[id], c.epIn[Ep(c.streamIn)];
    hide ValidCtx, Verdict, RxShape, IsToggle, Number, Onward, Toggles, StreamsOk, TakeData, IsoStep, StaysIso;
    if id != c.streamIn {
      TakeAside(c, x, id);
      StaysSteps(c, id, TakeData(c, x));
    } else {
      TakeHere(c, x);
      VerdictIso(x, s, next);
      var r := Verdict(s, x, next);
      KeptIso(s, q, r.s, if r.keep then q + [x] else q, x, r.keep);
    }
  }

  lemma TakeAside(c: Ctx, x: Desc, id: nat)
    requires ValidCtx(c) && id < MAX_STREAMS && RxShape(x) && TakeData(c, x).Next? && id != c.streamIn
    ensures |c.streams| == |c.queues| == MAX_STREAMS && StaysIso(c, TakeData(c, x), id)
  {
    Lengths(c);
    hide ValidCtx, RxShape, Decide, Status;
  }

  lemma TakeHere(c: Ctx, x: Desc)
    requires ValidCtx(c) && RxShape(x) && TakeData(c, x).Next? && ValidCtx(TakeData(c, x).c)
    requires c.streamIn < |c.streams| && c.streams[c.streamIn].xfr == Isochronous && Ep(c.streamIn) < |c.epIn|
    requires IsToggle(c.epIn[Ep(c.streamIn)]) && c.streams[c.streamIn].sigExpected
    ensures var id, d := c.streamIn, TakeData(c, x).c;
      var r := Verdict(c.streams[id], x, c.epIn[Ep(id)]);
      && |d.streams| == |d.queues| == |c.queues| == |c.streams| == MAX_STREAMS
      && r.Taken? && d.streams[id] == r.s && d.queues[id] == if r.keep then c.queues[id] + [x] else c.queues[id]
  {
    Lengths(c);
    VerdictIso(x, c.streams[c.streamIn], c.epIn[Ep(c.streamIn)]);
    hide ValidCtx, RxShape, Verdict, Status, Number, Onward, IsToggle;
  }

  lemma KeptIso(s: Stream, q: seq<Desc>, t: Stream, r: seq<Desc>, x: Desc, keep: bool)
    requires t.xfr == s.xfr && t.retrieve == s.retrieve && r == if keep then q + [x] else q
    requires if keep then |x.bytes| >= 19 && Number(x) >= s.tstSeq && t.tstSeq == (Number(x) + 1) % 0x1_0000
             else Onward(s.tstSeq, t.tstSeq)
    ensures IsoStep(s, q, t, r)
  {
    hide Number, Onward;
  }

  /** What the decision about a packet does to an isochronous stream. */
  lemma VerdictIso(x: Desc, s: Stream, next: bv8)
    requires RxShape(x) && IsToggle(next) && (s.xfr == Isochronous ==> s.sigExpected)
    ensures var r := Verdict(s, x, next);
      s.xfr == Isochronous && r.Taken? ==>
        && r.s.xfr == s.xfr && r.s.retrieve == s.retrieve && (r.keep <==> Delivers(x, s))
        && (if r.keep then |x.bytes| >= 19 && Number(x) >= s.tstSeq && r.s.tstSeq == (Number(x) + 1) % 0x1_0000
            else Onward(s.tstSeq, r.s.tstSeq))
  {
    if s.xfr == Isochronous {
      assert Counted(s) == s
        && (Verdict(s, x, next) == Examine(x, s, next) || Verdict(s, x, next) == Taken(false, false, s, next));
      ExaminedIso(x, s, next);
      if !TooShort(x) {
        IsoTaken(x, s, next);
        SequencedIs(x, s);
      }
      DeliversIs(x, s);
      hide Verdict, Examine, Delivers, Sequenced, TooShort, LfsrAt, Intact, RxShape, Number, Counted, Willing, IsToggle;
    }
  }

  lemma SequencedIs(x: Desc, s: Stream)
    ensures Sequenced(x, s) ==> |x.bytes| >= 19 && Number(x) >= s.tstSeq && Onward(s.tstSeq, (Number(x) + 1) % 0x1_0000)
  {
    hide Number;
    if Sequenced(x, s) {
      OnwardNext(s.tstSeq, Number(x));
    }
  }

  lemma OnwardNext(a: nat, n: nat)
    requires a <= n < 0x1_0000
    ensures Onward(a, (n + 1) % 0x1_0000)
  {
    if n == 0xFFFF {
      assert (n + 1) % 0x1_0000 == 0;
    } else {
      assert (n + 1) % 0x1_0000 == n + 1;
    }
  }

  /** A call that takes a packet from the device for an isochronous stream keeps it exactly if it is one to be taken. */
  lemma IsoLooked(c: Ctx)
    requires ValidCtx(c) && c.sending.Some? && c.hostSt == HS_ACKIFDATA && Service(c).Next?
    requires c.streams[c.streamIn].xfr == Isochronous && c.recving.Some? && Service(c).c.recving.None?
    ensures var id, x, d := c.streamIn, c.recving.value, Service(c).c;
      && id < |c.queues| && d.hostSt == HS_STREAMOUT
      && d.queues == if Delivers(x, c.streams[id]) then c.queues[id := c.queues[id] + [x]] else c.queues
  {
    Lengths(c);
    ToggleAt(c, c.streamIn);
    StreamAt(c, c.streamIn);
    var c1, x := c.(recving := None), c.recving.value;
    Again(c, c1);
    VerdictIso(x, c.streams[c.streamIn], c.epIn[Ep(c.streamIn)]);
    assert ServeReply(c) == TakeData(c1, x) by {
      hide ValidCtx, TakeData, WithoutData, RxShape;
    }
    hide ValidCtx, Verdict, RxShape, Delivers, Number, Onward, IsToggle, Toggles, StreamsOk, Status;
  }

  lemma ServiceIso(c: Ctx, id: nat)
    requires ValidCtx(c) && c.sending.Some? && id < MAX_STREAMS && Service(c).Next? && IsoIn(c, id)
    ensures ValidCtx(Service(c).c) && StepsIso(c, Service(c).c, id)
  {
    ServiceMoves(c, 0);
    hide ValidCtx, ServeOut, ServeAck, ServeIn, ServeReply, Number, StaysIso;
    match c.hostSt
    case HS_STARTFRAME => OutStays(c, id); StaysSteps(c, id, ServeOut(c));
    case HS_STREAMOUT => OutStays(c, id); StaysSteps(c, id, ServeOut(c));
    case HS_WAITACK => AckStays(c, id); StaysSteps(c, id, ServeAck(c));
    case HS_STREAMIN => InStays(c, id); StaysSteps(c, id, ServeIn(c));
    case HS_ACKIFDATA => ReplySteps(c, id);
    case _ =>
  }

  /** Anything else leaves the stream and its packets alone. */
  lemma StepIso(c: Ctx, d: Ctx, id: nat)
    requires ValidCtx(c) && ValidCtx(d) && id < MAX_STREAMS && Step(c, d) && IsoIn(c, id)
    ensures StepsIso(c, d, id) && IsoIn(d, id)
  {
    hide ValidCtx, Service;
    if !Interlude(c, d) {
      ServiceIso(c, id);
    }
  }

  /** The numbers of the packets kept in a run. */
  function Numbers(cs: seq<Ctx>, id: nat): seq<nat>
    requires Run(cs) && id < MAX_STREAMS
  {
    var n := |cs| - 1;
    if n == 0 then []
    else
      var q, r := cs[n - 1].queues[id], cs[n].queues[id];
      Numbers(cs[..n], id) + if |r| > |q| && |r[|r| - 1].bytes| >= 19 then [Number(r[|r| - 1])] else []
  }

  predicate Small(nums: seq<nat>) { forall k :: 0 <= k < |nums| ==> nums[k] < 0xFFFF }

  /** The expected number has not started over: it does so only behind number 0xFFFF. */
  predicate NoWrap(cs: seq<Ctx>, id: nat)
    requires Run(cs) && id < MAX_STREAMS
  {
    (forall k :: 0 <= k < |cs| - 1 ==> cs[k].streams[id].tstSeq <= cs[k + 1].streams[id].tstSeq)
    && Small(Numbers(cs, id))
  }

  predicate Ascending(nums: seq<nat>, bound: nat) {
    (forall k :: 0 <= k < |nums| ==> nums[k] < bound) && forall j, k :: 0 <= j < k < |nums| ==> nums[j] < nums[k]
  }

  /** What the last step adds. */
  function Added(q: seq<Desc>, r: seq<Desc>): seq<nat> {
    if |r| > |q| && |r[|r| - 1].bytes| >= 19 then [Number(r[|r| - 1])] else []
  }

  lemma AscendingOn(nums: seq<nat>, s: Stream, q: seq<Desc>, t: Stream, r: seq<Desc>)
    requires Ascending(nums, s.tstSeq) && IsoStep(s, q, t, r) && s.tstSeq <= t.tstSeq
    requires Small(Added(q, r))
    ensures Ascending(nums + Added(q, r), t.tstSeq)
  {
    hide Number;
    if |r| > |q| {
      assert Added(q, r) == [Number(r[|q|])] && Added(q, r)[0] < 0xFFFF;
    }
  }

  lemma LastNumbers(cs: seq<Ctx>, id: nat)
    requires Run(cs) && id < MAX_STREAMS && NoWrap(cs, id) && |cs| > 1
    ensures var n := |cs| - 1;
      && Run(cs[..n]) && cs[..n][0] == cs[0] && cs[..n][|cs[..n]| - 1] == cs[n - 1] && NoWrap(cs[..n], id)
      && Numbers(cs, id) == Numbers(cs[..n], id) + Added(cs[n - 1].queues[id], cs[n].queues[id])
      && cs[n - 1].streams[id].tstSeq <= cs[n].streams[id].tstSeq
      && Small(Added(cs[n - 1].queues[id], cs[n].queues[id]))
  {
    var n := |cs| - 1;
    Shorter(cs);
    NumbersUnfold(cs, id);
    SmallParts(Numbers(cs[..n], id), Added(cs[n - 1].queues[id], cs[n].queues[id]));
    assert forall k :: 0 <= k < n ==> cs[..n][k] == cs[k];
    hide Number, ValidCtx, Step, Numbers, Small, Added;
  }

  lemma SmallParts(a: seq<nat>, b: seq<nat>)
    ensures Small(a + b) ==> Small(a) && Small(b)
  {
    assert forall k :: 0 <= k < |a| ==> a[k] == (a + b)[k];
    assert forall k :: 0 <= k < |b| ==> b[k] == (a + b)[|a| + k];
  }

  lemma NumbersUnfold(cs: seq<Ctx>, id: nat)
    requires Run(cs) && id < MAX_STREAMS && |cs| > 1 && Run(cs[..|cs| - 1])
    ensures var n := |cs| - 1;
      Numbers(cs, id) == Numbers(cs[..n], id) + Added(cs[n - 1].queues[id], cs[n].queues[id])
  {
    hide Number, ValidCtx, Step;
  }

  /** Over every run in which the numbers do not start over, the packets an isochronous stream keeps have ever higher
      numbers: none twice, none out of order, however many are lost. */
  lemma {:induction false} IsoInOrder(cs: seq<Ctx>, id: nat)
    requires Run(cs) && id < MAX_STREAMS && IsoIn(cs[0], id) && NoWrap(cs, id)
    ensures IsoIn(cs[|cs| - 1], id) && Ascending(Numbers(cs, id), cs[|cs| - 1].streams[id].tstSeq)
  {
    var n := |cs| - 1;
    if n > 0 {
      assert ValidCtx(cs[n - 1]) && ValidCtx(cs[n]) && Step(cs[n - 1], cs[n]);
      hide *;
      LastNumbers(cs, id);
      Lengths(cs[n - 1]);
      Lengths(cs[n]);
      IsoInOrder(cs[..n], id);
      StepIso(cs[n - 1], cs[n], id);
      StepsIsoIs(cs[n - 1], cs[n], id);
      AscendingOn(Numbers(cs[..n], id), cs[n - 1].streams[id], cs[n - 1].queues[id], cs[n].streams[id],
        cs[n].queues[id]);
    } else {
      assert Numbers(cs, id) == [];
    }
  }

  lemma StepsIsoIs(c: Ctx, d: Ctx, id: nat)
    requires ValidCtx(c) && ValidCtx(d) && id < MAX_STREAMS && StepsIso(c, d, id)
    ensures |c.streams| == |d.streams| == |c.queues| == |d.queues| == MAX_STREAMS
      && IsoStep(c.streams[id], c.queues[id], d.streams[id], d.queues[id])
  {
    Lengths(c);
    Lengths(d);
  }
}
