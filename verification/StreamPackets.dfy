/** What a stream makes of one packet from the device: exactly when it is accepted, and what becomes of the
    expected toggle and LFSR. */
module StreamPackets {
  import opened CrcRoutines
  import opened Transfer
  import opened Streams

  predicate SameSetup(s: Stream, t: Stream) {
    t.retrieve == s.retrieve && t.send == s.send && t.checking == s.checking && t.xfr == s.xfr
      && t.retrying == s.retrying
  }

  predicate SameOut(s: Stream, t: Stream) {
    t.dpiLfsr == s.dpiLfsr && t.rewindLfsr == s.rewindLfsr
  }

  /** A data packet that fits the buffer, with the CRC16 of its data field. */
  predicate Intact(x: Desc) {
    x.dataStart == 0 && 3 <= |x.bytes| < MAX_DATA && x.bytes[|x.bytes| - 2..] == Crc16Bytes(Payload(x))
  }

  predicate InTurn(x: Desc, next: bv8) { Intact(x) && x.bytes[0] == next }

  /** With checking on, the data field is the next stretch of the device's LFSR stream. */
  predicate AsExpected(x: Desc, s: Stream)
    requires Intact(x)
  {
    s.checking ==> Payload(x) == LfsrSeq(s.tstLfsr, |Payload(x)|)
  }

  predicate Good(x: Desc, s: Stream, next: bv8) { InTurn(x, next) && AsExpected(x, s) }

  /** A PID and one byte: long enough for the check's first test, too short for its arithmetic. */
  predicate TooShort(x: Desc) { x.dataStart == 0 && |x.bytes| == 2 }

  /** The stream's LFSR behind an accepted packet. */
  function Followed(x: Desc, s: Stream): bv8
    requires Intact(x)
  {
    if s.checking then LfsrAt(s.tstLfsr, |Payload(x)|) else s.tstLfsr
  }

  /** A packet of exactly PID, signature and CRC, in sequence. */
  predicate Signs(x: Desc, seqNo: nat) {
    |x.bytes| == 3 + SIGNATURE && x.dataStart == 0 && WellSigned(x.bytes[1..]) && SeqNo(x.bytes[1..]) == seqNo
  }

  // ---- stream_data_check -----------------------------------------------------------------------------

  /** The check of a packet without a signature: when it is undefined, what it accepts, and that the toggle
      advances for every packet in turn the host is willing to take, whatever its content. */
  lemma CheckedData(x: Desc, s: Stream, next: bv8, accept: bool)
    requires RxShape(x)
    ensures CheckData(x, s, next, 0, accept).Undefined? <==> TooShort(x)
    ensures !TooShort(x) ==> var r := CheckData(x, s, next, 0, accept);
      && r.ok == (accept && Good(x, s, next))
      && r.next == (if accept && InTurn(x, next) then ToggleAdvance(next) else next)
      && r.tst == (if r.ok then Followed(x, s) else s.tstLfsr)
  {
    hide LfsrAt, LfsrSeq, Crc16Bytes, ToggleAdvance;
    if |x.bytes| >= 3 && x.dataStart == 0 {
      assert Payload(x)[0..] == Payload(x);
    }
  }

  lemma Plain(x: Desc, s: Stream, next: bv8, accept: bool)
    requires RxShape(x)
    ensures Contents(x, s, next, 0, accept) ==
      if TooShort(x) then Broken
      else var ok := accept && Good(x, s, next);
        Taken(ok, ok, s.(tstLfsr := if ok then Followed(x, s) else s.tstLfsr),
              if accept && InTurn(x, next) then ToggleAdvance(next) else next)
  {
    CheckedData(x, s, next, accept);
    hide CheckData, Good, InTurn, Followed, TooShort, ToggleAdvance;
  }

  // ---- Streams with one signature --------------------------------------------------------------------

  /** Past its signature a stream takes exactly the good packets. */
  lemma ExaminedPlain(x: Desc, s: Stream, next: bv8)
    requires RxShape(x) && s.xfr != Isochronous && !s.sigExpected
    ensures Examine(x, s, next) ==
      if TooShort(x) then Broken
      else Taken(Good(x, s, next), Good(x, s, next),
        s.(tstLfsr := if Good(x, s, next) then Followed(x, s) else s.tstLfsr),
                 if InTurn(x, next) then ToggleAdvance(next) else next)
  {
    Plain(x, s, next, true);
    hide Contents, Good, InTurn, Followed, TooShort, ToggleAdvance;
  }

  lemma CheckedSig(x: Desc, s: Stream, next: bv8)
    requires RxShape(x) && s.xfr != Isochronous
    ensures CheckSig(x, s, next) ==
      if Signs(x, s.tstSeq) then SigChecked(true, (s.tstSeq + 1) % 0x1_0000, x.bytes[5], ToggleAdvance(x.bytes[0]))
      else SigChecked(false, s.tstSeq, s.tstLfsr, next)
  {
    hide WellSigned, SeqNo, ToggleAdvance;
  }

  /** Before that it takes exactly the signature, and follows the device's LFSR from its fifth byte. */
  lemma ExaminedSign(x: Desc, s: Stream, next: bv8)
    requires RxShape(x) && s.xfr != Isochronous && s.sigExpected
    ensures Examine(x, s, next) ==
      if Signs(x, s.tstSeq) then
        Taken(true, false, s.(tstSeq := (s.tstSeq + 1) % 0x1_0000, tstLfsr := x.bytes[5]), ToggleAdvance(x.bytes[0]))
      else if TooShort(x) then Broken
      else Taken(false, false, s, next)
  {
    CheckedSig(x, s, next);
    Plain(x, s, next, false);
    hide CheckSig, Contents, WellSigned, SeqNo, ToggleAdvance, Good, InTurn, Followed, TooShort;
  }

  // ---- Isochronous streams ---------------------------------------------------------------------------

  lemma ExaminedIso(x: Desc, s: Stream, next: bv8)
    requires RxShape(x) && IsToggle(next) && s.xfr == Isochronous && s.sigExpected
    ensures Examine(x, s, next).Broken? <==> TooShort(x)
    ensures !TooShort(x) ==> var r := Examine(x, s, next);
      && r.s == s.(tstSeq := r.s.tstSeq, tstLfsr := r.s.tstLfsr) && IsToggle(r.next)
        && (r.keep ==> r.accept && Kept(x, s.xfr))
  {
    hide CheckSig, Contents, Good, InTurn, Followed, Kept, ToggleAdvance;
    var g := CheckSig(x, s, next);
    IsoSig(x, s, next);
    var s1 := s.(tstSeq := g.seqNo, tstLfsr := g.tst);
    if g.ok {
      IsoContents(x, s1, g.next);
    } else {
      Plain(x, s1, g.next, false);
    }
  }

  lemma ToggleStays(pid: bv8)
    ensures IsToggle(ToggleAdvance(pid))
      && (IsToggle(pid) ==> ToggleAdvance(pid) != pid && ToggleAdvance(ToggleAdvance(pid)) == pid)
  {}

  lemma IsoSig(x: Desc, s: Stream, next: bv8)
    requires RxShape(x) && IsToggle(next) && s.xfr == Isochronous
    ensures var g := CheckSig(x, s, next);
      IsToggle(g.next) && (g.ok ==> x.dataStart == 0 && |x.bytes| >= 3 + SIGNATURE)
  {
    hide WellSigned, SeqNo;
  }

  lemma IsoContents(x: Desc, s: Stream, next: bv8)
    requires RxShape(x) && IsToggle(next) && s.xfr == Isochronous && x.dataStart == 0 && |x.bytes| >= 3 + SIGNATURE
    ensures var r := Contents(x, s, next, SIGNATURE, true);
      r.Taken? && r.s == s.(tstLfsr := r.s.tstLfsr) && IsToggle(r.next) && (r.keep ==> r.accept && Kept(x, s.xfr))
  {
    hide LfsrAt, LfsrSeq, Crc16Bytes;
  }

  // ---- The decision as a whole -------------------------------------------------------------------------

  lemma RedrawnKeeps(s: Stream)
    ensures Redrawn(s) == s.(nretries := Redrawn(s).nretries, retryLfsr := Redrawn(s).retryLfsr)
  {
    hide Lfsr, Retries;
  }

  /** Counting a decision changes nothing but the two retry fields. */
  lemma CountedKeeps(s: Stream)
    ensures Counted(s) == s.(nretries := Counted(s).nretries, retryLfsr := Counted(s).retryLfsr)
  {
    RedrawnKeeps(s);
    hide Redrawn;
    if s.xfr == Isochronous {
      assert Counted(s) == s;
    } else {
      assert Counted(s) == Redrawn(s);
    }
  }

  /** The check's arithmetic is undefined for exactly one shape of packet, and only where the packet is
      looked at: a PID and one byte. */
  lemma VerdictBroken(s: Stream, x: Desc, next: bv8)
    requires RxShape(x) && IsToggle(next) && (s.xfr == Isochronous ==> s.sigExpected)
    ensures Verdict(s, x, next).Broken? <==> s.xfr != Isochronous && !(s.retrying && s.nretries > 0) && TooShort(x)
  {
    var t := Counted(s);
    CountedKeeps(s);
    if t.xfr == Isochronous {
      ExaminedIso(x, t, next);
    } else if t.sigExpected {
      ExaminedSign(x, t, next);
    } else {
      ExaminedPlain(x, t, next);
    }
    hide Counted, Examine, WellSigned, SeqNo, Good, InTurn, Followed, ToggleAdvance;
  }

  /** It happens: DATA0 and one byte, to a stream that is new. */
  lemma VerdictBrokenExample(s: Stream)
    requires s.xfr == Bulk && !s.retrying
    ensures RxShape(Desc([PID_DATA0, 0], 0)) && Verdict(s, Desc([PID_DATA0, 0], 0), PID_DATA0).Broken?
  {
    VerdictBroken(s, Desc([PID_DATA0, 0], 0), PID_DATA0);
    hide Verdict;
  }

  // ---- The toggle runs ahead -------------------------------------------------------------------------

  /** A packet in turn whose content is not the expected one. */
  predicate Slips(x: Desc, s: Stream, next: bv8) {
    s.checking && InTurn(x, next) && Payload(x) != LfsrSeq(s.tstLfsr, |Payload(x)|)
  }

  /** A stream past its signature refuses a packet it looks at and yet advances the expected toggle exactly
      if the packet is in turn, with a right CRC16, and its content is wrong. */
  lemma RefusedButAdvanced(x: Desc, s: Stream, next: bv8)
    requires RxShape(x) && IsToggle(next) && s.xfr != Isochronous && !s.sigExpected && !TooShort(x)
    ensures var r := Examine(x, s, next); !r.accept && r.next != next <==> Slips(x, s, next)
  {
    ExaminedPlain(x, s, next);
    ToggleStays(next);
    hide Examine, Intact, Followed, LfsrSeq, ToggleAdvance, TooShort;
  }

  /** From then on a packet with the old PID, the device's retransmission with the right content too, is
      refused and leaves toggle and LFSR where they are: the device cannot make up for it. */
  lemma LeftBehind(x: Desc, y: Desc, s: Stream, next: bv8)
    requires RxShape(x) && RxShape(y) && IsToggle(next) && s.xfr != Isochronous && !s.sigExpected
    requires Slips(x, s, next) && y.bytes[0] == x.bytes[0] && !TooShort(y)
    ensures var r := Examine(x, s, next);
      r.Taken? && Examine(y, r.s, r.next) == Taken(false, false, r.s, r.next) && r.next == ToggleAdvance(next)
  {
    ExaminedPlain(x, s, next);
    ToggleStays(next);
    var r := Examine(x, s, next);
    ExaminedPlain(y, r.s, r.next);
    hide Examine, Intact, Followed, LfsrSeq, ToggleAdvance;
  }

  /** It happens: a wrong byte under DATA0, then the packet the stream is waiting for, under DATA0 again. */
  lemma LeftBehindExample(s: Stream) returns (x: Desc, y: Desc)
    requires s.xfr == Bulk && s.checking && !s.sigExpected && s.tstLfsr == 0x10
    ensures RxShape(x) && RxShape(y) && x.bytes[0] == y.bytes[0] == PID_DATA0
    ensures Examine(y, s, PID_DATA0).Taken? && Examine(y, s, PID_DATA0).accept
    ensures Examine(x, s, PID_DATA0) == Taken(false, false, s, PID_DATA1)
    ensures Examine(y, s, PID_DATA1) == Taken(false, false, s, PID_DATA1)
  {
    hide Examine, Generated, Intact, LfsrSeq, Followed;
    x, y := Desc(DataBytes(PID_DATA0, [0x11]), 0), Generated(s, PID_DATA0, 1);
    DataIntact(PID_DATA0, [0x11]);
    GeneratedGood(s, PID_DATA0, 1);
    assert LfsrSeq(s.tstLfsr, 1)[0] == LfsrAt(s.tstLfsr, 0) == 0x10;
    assert Payload(x)[0] != LfsrSeq(s.tstLfsr, 1)[0];
    ExaminedPlain(x, s, PID_DATA0);
    ExaminedPlain(y, s, PID_DATA0);
    LeftBehind(x, y, s, PID_DATA0);
  }

  // ---- Packets the host makes up -----------------------------------------------------------------------

  lemma DataIntact(pid: bv8, data: seq<bv8>)
    requires |data| < MAX_DATA - 3
    ensures var x := Desc(DataBytes(pid, data), 0); Intact(x) && Payload(x) == data && x.bytes[0] == pid
  {
    hide Crc16Bytes;
    var b := DataBytes(pid, data);
    assert b[1..|b| - 2] == data && b[|b| - 2..] == Crc16Bytes(data);
  }

  /** A generated packet is good for the stream it was generated for. */
  lemma GeneratedGood(s: Stream, next: bv8, len: nat)
    requires len < MAX_DATA - 3
    ensures var x := Generated(s, next, len);
      Good(x, s, next) && Payload(x) == LfsrSeq(s.tstLfsr, len) && |x.bytes| == len + 3 && x.dataStart == 0
  {
    hide LfsrSeq, Intact, DataBytes;
    DataIntact(next, LfsrSeq(s.tstLfsr, len));
  }

  /** A generated packet passes the check from the state it was generated in, and both leave the same toggle
      and, with checking on, the same LFSR. */
  lemma GeneratorAgrees(s: Stream, next: bv8, len: nat)
    requires s.checking && len < MAX_DATA - 3
    ensures CheckData(Generated(s, next, len), s, next, 0, true)
         == Checked(true, ToggleAdvance(next), LfsrAt(s.tstLfsr, len))
  {
    GeneratedGood(s, next, len);
    CheckedData(Generated(s, next, len), s, next, true);
    hide CheckData, Generated, LfsrAt, LfsrSeq, Intact, ToggleAdvance;
  }

  // ---- Room for the reply ----------------------------------------------------------------------------

  /** The reply's buffer has room exactly for up to 66 payload bytes. */
  lemma ReplyRoom(x: Desc, t: XfrType)
    requires Kept(x, t)
    ensures ReplyFits(x) <==> |Payload(x)| <= 66
  {}

  /** A packet may be accepted and then not be answered: it is so for 67 to 69 payload bytes, and for no
      others. */
  lemma AcceptedUnanswerable(x: Desc, s: Stream, next: bv8)
    requires RxShape(x) && s.xfr != Isochronous && !s.sigExpected && Examine(x, s, next).Taken?
      && Examine(x, s, next).keep
    ensures Kept(x, s.xfr) && |Payload(x)| <= 69 && (!ReplyFits(x) <==> 67 <= |Payload(x)| <= 69)
  {
    ExaminedPlain(x, s, next);
    hide Examine, LfsrSeq;
  }

  lemma AcceptedUnanswerableExample(s: Stream, next: bv8)
    requires s.xfr == Bulk && s.checking && !s.sigExpected
    ensures var x := Generated(s, next, 67);
      RxShape(x) && Examine(x, s, next).Taken? && Examine(x, s, next).keep && !ReplyFits(x)
  {
    GeneratedGood(s, next, 67);
    ExaminedPlain(Generated(s, next, 67), s, next);
    hide Examine, Generated, LfsrSeq, Intact;
  }
}
