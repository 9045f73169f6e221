/** The CRC routines of the C model and of the SystemVerilog driver, against the registers of UsbCrc. */
module CrcRoutines {
  import opened BitSeq
  import opened UsbCrc
  import opened Words
  import Seqs

  /** The concatenation {c[n-2:0], 1'b0}. */
  function PushZero(c: Bits): (r: Bits)
    ensures |r| == |c| && forall i :: 0 <= i < |c| ==> r[i] == (i > 0 && c[i - 1])
  {
    seq(|c|, i requires 0 <= i < |c| => i > 0 && c[i - 1])
  }

  const POLY5: Bits := ByteBits(0x14)[..5]
  const POLY16: Bits := Word16(0xA0, 0x01)

  function Crc16Of(data: seq<bv8>): (r: Bits)
    ensures |r| == 16
  {
    Crc(POLY16, BytesBits(data))
  }

  function Crc5Of(bits: Bits): (r: Bits)
    ensures |r| == 5
  {
    Crc(POLY5, bits)
  }

  // ---- C routines ---------------------------------------------------------------------------

  /** CRC16 of the first `bytes` bytes; a negative count covers no data. */
  method CRC16(data: seq<bv8>, bytes: int) returns (crc16: Uint32)
    requires bytes <= |data|
    ensures crc16 == Extend(Crc16Of(data[..Max(bytes, 0)]))
  {
    ghost var c := Fill(true, 16);
    crc16 := Extend(Word16(0xFF, 0xFF));
    LowConstants();
    var i := 0;
    while i < bytes
      invariant 0 <= i <= Max(bytes, 0)
      invariant c == Feed(Fill(true, 16), POLY16, BytesBits(data[..i]))
      invariant crc16 == Extend(c)
    {
      crc16 := Crc16Byte(crc16, data[i], c);
      FeedByte(Fill(true, 16), data, i);
      c := Feed(c, POLY16, ByteBits(data[i]));
      i := i + 1;
    }
    Complement(c);
    crc16 := Xor(crc16, Extend(Word16(0xFF, 0xFF)));
  }

  /** The inner loop of CRC16. */
  method Crc16Byte(crc: Uint32, d: bv8, ghost c: Bits) returns (crc16: Uint32)
    requires |c| == 16 && crc == Extend(c)
    ensures crc16 == Extend(Feed(c, POLY16, ByteBits(d)))
  {
    hide *;
    var poly16 := Extend(Word16(0xA0, 0x01));
    LowConstants();
    PolyLengths();
    crc16 := crc;
    var udata := Extend(ByteBits(d));
    ghost var b := ByteBits(d);
    var bit := 8;
    NothingFed(c, POLY16, b);
    NothingShifted(Extend(b));
    while bit > 0
      invariant 0 <= bit <= 8
      invariant udata == ShrBy(Extend(b), 8 - bit)
      invariant crc16 == Extend(Feed(c, POLY16, b[..8 - bit]))
    {
      RightTurn(crc16, c, POLY16, b, 8 - bit);
      ShrMore(Extend(b), 8 - bit);
      if udata[0] != crc16[0] {
        crc16 := Xor(ShrBy(crc16, 1), poly16);
      } else {
        crc16 := ShrBy(crc16, 1);
      }
      udata := ShrBy(udata, 1);
      bit := bit - 1;
    }
  }

  lemma PolyLengths()
    ensures |POLY16| == 16 && |POLY5| == 5
  {}

  lemma NothingFed(c: Bits, poly: Bits, bits: Bits)
    requires |c| == |poly| > 0
    ensures Feed(c, poly, bits[..0]) == c && bits[..|bits|] == bits
  {}

  lemma NothingFedHigh(c: Bits, poly: Bits, bits: Bits)
    requires |c| == |poly| > 0
    ensures HighFeed(c, poly, bits[..0]) == c && bits[..|bits|] == bits
  {}

  lemma NothingShifted(w: Uint32)
    ensures ShrBy(w, 0) == w
  {}

  lemma CrcIs(poly: Bits, bits: Bits)
    requires poly == POLY5
    ensures |poly| == 5 && Crc5Of(bits) == Not(Feed(Fill(true, 5), poly, bits))
  {}

  function Max(a: int, b: int): int { if a < b then b else a }

  lemma Complement(c: Bits)
    requires |c| <= 32
    ensures Xor(Extend(c), Extend(Fill(true, |c|))) == Extend(Not(c))
  {}

  /** One turn of a right-shifting loop consumes bit k. */
  lemma RightTurn(crc: Uint32, c: Bits, poly: Bits, bits: Bits, k: nat)
    requires 0 < |c| == |poly| < 32 && k < |bits|
    requires crc == Extend(Feed(c, poly, bits[..k]))
    ensures Extend(Feed(c, poly, bits[..k + 1]))
         == if bits[k] != crc[0] then Xor(ShrBy(crc, 1), Extend(poly)) else ShrBy(crc, 1)
  {
    FeedSnoc(c, poly, bits, k);
    RightStep(Feed(c, poly, bits[..k]), poly, bits[k]);
  }

  lemma RightStep(c: Bits, poly: Bits, b: bool)
    requires 0 < |c| == |poly| < 32
    ensures Extend(Step(c, poly, b))
         == if c[0] != b then Xor(ShrBy(Extend(c), 1), Extend(poly)) else ShrBy(Extend(c), 1)
  {}

  lemma FeedByte(seed: Bits, data: seq<bv8>, i: nat)
    requires |seed| == 16 && i < |data|
    ensures Feed(seed, POLY16, BytesBits(data[..i + 1]))
         == Feed(Feed(seed, POLY16, BytesBits(data[..i])), POLY16, ByteBits(data[i]))
  {
    hide *;
    PolyLength();
    Seqs.Slices(data, i);
    BytesBitsConcat(data[..i], [data[i]]);
    BytesBitsOne(data[i]);
    FeedConcat(seed, POLY16, BytesBits(data[..i]), ByteBits(data[i]));
  }

  lemma PolyLength()
    ensures |POLY16| == 16
  {}

  /** CRC5 over the low n bits of a word, low bit first. */
  method CRC5(dwInput: Uint32, iBitcnt: int) returns (crc5: Uint32)
    ensures crc5 == if 1 <= iBitcnt <= 32 then Extend(Crc5Of(dwInput[..iBitcnt])) else Fill(true, 32)
  {
    hide *;
    var poly5 := Extend(ByteBits(0x14)[..5]);
    crc5 := Extend(ByteBits(0x1F)[..5]);
    ghost var seed := Fill(true, 5);
    LowConstants();
    var udata := dwInput;
    if iBitcnt < 1 || iBitcnt > 32 {
      return Fill(true, 32);
    }
    var n := iBitcnt;
    CrcIs(POLY5, dwInput[..iBitcnt]);
    PolyLengths();
    NothingFed(seed, POLY5, dwInput);
    NothingShifted(dwInput);
    while n > 0
      invariant 0 <= n <= iBitcnt
      invariant udata == ShrBy(dwInput, iBitcnt - n)
      invariant crc5 == Extend(Feed(seed, POLY5, dwInput[..iBitcnt - n]))
    {
      LowTurn(crc5, seed, POLY5, dwInput, iBitcnt, n);
      if udata[0] != crc5[0] {
        crc5 := Xor(ShrBy(crc5, 1), poly5);
      } else {
        crc5 := ShrBy(crc5, 1);
      }
      udata := ShrBy(udata, 1);
      n := n - 1;
    }
    Complement(Feed(seed, POLY5, dwInput[..iBitcnt]));
    crc5 := Xor(crc5, Extend(ByteBits(0x1F)[..5]));
  }

  /** One turn of the left-shifting loop consumes bit k. */
  lemma LeftTurn(crc: Uint32, c: Bits, poly: Bits, bits: Bits, k: nat)
    requires 0 < |c| == |poly| < 32 && k < |bits|
    requires crc == TopAligned(HighFeed(c, poly, bits[..k]))
    ensures TopAligned(HighFeed(c, poly, bits[..k + 1]))
         == if bits[k] != crc[31] then Xor(ShlBy(crc, 1), TopAligned(poly)) else ShlBy(crc, 1)
  {
    HighFeedSnoc(c, poly, bits, k);
    LeftStep(HighFeed(c, poly, bits[..k]), poly, bits[k]);
  }

  lemma LeftStep(c: Bits, poly: Bits, b: bool)
    requires 0 < |c| == |poly| < 32
    ensures TopAligned(HighStep(c, poly, b))
         == if c[|c| - 1] != b then Xor(ShlBy(TopAligned(c), 1), TopAligned(poly)) else ShlBy(TopAligned(c), 1)
  {
    var s, w := TopAligned(HighStep(c, poly, b)), ShlBy(TopAligned(c), 1);
    var t := if c[|c| - 1] != b then Xor(w, TopAligned(poly)) else w;
    var n := |c|;
    forall i | 0 <= i < 32
      ensures s[i] == t[i]
    {
      assert w[i] == (i + n >= 33 && c[i + n - 33]);
    }
  }

  lemma ShlMore(w: Uint32, k: nat)
    ensures ShlBy(ShlBy(w, k), 1) == ShlBy(w, k + 1)
  {}

  lemma ShrMore(w: Uint32, k: nat)
    ensures ShrBy(ShrBy(w, k), 1) == ShrBy(w, k + 1)
  {}

  lemma TopBit(w: Uint32, n: nat, k: nat)
    requires 0 < k <= n <= 32
    ensures ShlBy(w, 32 - k)[31] == Reverse(w[..n])[n - k]
  {}

  lemma TopToLow(c: Bits)
    requires |c| == 5
    ensures Xor(ShrBy(TopAligned(c), 27), Extend(Fill(true, 5))) == Extend(Not(c))
  {}

  /** The register of CRC5_MSBfirst on the low n bits of a word, with m of them to go. */
  function HighAfter(w: Uint32, n: nat, m: nat): Uint32
    requires m <= n <= 32
  {
    TopAligned(HighFeed(Fill(true, 5), Reverse(POLY5), Reverse(w[..n])[..n - m]))
  }

  lemma HighTurn(w: Uint32, n: nat, m: nat)
    requires 0 < m <= n <= 32
    ensures var crc, udata := HighAfter(w, n, m), ShlBy(w, 32 - m);
      && ShlBy(udata, 1) == ShlBy(w, 32 - (m - 1))
      && HighAfter(w, n, m - 1)
           == if udata[31] != crc[31] then Xor(ShlBy(crc, 1), TopAligned(Reverse(POLY5))) else ShlBy(crc, 1)
  {
    var crc := HighAfter(w, n, m);
    assert crc == TopAligned(HighFeed(Fill(true, 5), Reverse(POLY5), Reverse(w[..n])[..n - m]));
    assert HighAfter(w, n, m - 1) == TopAligned(HighFeed(Fill(true, 5), Reverse(POLY5), Reverse(w[..n])[..n - m + 1]));
    hide *;
    LeftTurn(crc, Fill(true, 5), Reverse(POLY5), Reverse(w[..n]), n - m);
    TopBit(w, n, m);
    ShlMore(w, 32 - m);
  }

  lemma HighBegin(w: Uint32, n: nat)
    requires n <= 32
    ensures HighAfter(w, n, n) == TopAligned(Fill(true, 5))
  {
    NothingFedHigh(Fill(true, 5), Reverse(POLY5), Reverse(w[..n]));
  }

  /** One turn of CRC5, with m bits to go. */
  lemma LowTurn(crc: Uint32, c: Bits, poly: Bits, w: Uint32, n: nat, m: nat)
    requires 0 < |c| == |poly| < 32 && 0 < m <= n <= 32
    requires crc == Extend(Feed(c, poly, w[..n - m]))
    ensures ShrBy(ShrBy(w, n - m), 1) == ShrBy(w, n - (m - 1))
    ensures Extend(Feed(c, poly, w[..n - (m - 1)]))
         == if ShrBy(w, n - m)[0] != crc[0] then Xor(ShrBy(crc, 1), Extend(poly)) else ShrBy(crc, 1)
  {
    hide *;
    RightTurn(crc, c, poly, w, n - m);
    ShrMore(w, n - m);
  }

  /** CRC5 over the low n bits of a word, high bit first: the mirror image of CRC5 of the reversed bits. */
  method CRC5_MSBfirst(dwInput: Uint32, iBitcnt: int) returns (crc5: Uint32)
    ensures crc5 == if 1 <= iBitcnt <= 32 then Extend(Reverse(Crc5Of(Reverse(dwInput[..iBitcnt]))))
                    else Fill(true, 32)
  {
    if iBitcnt < 1 || iBitcnt > 32 {
      return Fill(true, 32);
    }
    hide *;
    var poly5 := ShlBy(Extend(ByteBits(0x05)[..5]), 27);
    crc5 := ShlBy(Extend(ByteBits(0x1F)[..5]), 27);
    var udata := ShlBy(dwInput, 32 - iBitcnt);
    var n := iBitcnt;
    TopConstants();
    HighBegin(dwInput, iBitcnt);
    while n > 0
      invariant 0 <= n <= iBitcnt
      invariant udata == ShlBy(dwInput, 32 - n)
      invariant crc5 == HighAfter(dwInput, iBitcnt, n)
    {
      HighTurn(dwInput, iBitcnt, n);
      if udata[31] != crc5[31] {
        crc5 := Xor(ShlBy(crc5, 1), poly5);
      } else {
        crc5 := ShlBy(crc5, 1);
      }
      udata := ShlBy(udata, 1);
      n := n - 1;
    }
    WholeHigh(dwInput, iBitcnt);
    crc5 := ShrBy(crc5, 27);
    crc5 := Xor(crc5, Extend(ByteBits(0x1F)[..5]));
  }

  lemma WholeHigh(w: Uint32, n: nat)
    requires n <= 32
    ensures Xor(ShrBy(HighAfter(w, n, 0), 27), Extend(Fill(true, 5))) == Extend(Reverse(Crc5Of(Reverse(w[..n]))))
  {
    var bits := Reverse(w[..n]);
    assert bits[..n] == bits && Crc5Of(bits) == Crc(POLY5, bits);
    assert HighAfter(w, n, 0) == TopAligned(HighFeed(Fill(true, 5), Reverse(POLY5), bits));
    hide *;
    TopToLow(HighFeed(Fill(true, 5), Reverse(POLY5), bits));
    CrcReflection(POLY5, bits);
  }

  lemma LowConstants()
    ensures Extend(ByteBits(0x14)[..5]) == Extend(POLY5) && Extend(ByteBits(0x1F)[..5]) == Extend(Fill(true, 5))
    ensures Extend(Word16(0xA0, 0x01)) == Extend(POLY16) && Extend(Word16(0xFF, 0xFF)) == Extend(Fill(true, 16))
  {
    assert ByteBits(0x1F)[..5] == Fill(true, 5) && Word16(0xFF, 0xFF) == Fill(true, 16);
  }

  lemma TopConstants()
    ensures ByteBits(0x1F)[..5] == Fill(true, 5) && ByteBits(0x05)[..5] == Reverse(POLY5)
    ensures ShlBy(Extend(ByteBits(0x05)[..5]), 27) == TopAligned(Reverse(POLY5))
    ensures ShlBy(Extend(ByteBits(0x1F)[..5]), 27) == TopAligned(Fill(true, 5))
  {
    assert ByteBits(0x05)[..5] == Reverse(POLY5);
  }

  // ---- SystemVerilog driver -----------------------------------------------------------------

  /** calc_crc5: a 5-bit register shifted left, so its value is the mirror image of the C one. */
  method CalcCrc5(data: Bits) returns (crc: Bits)
    requires |data| == 11
    ensures crc == Reverse(Crc5Of(data))
  {
    crc := ByteBits(0x1F)[..5];
    TopConstants();
    for i := 0 to 11
      invariant crc == HighFeed(Fill(true, 5), Reverse(POLY5), data[..i])
    {
      FoldTurn(crc, Fill(true, 5), Reverse(POLY5), data, i);
      var fb := data[i] != crc[4];
      crc := Xor(PushZero(crc), if fb then ByteBits(0x05)[..5] else Fill(false, 5));
    }
    assert data[..11] == data;
    CrcReflection(POLY5, data);
    crc := Not(crc);
  }

  /** One turn of the driver's loops consumes bit k. */
  lemma FoldTurn(crc: Bits, c: Bits, poly: Bits, bits: Bits, k: nat)
    requires |c| == |poly| > 0 && k < |bits|
    requires crc == HighFeed(c, poly, bits[..k])
    ensures HighFeed(c, poly, bits[..k + 1])
         == Xor(PushZero(crc), if bits[k] != crc[|crc| - 1] then poly else Fill(false, |poly|))
  {
    HighFeedSnoc(c, poly, bits, k);
    FoldStep(crc, poly, bits[k]);
  }

  lemma FoldStep(c: Bits, poly: Bits, b: bool)
    requires |c| == |poly| > 0
    ensures Xor(PushZero(c), if b != c[|c| - 1] then poly else Fill(false, |c|)) == HighStep(c, poly, b)
  {}

  /** calc_crc16: likewise for whole bytes. */
  method CalcCrc16(data: seq<bv8>) returns (crc: Bits)
    ensures crc == Reverse(Crc16Of(data))
  {
    crc := Word16(0xFF, 0xFF);
    ghost var bits := BytesBits(data);
    HighConstants();
    for i := 0 to |data|
      invariant crc == HighFeed(Fill(true, 16), Reverse(POLY16), bits[..8 * i])
    {
      BytesBitsAt(data, i);
      crc := CalcByte(crc, data[i], bits, 8 * i);
    }
    assert bits[..8 * |data|] == bits;
    CrcReflection(POLY16, bits);
    crc := Not(crc);
  }

  lemma HighConstants()
    ensures Word16(0xFF, 0xFF) == Fill(true, 16) && Word16(0x80, 0x05) == Reverse(POLY16)
  {}

  /** The inner loop of calc_crc16. */
  method CalcByte(crc: Bits, d: bv8, ghost bits: Bits, ghost at: nat) returns (next: Bits)
    requires at + 8 <= |bits| && forall b :: 0 <= b < 8 ==> bits[at + b] == Bit(d, b)
    requires crc == HighFeed(Fill(true, 16), Reverse(POLY16), bits[..at])
    ensures next == HighFeed(Fill(true, 16), Reverse(POLY16), bits[..at + 8])
  {
    next := crc;
    HighConstants();
    for b := 0 to 8
      invariant next == HighFeed(Fill(true, 16), Reverse(POLY16), bits[..at + b])
    {
      FoldTurn(next, Fill(true, 16), Reverse(POLY16), bits, at + b);
      var fb := Bit(d, b) != next[15];
      next := Xor(PushZero(next), if fb then Word16(0x80, 0x05) else Fill(false, 16));
    }
  }

  // ---- Theorems about the routines ----------------------------------------------------------

  /** Check bits of a data field as the two bytes a transfer carries, low byte first. */
  function Crc16Bytes(data: seq<bv8>): (r: seq<bv8>)
    ensures |r| == 2 && BytesBits(r) == Crc16Of(data)
  {
    var c := Crc16Of(data);
    var lo, hi := FromBits(c[..8]), FromBits(c[8..]);
    assert [lo, hi][1..] == [hi];
    BytesBitsOne(hi);
    assert BytesBits([lo, hi]) == c[..8] + c[8..] == c;
    [lo, hi]
  }

  /** The two bytes of a CRC16 as the C code computes it. */
  method Crc16Pair(data: seq<bv8>) returns (crc: seq<bv8>)
    ensures crc == Crc16Bytes(data)
  {
    var crc16 := CRC16(data, |data|);
    assert data[..|data|] == data;
    assert crc16[..8] == Crc16Of(data)[..8] && crc16[8..16] == Crc16Of(data)[8..];
    crc := [FromBits(crc16[..8]), FromBits(crc16[8..16])];
  }

  /** A data field followed by its CRC16 always has the CRC16 0x4FFE. */
  lemma Crc16Residue(data: seq<bv8>)
    ensures Crc16Of(data + Crc16Bytes(data)) == Word16(0x4F, 0xFE)
  {
    PolyLength();
    ResidueConstant();
    IdleSixteen(POLY16, 4);
    hide BytesBits, Idle, Word16, POLY16;
    BytesBitsConcat(data, Crc16Bytes(data));
    Residue(POLY16, BytesBits(data));
  }

  lemma ResidueConstant()
    ensures Not(Word16(0xB0, 0x01)) == Word16(0x4F, 0xFE)
  {
    assert Not(Word16(0xB0, 0x01)) == Word16(0x4F, 0xFE);
  }

  lemma IdleSixteen(poly: Bits, k: nat)
    requires poly == POLY16 && k == 4
    ensures Idle(Fill(true, |poly|), poly, |poly|) == Word16(0xB0, 0x01)
  {
    var seed := Fill(true, |poly|);
    Idle0to4();
    Idle4to8();
    Idle8to12();
    Idle12to16();
    IdleConcat(seed, poly, k, k);
    IdleConcat(seed, poly, k + k, k);
    IdleConcat(seed, poly, k + k + k, k);
  }

  lemma {:induction false} IdleConcat(c: Bits, poly: Bits, m: nat, n: nat)
    requires |c| == |poly| > 0
    ensures Idle(c, poly, m + n) == Idle(Idle(c, poly, m), poly, n)
    decreases m
  {
    if m > 0 {
      IdleConcat(Step(c, poly, false), poly, m - 1, n);
    }
  }

  lemma Idle0to4()
    ensures Idle(Fill(true, 16), POLY16, 4) == Word16(0x4B, 0xFF)
  {
    assert Word16(0xFF, 0xFF) == Fill(true, 16);
    IdleStates(POLY16, [Word16(0xFF, 0xFF), Word16(0xDF, 0xFE), Word16(0x6F, 0xFF), Word16(0x97, 0xFE), Word16(0x4B,
      0xFF)]);
  }

  lemma Idle4to8()
    ensures Idle(Word16(0x4B, 0xFF), POLY16, 4) == Word16(0x40, 0xBF)
  {
    IdleStates(POLY16, [Word16(0x4B, 0xFF), Word16(0x85, 0xFE), Word16(0x42, 0xFF), Word16(0x81, 0x7E), Word16(0x40,
      0xBF)]);
  }

  lemma Idle8to12()
    ensures Idle(Word16(0x40, 0xBF), POLY16, 4) == Word16(0x40, 0x0B)
  {
    IdleStates(POLY16, [Word16(0x40, 0xBF), Word16(0x80, 0x5E), Word16(0x40, 0x2F), Word16(0x80, 0x16), Word16(0x40,
      0x0B)]);
  }

  lemma Idle12to16()
    ensures Idle(Word16(0x40, 0x0B), POLY16, 4) == Word16(0xB0, 0x01)
  {
    IdleStates(POLY16, [Word16(0x40, 0x0B), Word16(0x80, 0x04), Word16(0x40, 0x02), Word16(0x20, 0x01), Word16(0xB0,
      0x01)]);
  }

  /** A token field of any width followed by its CRC5 always has the CRC5 0x19. */
  lemma Crc5Residue(bits: Bits)
    ensures Crc5Of(bits + Crc5Of(bits)) == ByteBits(0x19)[..5]
  {
    Residue(POLY5, bits);
    IdleFive();
    assert Not(Low5(0x06)) == Low5(0x19);
  }

  function Low5(b: bv8): (r: Bits)
    ensures |r| == 5
  {
    ByteBits(b)[..5]
  }

  lemma IdleFive()
    ensures Idle(Fill(true, 5), POLY5, 5) == Low5(0x06)
  {
    var s := [Low5(0x1F), Low5(0x1B), Low5(0x19), Low5(0x18), Low5(0x0C), Low5(0x06)];
    assert s[0] == Fill(true, 5);
    IdleStates(POLY5, s);
  }

  lemma {:induction false} IdleStates(poly: Bits, s: seq<Bits>)
    requires |s| > 0 && |poly| > 0 && forall i :: 0 <= i < |s| ==> |s[i]| == |poly|
    requires forall i :: 0 < i < |s| ==> s[i] == Step(s[i - 1], poly, false)
    ensures Idle(s[0], poly, |s| - 1) == s[|s| - 1]
    decreases |s|
  {
    if |s| > 1 {
      assert s[1] == Step(s[0], poly, false);
      IdleStates(poly, s[1..]);
    }
  }

  /** Any two data fields of one length whose differences lie within 16 consecutive bits of the wire
      have different CRC16 bytes. */
  lemma Crc16DetectsBursts(a: seq<bv8>, b: seq<bv8>, at: nat)
    requires |a| == |b| && a != b
    requires forall k :: 0 <= k < 8 * |a| && BytesBits(a)[k] != BytesBits(b)[k] ==> at <= k < at + 16
    ensures Crc16Bytes(a) != Crc16Bytes(b)
  {
    if BytesBits(a) == BytesBits(b) {
      BytesBitsInjective(a, b);
    }
    assert POLY16[15];
    BurstDetected(POLY16, BytesBits(a), BytesBits(b), at);
  }
}
