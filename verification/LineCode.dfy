/** The Full Speed line code as a specification: bit stuffing (section 7.1.9 of the USB 2.0
    specification), NRZI (7.1.8), SYNC (7.1.10) and end of packet (7.1.13.2), one line state per
    bit interval. */
module LineCode {
  import Seqs

  datatype Line = J | K | SE0

  function Flip(l: Line): Line {
    match l
    case J => K
    case K => J
    case SE0 => SE0
  }

  // ---- NRZI --------------------------------------------------------------------------------

  /** A zero is a transition, a one is none. */
  function Nrzi(l: Line, w: seq<bool>): (r: seq<Line>)
    ensures |r| == |w|
    decreases |w|
  {
    if w == [] then [] else
    var n := if w[0] then l else Flip(l);
    [n] + Nrzi(n, w[1..])
  }

  function NrziEnd(l: Line, w: seq<bool>): (r: Line)
    ensures l != SE0 ==> r != SE0
    decreases |w|
  {
    if w == [] then l else NrziEnd(if w[0] then l else Flip(l), w[1..])
  }

  lemma NrziCons(l: Line, b: bool, w: seq<bool>)
    ensures Nrzi(l, [b] + w) == [if b then l else Flip(l)] + Nrzi(if b then l else Flip(l), w)
    ensures NrziEnd(l, [b] + w) == NrziEnd(if b then l else Flip(l), w)
  {
    assert ([b] + w)[1..] == w;
  }

  lemma {:induction false} NrziConcat(l: Line, a: seq<bool>, b: seq<bool>)
    ensures Nrzi(l, a + b) == Nrzi(l, a) + Nrzi(NrziEnd(l, a), b)
    ensures NrziEnd(l, a + b) == NrziEnd(NrziEnd(l, a), b)
    decreases |a|
  {
    if a == [] {
      assert a + b == b;
    } else {
      hide *;
      var n, rest := if a[0] then l else Flip(l), a[1..];
      Seqs.Uncons(a, b);
      NrziConcat(n, rest, b);
      NrziCons(l, a[0], rest);
      NrziCons(l, a[0], rest + b);
      Seqs.Assoc([n], Nrzi(n, rest), Nrzi(NrziEnd(n, rest), b));
    }
  }

  /** The receiver's view: equal neighbours are a one. */
  function Unnrzi(l: Line, r: seq<Line>): (w: seq<bool>)
    ensures |w| == |r|
    decreases |r|
  {
    if r == [] then [] else [r[0] == l] + Unnrzi(r[0], r[1..])
  }

  lemma {:induction false} NrziRoundTrip(l: Line, w: seq<bool>)
    requires l != SE0
    ensures Unnrzi(l, Nrzi(l, w)) == w
    decreases |w|
  {
    if w != [] {
      NrziRoundTrip(if w[0] then l else Flip(l), w[1..]);
    }
  }

  lemma {:induction false} NrziNoSE0(l: Line, w: seq<bool>)
    requires l != SE0
    ensures forall i :: 0 <= i < |w| ==> Nrzi(l, w)[i] != SE0
    decreases |w|
  {
    if w != [] {
      NrziNoSE0(if w[0] then l else Flip(l), w[1..]);
    }
  }

  // ---- Bit stuffing ------------------------------------------------------------------------

  /** Stuffing before the next bit: `ones` ones have been sent in a row.  A stuff bit still owed at
      the end is left to Flush. */
  function Stuff(bits: seq<bool>, ones: nat): seq<bool>
    requires ones <= 6
    decreases |bits|, ones
  {
    if bits == [] then []
    else if ones == 6 then [false] + Stuff(bits, 0)
    else [bits[0]] + Stuff(bits[1..], if bits[0] then ones + 1 else 0)
  }

  /** Ones sent in a row at the end. */
  function OnesAfter(bits: seq<bool>, ones: nat): (r: nat)
    requires ones <= 6
    ensures r <= 6
    decreases |bits|, ones
  {
    if bits == [] then ones
    else if ones == 6 then OnesAfter(bits, 0)
    else OnesAfter(bits[1..], if bits[0] then ones + 1 else 0)
  }

  function Flush(ones: nat): seq<bool> {
    if ones == 6 then [false] else []
  }

  /** All the bits that go to the line for `bits`. */
  function Stuffed(bits: seq<bool>, ones: nat): seq<bool>
    requires ones <= 6
  {
    Stuff(bits, ones) + Flush(OnesAfter(bits, ones))
  }

  /** The next raw bit when data is left, and the stuff bit when one is owed. */
  lemma StuffNext(bits: seq<bool>, ones: nat)
    requires ones <= 6
    ensures bits != [] && ones < 6 ==>
              var o := if bits[0] then ones + 1 else 0;
              && Stuff(bits, ones) == [bits[0]] + Stuff(bits[1..], o)
              && Stuffed(bits, ones) == [bits[0]] + Stuffed(bits[1..], o)
    ensures ones == 6 ==> Stuffed(bits, 6) == [false] + Stuffed(bits, 0)
    ensures bits != [] && ones == 6 ==> Stuff(bits, 6) == [false] + Stuff(bits, 0)
  {}

  lemma StuffCons(b: bool, rest: seq<bool>, ones: nat)
    requires ones < 6
    ensures Stuff([b] + rest, ones) == [b] + Stuff(rest, if b then ones + 1 else 0)
    ensures OnesAfter([b] + rest, ones) == OnesAfter(rest, if b then ones + 1 else 0)
  {
    assert ([b] + rest)[1..] == rest;
  }

  lemma {:induction false} StuffConcat(a: seq<bool>, b: seq<bool>, ones: nat)
    requires ones <= 6
    ensures Stuff(a + b, ones) == Stuff(a, ones) + (if b == [] then [] else Stuff(b, OnesAfter(a, ones)))
    ensures OnesAfter(a + b, ones) == OnesAfter(b, OnesAfter(a, ones))
    decreases |a|, ones
  {
    if a == [] {
      assert a + b == b;
    } else if ones == 6 {
      StuffConcat(a, b, 0);
    } else {
      hide *;
      var o, rest := if a[0] then ones + 1 else 0, a[1..];
      Seqs.Uncons(a, b);
      StuffConcat(rest, b, o);
      StuffCons(a[0], rest, ones);
      StuffCons(a[0], rest + b, ones);
      Seqs.Assoc([a[0]], Stuff(rest, o), if b == [] then [] else Stuff(b, OnesAfter(rest, o)));
    }
  }

  /** Stuffing at once after the sixth one, as a sender that does not look ahead does it. */
  function EagerStuff(bits: seq<bool>, ones: nat): seq<bool>
    requires ones < 6
  {
    if bits == [] then []
    else if !bits[0] then [false] + EagerStuff(bits[1..], 0)
    else if ones == 5 then [true, false] + EagerStuff(bits[1..], 0)
    else [true] + EagerStuff(bits[1..], ones + 1)
  }

  lemma {:induction false} EagerIsStuffed(bits: seq<bool>, ones: nat)
    requires ones < 6
    ensures EagerStuff(bits, ones) == Stuffed(bits, ones)
    decreases |bits|
  {
    if bits != [] {
      if !bits[0] {
        EagerIsStuffed(bits[1..], 0);
      } else if ones == 5 {
        EagerIsStuffed(bits[1..], 0);
        if bits[1..] == [] {
          assert OnesAfter(bits[1..], 6) == 6 && Stuff(bits[1..], 6) == [];
          assert Stuff(bits, 5) == [true] && OnesAfter(bits, 5) == 6;
        } else {
          assert Stuff(bits[1..], 6) == [false] + Stuff(bits[1..], 0);
          assert OnesAfter(bits[1..], 6) == OnesAfter(bits[1..], 0);
        }
      } else {
        EagerIsStuffed(bits[1..], ones + 1);
      }
    }
  }

  /** The receiver's view: the bit after six ones is dropped. */
  function Unstuff(w: seq<bool>, ones: nat): seq<bool>
    requires ones <= 6
    decreases |w|
  {
    if w == [] then []
    else if ones == 6 then Unstuff(w[1..], 0)
    else [w[0]] + Unstuff(w[1..], if w[0] then ones + 1 else 0)
  }

  lemma {:induction false} StuffRoundTrip(bits: seq<bool>, ones: nat)
    requires ones <= 6
    ensures Unstuff(Stuff(bits, ones), ones) == bits
    ensures Unstuff(Stuffed(bits, ones), ones) == bits
    decreases |bits|, ones
  {
    if bits != [] {
      var s := Stuff(bits, ones);
      var f := Flush(OnesAfter(bits, ones));
      if ones == 6 {
        StuffRoundTrip(bits, 0);
        assert s[1..] == Stuff(bits, 0) && (s + f)[1..] == Stuff(bits, 0) + f;
      } else {
        var n := if bits[0] then ones + 1 else 0;
        StuffRoundTrip(bits[1..], n);
        assert s[1..] == Stuff(bits[1..], n) && (s + f)[1..] == Stuff(bits[1..], n) + f;
      }
    }
  }

  /** Stuffing costs at most one bit in six. */
  lemma {:induction false} StuffedLength(bits: seq<bool>, ones: nat)
    requires ones <= 6
    ensures |Stuffed(bits, ones)| <= |bits| + (|bits| + ones) / 6
    decreases |bits|, ones
  {
    if bits != [] {
      if ones == 6 {
        StuffedLength(bits, 0);
      } else {
        StuffedLength(bits[1..], if bits[0] then ones + 1 else 0);
      }
    }
  }

  /** No seven ones in a row, counting `ones` ones sent just before. */
  predicate AtMostSix(w: seq<bool>, ones: nat)
    decreases |w|
  {
    ones <= 6 && (w != [] ==> AtMostSix(w[1..], if w[0] then ones + 1 else 0))
  }

  lemma {:induction false} StuffedAtMostSix(bits: seq<bool>, ones: nat)
    requires ones <= 6
    ensures AtMostSix(Stuff(bits, ones), ones) && AtMostSix(Stuffed(bits, ones), ones)
    decreases |bits|, ones
  {
    var s, f := Stuff(bits, ones), Flush(OnesAfter(bits, ones));
    if bits != [] {
      if ones == 6 {
        StuffedAtMostSix(bits, 0);
        assert s[1..] == Stuff(bits, 0) && (s + f)[1..] == Stuff(bits, 0) + f;
      } else {
        var n := if bits[0] then ones + 1 else 0;
        StuffedAtMostSix(bits[1..], n);
        assert s[1..] == Stuff(bits[1..], n) && (s + f)[1..] == Stuff(bits[1..], n) + f;
      }
    }
  }

  // ---- Packets -----------------------------------------------------------------------------

  const SYNC: seq<Line> := [K, J, K, J, K, J, K, K]
  const EOP: seq<Line> := [SE0, SE0, J]

  /** A packet on the line.  The last K of SYNC counts as a one.  `flush` says whether a stuff bit
      owed after the last data bit is sent. */
  function Packet(bits: seq<bool>, flush: bool): seq<Line> {
    SYNC + Nrzi(K, if flush then Stuffed(bits, 1) else Stuff(bits, 1)) + EOP
  }

  lemma {:induction false} AtMostSixAt(w: seq<bool>, ones: nat, i: nat)
    requires AtMostSix(w, ones) && i + 7 <= |w|
    ensures exists j :: i <= j < i + 7 && !w[j]
    decreases |w|
  {
    if i > 0 {
      AtMostSixAt(w[1..], if w[0] then ones + 1 else 0, i - 1);
      var j :| i - 1 <= j < i + 6 && !w[1..][j];
      assert !w[j + 1];
    } else if forall j :: 0 <= j < 7 ==> w[j] {
      SevenOnes(w, ones, 0);
    }
  }

  lemma {:induction false} SevenOnes(w: seq<bool>, ones: nat, n: nat)
    requires AtMostSix(w, ones) && n <= ones && n <= 7 <= |w| + n
    requires forall j :: 0 <= j < 7 - n ==> w[j]
    ensures false
    decreases 7 - n
  {
    if n < 7 {
      assert w[0];
      SevenOnes(w[1..], ones + 1, n + 1);
    }
  }

  lemma {:induction false} NrziNeighbours(l: Line, w: seq<bool>, i: nat)
    requires l != SE0 && 0 < i < |w|
    ensures (Nrzi(l, w)[i] == Nrzi(l, w)[i - 1]) == w[i]
    decreases i
  {
    NrziNoSE0(l, w);
    var n := if w[0] then l else Flip(l);
    if i > 1 {
      NrziNeighbours(n, w[1..], i - 1);
    } else {
      assert Nrzi(n, w[1..])[0] == (if w[1] then n else Flip(n));
    }
  }

  /** Only the end of packet is SE0, and it is SE0 SE0 J. */
  lemma PacketNoSE0(bits: seq<bool>, flush: bool)
    ensures var w := Packet(bits, flush);
      |w| >= |SYNC| + |EOP| && w[|w| - 3..] == [SE0, SE0, J] && forall j :: 0 <= j < |w| - 3 ==> w[j] != SE0
  {
    NrziNoSE0(K, if flush then Stuffed(bits, 1) else Stuff(bits, 1));
  }

  /** From the closing K K of SYNC to the first SE0 the line never rests for more than six bit
      intervals: among any eight successive states two neighbours differ. */
  lemma PacketKeepsMoving(bits: seq<bool>, flush: bool, i: nat)
    requires 6 <= i && i + 8 + |EOP| <= |Packet(bits, flush)|
    ensures exists j :: i <= j < i + 7 && Packet(bits, flush)[j] != Packet(bits, flush)[j + 1]
  {
    var w := if flush then Stuffed(bits, 1) else Stuff(bits, 1);
    StuffedAtMostSix(bits, 1);
    var j := MovingPair(w, i - 6);
    PacketFromPair(bits, flush, w, j);
    assert i <= 6 + j < i + 7;
  }

  /** The states from the first K of the closing pair on are the NRZI code of [true] + w. */
  lemma MovingPair(w: seq<bool>, i: nat) returns (j: nat)
    requires AtMostSix(w, 1) && i + 7 <= |w| + 1
    ensures i <= j < i + 7 && 0 < j <= |w|
    ensures Nrzi(K, [true] + w)[j - 1] != Nrzi(K, [true] + w)[j]
  {
    var v := [true] + w;
    assert v[1..] == w;
    AtMostSixAt(v, 0, i);
    j :| i <= j < i + 7 && !v[j];
    NrziNeighbours(K, v, j);
  }

  lemma PacketFromPair(bits: seq<bool>, flush: bool, w: seq<bool>, j: nat)
    requires w == if flush then Stuffed(bits, 1) else Stuff(bits, 1)
    requires 0 < j <= |w|
    ensures Packet(bits, flush)[6 + j] == Nrzi(K, [true] + w)[j - 1]
    ensures Packet(bits, flush)[7 + j] == Nrzi(K, [true] + w)[j]
  {
    assert ([true] + w)[1..] == w;
    var c := Nrzi(K, w);
    assert Nrzi(K, [true] + w) == [K] + c;
    NrziNoSE0(K, w);
    hide Nrzi, Stuff, Stuffed;
    assert SYNC[7] == K && (SYNC + c + EOP)[7] == SYNC[7];
    assert (SYNC + c + EOP)[7 + j] == c[j - 1] && (j > 1 ==> (SYNC + c + EOP)[6 + j] == c[j - 2]);
  }
}
