/** Sequence identities used as rewriting steps. */
module Seqs {
  lemma Assoc<T>(x: seq<T>, y: seq<T>, z: seq<T>)
    ensures x + (y + z) == (x + y) + z
  {}

  lemma AssocFour<T>(a: seq<T>, b: seq<T>, c: seq<T>, d: seq<T>)
    ensures ((a + b) + c) + d == a + (b + (c + d))
  {}

  lemma Uncons<T>(a: seq<T>, b: seq<T>)
    requires a != []
    ensures a == [a[0]] + a[1..]
    ensures a + b == [a[0]] + (a[1..] + b)
    ensures (a + b)[0] == a[0] && (a + b)[1..] == a[1..] + b
  {}

  lemma Slices<T>(a: seq<T>, k: nat)
    requires k < |a|
    ensures a[..k] + [a[k]] == a[..k + 1]
    ensures a[..|a|] == a && a[..0] == []
  {}

  /** Number of elements in all the sequences of q. */
  function Total<T>(q: seq<seq<T>>): nat {
    if q == [] then 0 else |q[0]| + Total(q[1..])
  }

  lemma {:induction false} NoneIn<T>(q: seq<seq<T>>)
    requires forall i :: 0 <= i < |q| ==> q[i] == []
    ensures Total(q) == 0
  {
    if q != [] {
      NoneIn(q[1..]);
    }
  }

  lemma {:induction false} TotalConcat<T>(a: seq<seq<T>>, b: seq<seq<T>>)
    ensures Total(a + b) == Total(a) + Total(b)
  {
    if a == [] {
      assert a + b == b;
    } else {
      Uncons(a, b);
      TotalConcat(a[1..], b);
    }
  }

  lemma TotalAt<T>(q: seq<seq<T>>, i: nat)
    requires i < |q|
    ensures Total(q) == Total(q[..i]) + |q[i]| + Total(q[i + 1..])
  {
    assert q == q[..i] + ([q[i]] + q[i + 1..]);
    TotalConcat(q[..i], [q[i]] + q[i + 1..]);
    assert ([q[i]] + q[i + 1..])[1..] == q[i + 1..];
  }

  lemma TotalSet<T>(q: seq<seq<T>>, i: nat, l: seq<T>)
    requires i < |q|
    ensures Total(q[i := l]) == Total(q) - |q[i]| + |l|
  {
    TotalAt(q, i);
    TotalAt(q[i := l], i);
    assert q[i := l][..i] == q[..i] && q[i := l][i + 1..] == q[i + 1..];
  }
}

/** Bytes as the bits that travel on the wire, least significant bit first. */
module BitSeq {

  function Mask(i: nat): bv8
    requires i < 8
  {
    match i
    case 0 => 0x01
    case 1 => 0x02
    case 2 => 0x04
    case 3 => 0x08
    case 4 => 0x10
    case 5 => 0x20
    case 6 => 0x40
    case 7 => 0x80
  }

  predicate Bit(b: bv8, i: nat)
    requires i < 8
  {
    b & Mask(i) != 0
  }

  function ByteBits(b: bv8): (s: seq<bool>)
    ensures |s| == 8
    ensures forall i :: 0 <= i < 8 ==> s[i] == Bit(b, i)
  {
    seq(8, i requires 0 <= i < 8 => Bit(b, i))
  }

  function BytesBits(d: seq<bv8>): (s: seq<bool>)
    ensures |s| == 8 * |d|
  {
    if d == [] then [] else ByteBits(d[0]) + BytesBits(d[1..])
  }

  lemma {:induction false} BytesBitsConcat(a: seq<bv8>, b: seq<bv8>)
    ensures BytesBits(a + b) == BytesBits(a) + BytesBits(b)
  {
    if a == [] {
      assert a + b == b;
    } else {
      var c := a + b;
      assert c[0] == a[0] && c[1..] == a[1..] + b;
      BytesBitsConcat(a[1..], b);
      assert BytesBits(c) == ByteBits(a[0]) + (BytesBits(a[1..]) + BytesBits(b));
    }
  }

  /** A byte is determined by its bits. */
  lemma ByteBitsInjective(a: bv8, b: bv8)
    requires forall i :: 0 <= i < 8 ==> Bit(a, i) == Bit(b, i)
    ensures a == b
  {
    assert Bit(a, 0) == Bit(b, 0) && Bit(a, 1) == Bit(b, 1) && Bit(a, 2) == Bit(b, 2) && Bit(a, 3) == Bit(b, 3);
    assert Bit(a, 4) == Bit(b, 4) && Bit(a, 5) == Bit(b, 5) && Bit(a, 6) == Bit(b, 6) && Bit(a, 7) == Bit(b, 7);
  }

  lemma SameBits(a: bv8, b: bv8)
    requires ByteBits(a) == ByteBits(b)
    ensures a == b
  {
    forall i | 0 <= i < 8
      ensures Bit(a, i) == Bit(b, i)
    {
      assert ByteBits(a)[i] == ByteBits(b)[i];
    }
    ByteBitsInjective(a, b);
  }

  lemma {:induction false} BytesBitsInjective(a: seq<bv8>, b: seq<bv8>)
    requires BytesBits(a) == BytesBits(b)
    ensures a == b
  {
    if a != [] {
      assert |b| == |a|;
      assert ByteBits(a[0]) == BytesBits(a)[..8] == BytesBits(b)[..8] == ByteBits(b[0]);
      SameBits(a[0], b[0]);
      assert BytesBits(a)[8..] == BytesBits(a[1..]) && BytesBits(b)[8..] == BytesBits(b[1..]);
      BytesBitsInjective(a[1..], b[1..]);
      assert a == [a[0]] + a[1..] && b == [b[0]] + b[1..];
    }
  }

  /** The byte with the given bits. */
  function FromBits(s: seq<bool>): (b: bv8)
    requires |s| == 8
    ensures ByteBits(b) == s
  {
    PackBits(s);
    Pack(s)
  }

  function Pack(s: seq<bool>): bv8 {
    if s == [] then 0 else (Pack(s[1..]) << 1) | (if s[0] then 1 else 0)
  }

  lemma PushBit(x: bv8, c: bool, i: nat)
    requires i < 8
    ensures Bit((x << 1) | (if c then 1 else 0), i) == if i == 0 then c else Bit(x, i - 1)
  {}

  lemma {:induction false} PackBit(s: seq<bool>, i: nat)
    requires i < 8
    ensures Bit(Pack(s), i) == (i < |s| && s[i])
    decreases i
  {
    if s != [] {
      PushBit(Pack(s[1..]), s[0], i);
      if i > 0 {
        PackBit(s[1..], i - 1);
      }
    }
  }

  lemma PackBits(s: seq<bool>)
    requires |s| == 8
    ensures ByteBits(Pack(s)) == s
  {
    forall i | 0 <= i < 8
      ensures Bit(Pack(s), i) == s[i]
    {
      PackBit(s, i);
    }
  }

  /** Dropping whole bytes drops eight bits each. */
  lemma BytesBitsDrop(d: seq<bv8>, k: nat)
    requires k <= |d|
    ensures BytesBits(d)[8 * k..] == BytesBits(d[k..])
    ensures BytesBits(d)[..8 * k] == BytesBits(d[..k])
  {
    assert d == d[..k] + d[k..];
    BytesBitsConcat(d[..k], d[k..]);
    var p, q := BytesBits(d[..k]), BytesBits(d[k..]);
    assert |p| == 8 * k;
    assert (p + q)[8 * k..] == q && (p + q)[..8 * k] == p;
  }

  lemma BytesBitsOne(b: bv8)
    ensures BytesBits([b]) == ByteBits(b)
  {}

  lemma BytesBitsAt(d: seq<bv8>, i: nat)
    requires i < |d|
    ensures BytesBits(d)[8 * i..8 * i + 8] == ByteBits(d[i])
    ensures forall b :: 0 <= b < 8 ==> BytesBits(d)[8 * i + b] == Bit(d[i], b)
  {
    BytesBitsDrop(d, i);
    var s, t := BytesBits(d), ByteBits(d[i]);
    assert BytesBits(d[i..]) == t + BytesBits(d[i..][1..]);
    assert s[8 * i..8 * i + 8] == s[8 * i..][..8] == t;
    forall b | 0 <= b < 8
      ensures s[8 * i + b] == Bit(d[i], b)
    {
      assert s[8 * i + b] == t[b];
    }
  }

  /** Whole bytes; up to seven bits may be left over. */
  function Group(bits: seq<bool>): (r: seq<bv8>)
    ensures |r| == |bits| / 8
    decreases |bits|
  {
    if |bits| < 8 then [] else [FromBits(bits[..8])] + Group(bits[8..])
  }

  lemma {:induction false} GroupOfBytes(d: seq<bv8>)
    ensures Group(BytesBits(d)) == d
    decreases |d|
  {
    if d != [] {
      var s := BytesBits(d);
      assert s[..8] == ByteBits(d[0]) && s[8..] == BytesBits(d[1..]);
      SameBits(FromBits(s[..8]), d[0]);
      GroupOfBytes(d[1..]);
    }
  }

  lemma {:induction false} BitsOfGroup(bits: seq<bool>)
    requires |bits| % 8 == 0
    ensures BytesBits(Group(bits)) == bits
    decreases |bits|
  {
    if bits == [] {
    } else {
      BitsOfGroup(bits[8..]);
      var g := Group(bits);
      assert g[0] == FromBits(bits[..8]) && g[1..] == Group(bits[8..]);
      assert bits == bits[..8] + bits[8..];
    }
  }

  lemma OrBit(a: bv8, b: bv8, i: nat)
    requires i < 8
    ensures Bit(a | b, i) == (Bit(a, i) || Bit(b, i))
  {}

  lemma ShiftRightBit(a: bv8, i: nat)
    requires i < 8
    ensures Bit(a >> 1, i) == (i < 7 && Bit(a, i + 1))
  {}

  lemma ShiftLeft3Bit(a: bv8, i: nat)
    requires i < 8
    ensures Bit(a << 3, i) == (i >= 3 && Bit(a, i - 3))
  {}

  lemma ShiftLeft7Bit(a: bv8, i: nat)
    requires i < 8
    ensures Bit(a << 7, i) == (i == 7 && Bit(a, 0))
  {}
}
