/** Cyclic redundancy checks (section 8.3.5 of the USB 2.0 specification) over registers of any
    width, and the generators of the C model (registers shifted right) and of the SystemVerilog
    driver (registers shifted left) as instances.  A register is its bits, low bit first. */
module UsbCrc {

  type Bits = seq<bool>

  // ---- A register of any width ------------------------------------------------------------

  function Xor(a: Bits, b: Bits): (r: Bits)
    requires |a| == |b|
    ensures |r| == |a| && forall i :: 0 <= i < |a| ==> r[i] == (a[i] != b[i])
  {
    seq(|a|, i requires 0 <= i < |a| => a[i] != b[i])
  }

  function Fill(b: bool, n: nat): (r: Bits)
    ensures |r| == n && forall i :: 0 <= i < n ==> r[i] == b
  {
    seq(n, _ => b)
  }

  function Not(a: Bits): (r: Bits)
    ensures |r| == |a| && forall i :: 0 <= i < |a| ==> r[i] == !a[i]
  {
    seq(|a|, i requires 0 <= i < |a| => !a[i])
  }

  /** One data bit into a register shifted towards its low end. */
  function Step(c: Bits, poly: Bits, b: bool): (r: Bits)
    requires |c| == |poly| > 0
    ensures |r| == |c|
  {
    var add := c[0] != b;
    seq(|c|, i requires 0 <= i < |c| => (i + 1 < |c| && c[i + 1]) != (add && poly[i]))
  }

  function Feed(c: Bits, poly: Bits, bits: Bits): (r: Bits)
    requires |c| == |poly| > 0
    ensures |r| == |c|
    decreases |bits|
  {
    if bits == [] then c else Feed(Step(c, poly, bits[0]), poly, bits[1..])
  }

  /** Seeded with ones, complemented at the end. */
  function Crc(poly: Bits, bits: Bits): (r: Bits)
    requires |poly| > 0
    ensures |r| == |poly|
  {
    Not(Feed(Fill(true, |poly|), poly, bits))
  }

  lemma {:induction false} FeedConcat(c: Bits, poly: Bits, a: Bits, b: Bits)
    requires |c| == |poly| > 0
    ensures Feed(c, poly, a + b) == Feed(Feed(c, poly, a), poly, b)
    decreases |a|
  {
    if a == [] {
      assert a + b == b;
    } else {
      FeedConcat(Step(c, poly, a[0]), poly, a[1..], b);
      assert (a + b)[1..] == a[1..] + b;
    }
  }

  lemma FeedSnoc(c: Bits, poly: Bits, bits: Bits, k: nat)
    requires |c| == |poly| > 0 && k < |bits|
    ensures Feed(c, poly, bits[..k + 1]) == Step(Feed(c, poly, bits[..k]), poly, bits[k])
  {
    FeedConcat(c, poly, bits[..k], [bits[k]]);
    assert bits[..k] + [bits[k]] == bits[..k + 1];
  }

  /** n zero bits through the register. */
  function Idle(c: Bits, poly: Bits, n: nat): (r: Bits)
    requires |c| == |poly| > 0
    ensures |r| == |c|
    decreases n
  {
    if n == 0 then c else Idle(Step(c, poly, false), poly, n - 1)
  }

  /** Up to a register's width of data acts as if it had been added to the register first. */
  lemma {:induction false} FeedIsIdle(c: Bits, poly: Bits, bits: Bits)
    requires |c| == |poly| > 0 && |bits| <= |c|
    ensures Feed(c, poly, bits) == Idle(Xor(c, bits + Fill(false, |c| - |bits|)), poly, |bits|)
    decreases |bits|
  {
    var sum := Xor(c, bits + Fill(false, |c| - |bits|));
    if bits == [] {
      assert sum == c;
    } else {
      var next := Step(c, poly, bits[0]);
      FeedIsIdle(next, poly, bits[1..]);
      assert Step(sum, poly, false) == Xor(next, bits[1..] + Fill(false, |c| - |bits| + 1));
    }
  }

  /** With a top coefficient the step can be undone: the top bit tells whether poly was added. */
  lemma StepInjective(c: Bits, d: Bits, poly: Bits, b: bool)
    requires |c| == |d| == |poly| > 0 && poly[|poly| - 1]
    requires Step(c, poly, b) == Step(d, poly, b)
    ensures c == d
  {
    var n := |c|;
    var s, t := Step(c, poly, b), Step(d, poly, b);
    assert s[n - 1] == (c[0] != b) && t[n - 1] == (d[0] != b);
    forall i | 0 < i < n
      ensures c[i] == d[i]
    {
      assert s[i - 1] == t[i - 1];
    }
  }

  lemma {:induction false} FeedInjective(c: Bits, d: Bits, poly: Bits, bits: Bits)
    requires |c| == |d| == |poly| > 0 && poly[|poly| - 1]
    requires Feed(c, poly, bits) == Feed(d, poly, bits)
    ensures c == d
    decreases |bits|
  {
    if bits != [] {
      FeedInjective(Step(c, poly, bits[0]), Step(d, poly, bits[0]), poly, bits[1..]);
      StepInjective(c, d, poly, bits[0]);
    }
  }

  lemma {:induction false} IdleInjective(c: Bits, d: Bits, poly: Bits, n: nat)
    requires |c| == |d| == |poly| > 0 && poly[|poly| - 1]
    requires Idle(c, poly, n) == Idle(d, poly, n)
    ensures c == d
    decreases n
  {
    if n > 0 {
      IdleInjective(Step(c, poly, false), Step(d, poly, false), poly, n - 1);
      StepInjective(c, d, poly, false);
    }
  }

  /** Different windows no longer than the register leave different registers. */
  lemma WindowDetected(c: Bits, poly: Bits, u: Bits, v: Bits)
    requires |c| == |poly| > 0 && poly[|poly| - 1]
    requires |u| == |v| <= |c| && u != v
    ensures Feed(c, poly, u) != Feed(c, poly, v)
  {
    FeedIsIdle(c, poly, u);
    FeedIsIdle(c, poly, v);
    var pad := Fill(false, |c| - |u|);
    var x, y := Xor(c, u + pad), Xor(c, v + pad);
    var i :| 0 <= i < |u| && u[i] != v[i];
    assert x[i] != y[i];
    if Feed(c, poly, u) == Feed(c, poly, v) {
      IdleInjective(x, y, poly, |u|);
    }
  }

  lemma {:induction false} FeedThree(c: Bits, poly: Bits, p: Bits, u: Bits, s: Bits)
    requires |c| == |poly| > 0
    ensures Feed(c, poly, p + u + s) == Feed(Feed(Feed(c, poly, p), poly, u), poly, s)
  {
    FeedConcat(c, poly, p + u, s);
    FeedConcat(c, poly, p, u);
  }

  /** An error burst no longer than the register, anywhere in a message of any length, is detected. */
  lemma BurstDetected(poly: Bits, a: Bits, b: Bits, at: nat)
    requires |poly| > 0 && poly[|poly| - 1]
    requires |a| == |b| && a != b
    requires forall k :: 0 <= k < |a| && a[k] != b[k] ==> at <= k < at + |poly|
    ensures Crc(poly, a) != Crc(poly, b)
  {
    var lo := if at <= |a| then at else |a|;
    var hi := if at + |poly| <= |a| then at + |poly| else |a|;
    var p, u, v, s := a[..lo], a[lo..hi], b[lo..hi], a[hi..];
    assert a == p + u + s && b == p + v + s;
    var seed := Fill(true, |poly|);
    FeedThree(seed, poly, p, u, s);
    FeedThree(seed, poly, p, v, s);
    var c := Feed(seed, poly, p);
    WindowDetected(c, poly, u, v);
    if Crc(poly, a) == Crc(poly, b) {
      NotInjective(Feed(seed, poly, a), Feed(seed, poly, b));
      FeedInjective(Feed(c, poly, u), Feed(c, poly, v), poly, s);
    }
  }

  lemma NotInjective(a: Bits, b: Bits)
    requires |a| == |b| && Not(a) == Not(b)
    ensures a == b
  {
    forall i | 0 <= i < |a|
      ensures a[i] == b[i]
    {
      assert Not(a)[i] == Not(b)[i];
    }
  }

  /** A message followed by its own check bits always leaves the same residue. */
  lemma Residue(poly: Bits, bits: Bits)
    requires |poly| > 0
    ensures Crc(poly, bits + Crc(poly, bits)) == Not(Idle(Fill(true, |poly|), poly, |poly|))
  {
    var seed := Fill(true, |poly|);
    var c := Feed(seed, poly, bits);
    FeedConcat(seed, poly, bits, Not(c));
    FeedIsIdle(c, poly, Not(c));
    assert Xor(c, Not(c) + Fill(false, 0)) == seed;
  }

  // ---- The same register shifted towards its high end --------------------------------------

  function Reverse(a: Bits): (r: Bits)
    ensures |r| == |a| && forall i :: 0 <= i < |a| ==> r[i] == a[|a| - 1 - i]
  {
    seq(|a|, i requires 0 <= i < |a| => a[|a| - 1 - i])
  }

  /** The step as section 8.3.5 words it: the high bit decides, the register moves left. */
  function HighStep(c: Bits, poly: Bits, b: bool): (r: Bits)
    requires |c| == |poly| > 0
    ensures |r| == |c|
  {
    var add := c[|c| - 1] != b;
    seq(|c|, i requires 0 <= i < |c| => (i > 0 && c[i - 1]) != (add && poly[i]))
  }

  function HighFeed(c: Bits, poly: Bits, bits: Bits): (r: Bits)
    requires |c| == |poly| > 0
    ensures |r| == |c|
    decreases |bits|
  {
    if bits == [] then c else HighFeed(HighStep(c, poly, bits[0]), poly, bits[1..])
  }

  /** The two directions compute mirror images. */
  lemma {:induction false} Reflection(c: Bits, poly: Bits, bits: Bits)
    requires |c| == |poly| > 0
    ensures HighFeed(Reverse(c), Reverse(poly), bits) == Reverse(Feed(c, poly, bits))
    decreases |bits|
  {
    if bits != [] {
      assert HighStep(Reverse(c), Reverse(poly), bits[0]) == Reverse(Step(c, poly, bits[0]));
      Reflection(Step(c, poly, bits[0]), poly, bits[1..]);
    }
  }

  lemma {:induction false} HighFeedConcat(c: Bits, poly: Bits, a: Bits, b: Bits)
    requires |c| == |poly| > 0
    ensures HighFeed(c, poly, a + b) == HighFeed(HighFeed(c, poly, a), poly, b)
    decreases |a|
  {
    if a == [] {
      assert a + b == b;
    } else {
      HighFeedConcat(HighStep(c, poly, a[0]), poly, a[1..], b);
      assert (a + b)[1..] == a[1..] + b;
    }
  }

  lemma HighFeedSnoc(c: Bits, poly: Bits, bits: Bits, k: nat)
    requires |c| == |poly| > 0 && k < |bits|
    ensures HighFeed(c, poly, bits[..k + 1]) == HighStep(HighFeed(c, poly, bits[..k]), poly, bits[k])
  {
    HighFeedConcat(c, poly, bits[..k], [bits[k]]);
    assert bits[..k] + [bits[k]] == bits[..k + 1];
  }

  /** The mirrored generator computes the mirrored check bits. */
  lemma CrcReflection(poly: Bits, bits: Bits)
    requires |poly| > 0
    ensures Not(HighFeed(Fill(true, |poly|), Reverse(poly), bits)) == Reverse(Crc(poly, bits))
  {
    var seed := Fill(true, |poly|);
    Reflection(seed, poly, bits);
    assert Reverse(seed) == seed;
  }

  /** A run of the register written out state by state. */
  lemma {:induction false} FeedStates(poly: Bits, bits: Bits, s: seq<Bits>)
    requires |poly| > 0 && |s| == |bits| + 1 && forall i :: 0 <= i < |s| ==> |s[i]| == |poly|
    requires forall i :: 0 <= i < |bits| ==> s[i + 1] == Step(s[i], poly, bits[i])
    ensures Feed(s[0], poly, bits) == s[|bits|]
    decreases |bits|
  {
    if bits != [] {
      assert s[0 + 1] == Step(s[0], poly, bits[0]);
      forall i | 0 <= i < |bits[1..]|
        ensures s[1..][i + 1] == Step(s[1..][i], poly, bits[1..][i])
      {
        assert s[(i + 1) + 1] == Step(s[i + 1], poly, bits[i + 1]);
      }
      FeedStates(poly, bits[1..], s[1..]);
    }
  }
}
