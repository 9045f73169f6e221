/** The LFSR of usbdpi_stream.c has full period: from any state but zero it comes back after 255 steps and not
    before, so no two bytes of a packet are made from one state. */
module LfsrPeriod {
  import opened Streams

  // ---- Steps at a time -------------------------------------------------------------------------------

  /** Fifteen, seventeen and fifty-one steps: they are linear, so the images of the eight bits say all. */
  function Fifteen(x: bv8): bv8 {
    (if x & 0x01 != 0 then 0xE8 else 0) ^ (if x & 0x02 != 0 then 0xD0 else 0)
    ^ (if x & 0x04 != 0 then 0x49 else 0) ^ (if x & 0x08 != 0 then 0x7B else 0)
    ^ (if x & 0x10 != 0 then 0x1E else 0) ^ (if x & 0x20 != 0 then 0x3D else 0)
    ^ (if x & 0x40 != 0 then 0x7A else 0) ^ (if x & 0x80 != 0 then 0xF4 else 0)
  }

  function Seventeen(x: bv8): bv8 {
    (if x & 0x01 != 0 then 0xA1 else 0) ^ (if x & 0x02 != 0 then 0x43 else 0)
    ^ (if x & 0x04 != 0 then 0x26 else 0) ^ (if x & 0x08 != 0 then 0xED else 0)
    ^ (if x & 0x10 != 0 then 0x7A else 0) ^ (if x & 0x20 != 0 then 0xF4 else 0)
    ^ (if x & 0x40 != 0 then 0xE8 else 0) ^ (if x & 0x80 != 0 then 0xD0 else 0)
  }

  function FiftyOne(x: bv8): bv8 {
    (if x & 0x01 != 0 then 0x57 else 0) ^ (if x & 0x02 != 0 then 0xAE else 0)
    ^ (if x & 0x04 != 0 then 0x0B else 0) ^ (if x & 0x08 != 0 then 0x41 else 0)
    ^ (if x & 0x10 != 0 then 0xD5 else 0) ^ (if x & 0x20 != 0 then 0xAA else 0)
    ^ (if x & 0x40 != 0 then 0x55 else 0) ^ (if x & 0x80 != 0 then 0xAB else 0)
  }

  /** Five steps. */
  function Five(x: bv8): bv8 { Lfsr(Lfsr(Lfsr(Lfsr(Lfsr(x))))) }

  lemma FiveSteps(x: bv8)
    ensures LfsrAt(x, 5) == Five(x)
  {
    hide Lfsr;
    assert LfsrAt(x, 1) == Lfsr(x) && LfsrAt(x, 2) == Lfsr(LfsrAt(x, 1));
    assert LfsrAt(x, 3) == Lfsr(LfsrAt(x, 2)) && LfsrAt(x, 4) == Lfsr(LfsrAt(x, 3));
  }

  lemma FifteenSteps(x: bv8)
    ensures LfsrAt(x, 15) == Fifteen(x)
  {
    assert Fifteen(x) == Five(Five(Five(x)));
    hide Lfsr, LfsrAt, Fifteen, Five;
    FiveSteps(x);
    FiveSteps(Five(x));
    FiveSteps(Five(Five(x)));
    LfsrAdd(x, 5, 5);
    LfsrAdd(x, 10, 5);
  }

  lemma SeventeenSteps(x: bv8)
    ensures LfsrAt(x, 17) == Seventeen(x)
  {
    var y := Fifteen(x);
    assert Seventeen(x) == Lfsr(Lfsr(y));
    FifteenSteps(x);
    hide Fifteen, Seventeen, Lfsr;
    assert LfsrAt(x, 16) == Lfsr(LfsrAt(x, 15)) && LfsrAt(x, 17) == Lfsr(LfsrAt(x, 16));
  }

  lemma FiftyOneSteps(x: bv8)
    ensures LfsrAt(x, 51) == FiftyOne(x)
  {
    assert FiftyOne(x) == Seventeen(Seventeen(Seventeen(x)));
    hide *;
    SeventeenSteps(x);
    SeventeenSteps(Seventeen(x));
    SeventeenSteps(Seventeen(Seventeen(x)));
    LfsrAdd(x, 17, 17);
    LfsrAdd(x, 34, 17);
  }

  // ---- The four facts ----------------------------------------------------------------------------------

  lemma NotAfter15(x: bv8)
    requires x != 0
    ensures LfsrAt(x, 15) != x
  {
    assert Fifteen(x) != x;
    hide Fifteen;
    FifteenSteps(x);
  }

  lemma NotAfter51(x: bv8)
    requires x != 0
    ensures LfsrAt(x, 51) != x
  {
    assert FiftyOne(x) != x;
    hide FiftyOne;
    FiftyOneSteps(x);
  }

  lemma NotAfter85(x: bv8)
    requires x != 0
    ensures LfsrAt(x, 85) != x
  {
    assert Seventeen(Seventeen(FiftyOne(x))) != x;
    hide *;
    FiftyOneSteps(x);
    SeventeenSteps(FiftyOne(x));
    SeventeenSteps(Seventeen(FiftyOne(x)));
    LfsrAdd(x, 51, 17);
    LfsrAdd(x, 68, 17);
  }

  lemma BackAfter255(x: bv8)
    ensures LfsrAt(x, 255) == x
  {
    var a := FiftyOne(FiftyOne(x));
    assert FiftyOne(FiftyOne(FiftyOne(a))) == x;
    hide *;
    FiftyOneSteps(x);
    FiftyOneSteps(FiftyOne(x));
    FiftyOneSteps(a);
    FiftyOneSteps(FiftyOne(a));
    FiftyOneSteps(FiftyOne(FiftyOne(a)));
    LfsrAdd(x, 51, 51);
    LfsrAdd(x, 102, 51);
    LfsrAdd(x, 153, 51);
    LfsrAdd(x, 204, 51);
  }

  // ---- Periods -------------------------------------------------------------------------------------------

  lemma {:induction false} Multiple(x: bv8, n: nat, k: nat)
    requires LfsrAt(x, n) == x
    ensures LfsrAt(x, n * k) == x
    decreases k
  {
    hide LfsrAt;
    if k == 0 {
      Zero(x);
    } else {
      Multiple(x, n, k - 1);
      LfsrAdd(x, n * (k - 1), n);
      assert n * (k - 1) + n == n * k;
    }
  }

  lemma Zero(x: bv8)
    ensures LfsrAt(x, 0) == x
  {}

  /** Only the remainder by 255 matters. */
  lemma Remainder(x: bv8, n: nat)
    ensures LfsrAt(x, n) == LfsrAt(x, n % 255)
  {
    hide LfsrAt;
    BackAfter255(x);
    Multiple(x, 255, n / 255);
    LfsrAdd(x, 255 * (n / 255), n % 255);
  }

  lemma Regroup(p: nat, m: nat, q: nat, r: nat, k: nat, j: nat)
    requires p * m == 255 && r * k == p * j + 1
    ensures (p * q + r) * (m * k) == 255 * (q * k + j) + m
  {
    calc {
      (p * q + r) * (m * k);
      (p * q) * (m * k) + r * (m * k);
      (p * m) * (q * k) + m * (r * k);
      255 * (q * k) + m * (p * j + 1);
      255 * (q * k) + (p * m) * j + m;
      255 * (q * k + j) + m;
    }
  }

  /** Where n is a period and the prime p of 255 does not divide it, 255 / p is one too: k is the inverse of n. */
  lemma Descends(x: bv8, n: nat, p: nat, m: nat, k: nat, j: nat)
    requires LfsrAt(x, n) == x && p > 0 && p * m == 255 && (n % p) * k == p * j + 1
    ensures LfsrAt(x, m) == x
  {
    var q, r := n / p, n % p;
    assert n == p * q + r;
    hide *;
    Regroup(p, m, q, r, k, j);
    BackAfter255(x);
    Multiple(x, n, m * k);
    Multiple(x, 255, q * k + j);
    LfsrAdd(x, 255 * (q * k + j), m);
  }

  lemma By17(x: bv8, n: nat)
    requires LfsrAt(x, n) == x && n % 17 != 0
    ensures LfsrAt(x, 15) == x
  {
    var k, j := Table17(n % 17);
    Descends(x, n, 17, 15, k, j);
  }

  lemma Table17(r: nat) returns (k: nat, j: nat)
    requires 0 < r < 17
    ensures r * k == 17 * j + 1
  {
    k := [0, 1, 9, 6, 13, 7, 3, 5, 15, 2, 12, 14, 10, 4, 11, 8, 16][r];
    j := (r * k) / 17;
  }

  lemma By5(x: bv8, n: nat)
    requires LfsrAt(x, n) == x && n % 5 != 0
    ensures LfsrAt(x, 51) == x
  {
    match n % 5
    case 1 => Descends(x, n, 5, 51, 1, 0);
    case 2 => Descends(x, n, 5, 51, 3, 1);
    case 3 => Descends(x, n, 5, 51, 2, 1);
    case 4 => Descends(x, n, 5, 51, 4, 3);
  }

  lemma By3(x: bv8, n: nat)
    requires LfsrAt(x, n) == x && n % 3 != 0
    ensures LfsrAt(x, 85) == x
  {
    match n % 3
    case 1 => Descends(x, n, 3, 85, 1, 0);
    case 2 => Descends(x, n, 3, 85, 2, 1);
  }

  lemma Divides(n: nat)
    requires n % 17 == 0 && n % 5 == 0 && n % 3 == 0
    ensures n % 255 == 0
  {
    var a := n / 17;
    assert n == 17 * a && a % 5 == 0;
    var b := a / 5;
    assert a == 5 * b && b % 3 == 0;
    assert n == 255 * (b / 3);
  }

  lemma NotBefore(x: bv8, n: nat)
    requires x != 0 && n % 255 != 0
    ensures LfsrAt(x, n) != x
  {
    hide *;
    NotAfter15(x);
    NotAfter51(x);
    NotAfter85(x);
    if LfsrAt(x, n) == x {
      if n % 17 != 0 {
        By17(x, n);
      } else if n % 5 != 0 {
        By5(x, n);
      } else if n % 3 != 0 {
        By3(x, n);
      } else {
        Divides(n);
      }
    }
  }

  /** Full period: a state comes back after n steps exactly if it is zero or n is a multiple of 255. */
  lemma FullPeriod(x: bv8, n: nat)
    ensures LfsrAt(x, n) == x <==> x == 0 || n % 255 == 0
  {
    hide LfsrAt;
    if x == 0 {
      ZeroStays(n);
    } else if n % 255 == 0 {
      Remainder(x, n);
      Zero(x);
    } else {
      NotBefore(x, n);
    }
  }

  /** No state but zero leads to zero. */
  lemma {:induction false} NeverZero(x: bv8, n: nat)
    requires x != 0
    ensures LfsrAt(x, n) != 0
  {
    if n > 0 {
      NeverZero(x, n - 1);
      assert forall y: bv8 :: Lfsr(y) == 0 ==> y == 0;
    }
  }

  lemma {:induction false} ZeroStays(n: nat)
    ensures LfsrAt(0, n) == 0
  {
    if n > 0 {
      ZeroStays(n - 1);
    }
  }
}
