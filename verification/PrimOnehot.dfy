/** prim_onehot_check: the or, and and error trees of any height against what they are to say about the
    vector. */
module PrimOnehot {
  import opened PrimCount

  /** The inputs: the vector, the address as its bits, low bit first, and the enable. */
  datatype In = In(oh: seq<bool>, addr: seq<bool>, en: bool)

  datatype Params = Params(addrCheck: bool, enableCheck: bool, strictCheck: bool)

  /** The elaboration checks on the parameters. */
  predicate Sized(i: In) {
    1 <= |i.addr| && 1 <= |i.oh| <= Pow2(|i.addr|)
  }

  // ---- The trees ---------------------------------------------------------------------------------------

  /** Index of a node, level by level from the root. */
  function Node(level: nat, offset: nat): nat { Pow2(level) - 1 + offset }

  datatype Trees = Trees(or: seq<bool>, and_: seq<bool>, err: seq<bool>)

  predicate Shaped(t: Trees) { |t.or| == |t.and_| == |t.err| }

  predicate Leaf(i: In, t: Trees, offset: nat) {
    var pa := Node(|i.addr|, offset);
    Shaped(t) && pa < |t.or| && t.or[pa] == Bit(i, offset) && t.and_[pa] == Bit(i, offset) && !t.err[pa]
  }

  /** The vector beyond its width is tied off. */
  predicate Bit(i: In, k: nat) { k < |i.oh| && i.oh[k] }

  predicate Inner(i: In, t: Trees, level: nat, offset: nat)
    requires level < |i.addr|
  {
    var pa, c0, c1, bit := Node(level, offset), Node(level + 1, 2 * offset), Node(level + 1, 2 * offset + 1),
      i.addr[|i.addr| - 1 - level];
    && Shaped(t) && pa < |t.or| && c1 < |t.or|
    && t.or[pa] == (t.or[c0] || t.or[c1])
    && t.and_[pa] == ((!bit && t.and_[c0]) || (bit && t.and_[c1]))
    && t.err[pa] == ((t.or[c0] && t.or[c1]) || t.err[c0] || t.err[c1])
  }

  /** Every assignment of the generate loops holds. */
  ghost predicate Assigned(i: In, t: Trees) {
    && |t.or| == |t.and_| == |t.err| == Pow2(|i.addr| + 1) - 1
    && (forall offset: nat :: offset < Pow2(|i.addr|) ==> Leaf(i, t, offset))
    && (forall level: nat, offset: nat :: level < |i.addr| && offset < Pow2(level) ==> Inner(i, t, level, offset))
  }

  function Error(p: Params, i: In, t: Trees): bool
    requires |t.or| == |t.and_| == |t.err| && |t.or| >= 1
  {
    var enableErr := p.enableCheck && if p.strictCheck then t.or[0] != i.en else !i.en && t.or[0];
    var addrErr := p.addrCheck && t.or[0] != t.and_[0];
    t.err[0] || enableErr || addrErr
  }

  // ---- What they say -----------------------------------------------------------------------------------

  predicate Any(i: In, from: nat, to: nat) { exists k :: from <= k < to && Bit(i, k) }

  predicate Two(i: In, from: nat, to: nat) { exists j, k :: from <= j < k < to && Bit(i, j) && Bit(i, k) }

  /** The number that the first k address bits stand for. */
  function Value(addr: seq<bool>, k: nat): (r: nat)
    requires k <= |addr|
    ensures r < Pow2(k)
  {
    if k == 0 then 0 else Value(addr, k - 1) + if addr[k - 1] then Pow2(k - 1) else 0
  }

  lemma Halves(i: In, a: nat, b: nat, c: nat)
    requires a <= b <= c
    ensures Any(i, a, c) == (Any(i, a, b) || Any(i, b, c))
    ensures Two(i, a, c) == (Two(i, a, b) || Two(i, b, c) || (Any(i, a, b) && Any(i, b, c)))
  {
    hide Bit;
    if Any(i, a, b) && Any(i, b, c) {
      var j :| a <= j < b && Bit(i, j);
      var k :| b <= k < c && Bit(i, k);
      assert a <= j < k < c;
    }
  }

  /** The first leaves below the two children. */
  lemma Spans(offset: nat, k: nat)
    requires k > 0
    ensures (2 * offset) * Pow2(k - 1) == offset * Pow2(k)
    ensures (2 * offset + 1) * Pow2(k - 1) == offset * Pow2(k) + Pow2(k - 1)
    ensures Pow2(k) == 2 * Pow2(k - 1)
  {}

  lemma Assignment(i: In, t: Trees, level: nat, offset: nat)
    requires Assigned(i, t) && level <= |i.addr| && offset < Pow2(level)
    ensures if level == |i.addr| then Leaf(i, t, offset) else Inner(i, t, level, offset)
    ensures Pow2(level + 1) == 2 * Pow2(level)
  {}

  lemma OneLeaf(i: In, a: nat)
    ensures Any(i, a, a + 1) == Bit(i, a) && !Two(i, a, a + 1)
  {
    if Bit(i, a) {
      assert a <= a < a + 1 && Bit(i, a);
    }
  }

  /** A node speaks for the 2^k leaves below it, from leaf a on. */
  lemma {:induction false} NodeSays(i: In, t: Trees, level: nat, offset: nat, k: nat, a: nat)
    requires Assigned(i, t) && level + k == |i.addr| && offset < Pow2(level) && a == offset * Pow2(k)
    ensures Shaped(t) && Node(level, offset) < |t.or|
    ensures var pa, b := Node(level, offset), a + Pow2(k);
      && t.or[pa] == Any(i, a, b) && t.err[pa] == Two(i, a, b) && t.and_[pa] == Bit(i, a + Value(i.addr, k))
    decreases k
  {
    hide Assigned, Any, Two, Bit, Pow2, Value, Node;
    Assignment(i, t, level, offset);
    if k == 0 {
      Bottom(i, k);
      OneLeaf(i, a);
    } else {
      Spans(offset, k);
      ValueNext(i.addr, k);
      NodeSays(i, t, level + 1, 2 * offset, k - 1, a);
      NodeSays(i, t, level + 1, 2 * offset + 1, k - 1, a + Pow2(k - 1));
      Halves(i, a, a + Pow2(k - 1), a + Pow2(k));
    }
  }

  lemma Bottom(i: In, k: nat)
    requires k == 0
    ensures Pow2(k) == 1 && Value(i.addr, k) == 0 && Node(k, 0) == 0
  {}

  lemma ValueNext(addr: seq<bool>, k: nat)
    requires 0 < k <= |addr|
    ensures Value(addr, k) == Value(addr, k - 1) + if addr[k - 1] then Pow2(k - 1) else 0
  {}

  /** At most one bit of the vector is set. */
  predicate Onehot0(oh: seq<bool>) { forall j, k :: 0 <= j < k < |oh| ==> !(oh[j] && oh[k]) }

  predicate Set(oh: seq<bool>) { exists k :: 0 <= k < |oh| && oh[k] }

  /** For every height and width: the error is low if and only if at most one bit is set, the enable agrees
      with it, strictly or not, and any bit that is set is at the address. */
  lemma TreeIsFlat(p: Params, i: In, t: Trees)
    requires Sized(i) && Assigned(i, t)
    ensures |t.or| == |t.and_| == |t.err| && |t.or| >= 1
    ensures !Error(p, i, t) <==>
      && Onehot0(i.oh)
      && (p.enableCheck ==> if p.strictCheck then Set(i.oh) == i.en else Set(i.oh) ==> i.en)
      && (p.addrCheck ==> forall k :: 0 <= k < |i.oh| && i.oh[k] ==> k == Value(i.addr, |i.addr|))
  {
    Root(i, t, 0);
    AllBits(i);
    hide Assigned, Any, Two, Pow2, Bit;
    if Onehot0(i.oh) {
      OnlyPlace(i, Value(i.addr, |i.addr|));
    }
  }

  /** What the roots say. */
  lemma Root(i: In, t: Trees, top: nat)
    requires Sized(i) && Assigned(i, t) && top == 0
    ensures Shaped(t) && |t.or| >= 1
    ensures var b := Pow2(|i.addr|);
      t.or[0] == Any(i, 0, b) && t.err[0] == Two(i, 0, b) && t.and_[0] == Bit(i, Value(i.addr, |i.addr|))
  {
    hide Assigned, Any, Two, Bit, Pow2, Value, Node;
    Bottom(i, top);
    NodeSays(i, t, top, 0, |i.addr|, 0);
  }

  lemma OnlyPlace(i: In, v: nat)
    requires Onehot0(i.oh)
    ensures Set(i.oh) == Bit(i, v) <==> forall k :: 0 <= k < |i.oh| && i.oh[k] ==> k == v
  {
    if Set(i.oh) {
      var k :| 0 <= k < |i.oh| && i.oh[k];
      assert Bit(i, v) ==> k == v;
    }
  }

  lemma AllBits(i: In)
    requires Sized(i)
    ensures Any(i, 0, Pow2(|i.addr|)) == Set(i.oh) && Two(i, 0, Pow2(|i.addr|)) == !Onehot0(i.oh)
  {
    if Set(i.oh) {
      var k :| 0 <= k < |i.oh| && i.oh[k];
      assert Bit(i, k);
    }
    if !Onehot0(i.oh) {
      var j, k :| 0 <= j < k < |i.oh| && i.oh[j] && i.oh[k];
      assert Bit(i, j) && Bit(i, k);
    }
  }

  // ---- The assignments define the trees ----------------------------------------------------------------

  datatype Values = Values(or: bool, and_: bool, err: bool)

  function NodeValue(i: In, level: nat, offset: nat): Values
    requires level <= |i.addr|
    decreases |i.addr| - level
  {
    if level == |i.addr| then Values(Bit(i, offset), Bit(i, offset), false)
    else
      var l, r, bit := NodeValue(i, level + 1, 2 * offset), NodeValue(i, level + 1, 2 * offset + 1),
        i.addr[|i.addr| - 1 - level];
      Values(l.or || r.or, (!bit && l.and_) || (bit && r.and_), (l.or && r.or) || l.err || r.err)
  }

  function Levels(i: In, levels: nat): (r: seq<Values>)
    requires levels <= |i.addr| + 1
    ensures |r| == Pow2(levels) - 1
  {
    if levels == 0 then []
    else
      Levels(i, levels - 1)
      + seq(Pow2(levels - 1), o requires 0 <= o < Pow2(levels - 1) => NodeValue(i, levels - 1, o))
  }

  lemma {:induction false} LevelsAt(i: In, levels: nat, level: nat, offset: nat)
    requires levels <= |i.addr| + 1 && level < levels && offset < Pow2(level)
    ensures Node(level, offset) < |Levels(i, levels)|
      && Levels(i, levels)[Node(level, offset)] == NodeValue(i, level, offset)
  {
    hide NodeValue;
    if level < levels - 1 {
      LevelsAt(i, levels - 1, level, offset);
    }
  }

  lemma AtNode(i: In, level: nat, offset: nat)
    requires level < |i.addr|
    ensures var l, r, bit := NodeValue(i, level + 1, 2 * offset), NodeValue(i, level + 1, 2 * offset + 1),
      i.addr[|i.addr| - 1 - level];
      NodeValue(i, level, offset) == Values(l.or || r.or, (!bit && l.and_) || (bit && r.and_), (l.or
        && r.or) || l.err || r.err)
  {
    hide Bit;
  }

  lemma InnerHolds(i: In, t: Trees, v: seq<Values>, level: nat, offset: nat)
    requires level < |i.addr| && offset < Pow2(level) && v == Levels(i, |i.addr| + 1)
    requires Shaped(t) && |t.or| == |v|
    requires forall k :: 0 <= k < |v| ==> t.or[k] == v[k].or && t.and_[k] == v[k].and_ && t.err[k] == v[k].err
    ensures Inner(i, t, level, offset)
  {
    hide NodeValue, Levels, Pow2, Node, Bit;
    Spans(offset, level + 1);
    LevelsAt(i, |i.addr| + 1, level, offset);
    LevelsAt(i, |i.addr| + 1, level + 1, 2 * offset);
    LevelsAt(i, |i.addr| + 1, level + 1, 2 * offset + 1);
    AtNode(i, level, offset);
  }

  /** For every input there are trees that satisfy every assignment. */
  lemma TreesExist(i: In)
    requires Sized(i)
    ensures exists t :: Assigned(i, t)
  {
    var n := |i.addr|;
    var v := Levels(i, n + 1);
    var t := Trees(seq(|v|, k requires 0 <= k < |v| => v[k].or), seq(|v|, k requires 0 <= k < |v| => v[k].and_),
                   seq(|v|, k requires 0 <= k < |v| => v[k].err));
    forall offset: nat | offset < Pow2(n)
      ensures Leaf(i, t, offset)
    {
      LevelsAt(i, n + 1, n, offset);
    }
    forall level: nat, offset: nat | level < n && offset < Pow2(level)
      ensures Inner(i, t, level, offset)
    {
      InnerHolds(i, t, v, level, offset);
    }
    assert Assigned(i, t);
  }
}
