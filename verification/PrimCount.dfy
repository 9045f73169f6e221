/** prim_count: a counter with an inverted twin, for any width. */
module PrimCount {
  function Pow2(n: nat): (r: nat)
    ensures r >= 1
  {
    if n == 0 then 1 else 2 * Pow2(n - 1)
  }

  /** Addition and subtraction on a register of n values, for results that leave it by less than n. */
  function Wrap(x: int, n: nat): int {
    if x < 0 then x + n else if x >= n then x - n else x
  }

  /** Inputs of one clock; fpv_force is zero outside formal verification. */
  datatype In = In(clr: bool, set_: bool, setCnt: nat, incr: bool, decr: bool, step: nat, commit: bool)

  /** m is 2^Width. */
  predicate Proper(i: In, m: nat) { i.setCnt < m && i.step < m }

  // ---- One of the two counters -------------------------------------------------------------------------

  /** ext_cnt has one bit more; it is set if and only if the value is at least m. */
  function ExtCnt(cnt: nat, step: nat, incr: bool, decr: bool, m: nat): (r: int)
    requires cnt < m && step < m
    ensures 0 <= r < 2 * m
  {
    if decr then Wrap(cnt - step, 2 * m) else if incr then cnt + step else cnt
  }

  /** All but the top bit. */
  function Low(x: int, m: nat): int {
    if x >= m then x - m else x
  }

  function Saturated(cnt: nat, step: nat, incr: bool, decr: bool, m: nat): (r: nat)
    requires cnt < m && step < m
    ensures r < m
  {
    var ext := ExtCnt(cnt, step, incr, decr, m);
    if decr && ext >= m then 0 else if incr && ext >= m then m - 1 else Low(ext, m)
  }

  /** cnt_d of one counter: its own reset and set values, and up and down as that counter sees them. */
  function Next(cnt: nat, reset: nat, setVal: nat, incr: bool, decr: bool, i: In, m: nat): (r: nat)
    requires cnt < m && reset < m && setVal < m && Proper(i, m)
    ensures r < m
  {
    if i.clr then reset
    else if i.set_ then setVal
    else if incr != decr && ((incr && cnt != m - 1) || (decr && cnt != 0)) then Saturated(cnt, i.step, incr, decr, m)
    else cnt
  }

  // ---- The cross counter -------------------------------------------------------------------------------

  datatype Regs = Regs(primary: nat, secondary: nat, err: bool)

  predicate InRange(s: Regs, m: nat) { s.primary < m && s.secondary < m }

  function Reset(reset: nat, m: nat): Regs
    requires reset < m
  {
    Regs(reset, m - 1 - reset, false)
  }

  /** cnt_after_commit_o */
  function AfterCommit(s: Regs, reset: nat, i: In, m: nat): nat
    requires InRange(s, m) && reset < m && Proper(i, m)
  {
    Next(s.primary, reset, i.setCnt, i.incr, i.decr, i, m)
  }

  function Clocked(s: Regs, reset: nat, i: In, m: nat): (r: Regs)
    requires InRange(s, m) && reset < m && Proper(i, m)
    ensures InRange(r, m)
  {
    var second := Next(s.secondary, m - 1 - reset, m - 1 - i.setCnt, i.decr, i.incr, i, m);
    Regs(if i.commit then AfterCommit(s, reset, i, m) else s.primary, if i.commit then second else s.secondary,
         s.primary + s.secondary != m - 1)
  }

  /** The two counters always add up to 2^Width - 1. */
  predicate Crossed(s: Regs, m: nat) {
    InRange(s, m) && s.primary + s.secondary == m - 1 && !s.err
  }

  /** A saturating counter: clear before set before counting, both directions at once cancel out. */
  function Counter(cnt: int, reset: int, i: In, m: nat): int {
    if i.clr then reset
    else if i.set_ then i.setCnt
    else if i.incr == i.decr then cnt
    else if i.incr then if cnt + i.step > m - 1 then m - 1 else cnt + i.step
    else if cnt < i.step then 0
    else cnt - i.step
  }

  /** One clock: the twin stays the complement, no error is seen, and the counter counts. */
  lemma ClockCounts(s: Regs, reset: nat, i: In, m: nat)
    requires Crossed(s, m) && reset < m && Proper(i, m)
    ensures Crossed(Clocked(s, reset, i, m), m)
    ensures AfterCommit(s, reset, i, m) == Counter(s.primary, reset, i, m)
    ensures Clocked(s, reset, i, m).primary == if i.commit then Counter(s.primary, reset, i, m) else s.primary
  {}

  // ---- Runs --------------------------------------------------------------------------------------------

  function Run(s: Regs, reset: nat, ins: seq<In>, m: nat): (r: Regs)
    requires InRange(s, m) && reset < m && forall k :: 0 <= k < |ins| ==> Proper(ins[k], m)
    ensures InRange(r, m)
    decreases |ins|
  {
    if ins == [] then s else Run(Clocked(s, reset, ins[0], m), reset, ins[1..], m)
  }

  function Count(cnt: int, reset: int, ins: seq<In>, m: nat): int
    decreases |ins|
  {
    if ins == [] then cnt
    else Count(if ins[0].commit then Counter(cnt, reset, ins[0], m) else cnt, reset, ins[1..], m)
  }

  /** For every width and every run from reset, err_o stays low, the counters stay complements, and cnt_o is
      the saturating counter's value. */
  lemma {:induction false} CountsFrom(s: Regs, reset: nat, ins: seq<In>, m: nat)
    requires Crossed(s, m) && reset < m && forall k :: 0 <= k < |ins| ==> Proper(ins[k], m)
    ensures Crossed(Run(s, reset, ins, m), m) && Run(s, reset, ins, m).primary == Count(s.primary, reset, ins, m)
    decreases |ins|
  {
    if ins != [] {
      ClockCounts(s, reset, ins[0], m);
      CountsFrom(Clocked(s, reset, ins[0], m), reset, ins[1..], m);
    }
  }

  lemma CrossCounter(width: nat, reset: nat, ins: seq<In>)
    requires reset < Pow2(width) && forall k :: 0 <= k < |ins| ==> Proper(ins[k], Pow2(width))
    ensures var m := Pow2(width);
      var r := Run(Reset(reset, m), reset, ins, m);
      && r.primary + r.secondary == m - 1 && !r.err && r.primary == Count(reset, reset, ins, m)
  {
    CountsFrom(Reset(reset, Pow2(width)), reset, ins, Pow2(width));
  }

  // ---- The registers -----------------------------------------------------------------------------------

  class PrimCounter {
    /** 2^Width */
    const m: nat
    const resetValue: nat
    var cnt0: nat
    var cnt1: nat
    var err: bool

    ghost function View(): Regs
      reads this
    {
      Regs(cnt0, cnt1, err)
    }

    ghost predicate Valid()
      reads this
    {
      resetValue < m && Crossed(View(), m)
    }

    constructor (width: nat, reset: nat)
      requires reset < Pow2(width)
      ensures Valid() && m == Pow2(width) && resetValue == reset && View() == Reset(reset, m)
    {
      m := Pow2(width);
      resetValue := reset;
      cnt0, cnt1, err := reset, Pow2(width) - 1 - reset, false;
    }

    /** A rising clock edge. */
    method Clock(i: In)
      requires Valid() && Proper(i, m)
      modifies this
      ensures Valid() && View() == Clocked(old(View()), resetValue, i, m)
      ensures !err && cnt0 == if i.commit then Counter(old(cnt0), resetValue, i, m) else old(cnt0)
    {
      ClockCounts(View(), resetValue, i, m);
      var next0 := Next(cnt0, resetValue, i.setCnt, i.incr, i.decr, i, m);
      var next1 := Next(cnt1, m - 1 - resetValue, m - 1 - i.setCnt, i.decr, i.incr, i, m);
      err := cnt0 + cnt1 != m - 1;
      if i.commit {
        cnt0, cnt1 := next0, next1;
      }
    }
  }
}
