/** prim_fifo_sync for any depth of at least one, and prim_fifo_sync_cnt: wrap pointers against a bounded
    queue. */
module PrimFifo {
  import C = PrimCount

  /** Inputs of one clock. */
  datatype In<T> = In(clr: bool, wvalid: bool, wdata: T, rready: bool)

  /** Outputs in that clock. */
  datatype Out<T> = Out(wready: bool, rvalid: bool, rdata: T, full: bool, depth: int, err: bool)

  /** Parameters: a is 2^PtrW and b is 2^DepthW. */
  datatype Params<T> = Params(depth: nat, a: nat, b: nat, pass: bool, secure: bool, zeroIfEmpty: bool, zero: T)

  predicate Sized<T>(p: Params<T>) {
    1 <= p.depth <= p.a && p.depth < p.b
  }

  // ---- A bounded queue ---------------------------------------------------------------------------------

  function Ready<T>(p: Params<T>, q: seq<T>, underRst: bool): bool { !underRst && |q| < p.depth }

  function Offered<T>(p: Params<T>, q: seq<T>, underRst: bool, i: In<T>): bool {
    !underRst && (q != [] || (p.pass && i.wvalid))
  }

  /** Accepted writes go to the back, accepted reads come from the front, a write may pass through. */
  function Written<T>(p: Params<T>, q: seq<T>, underRst: bool, i: In<T>): seq<T> {
    if i.wvalid && Ready(p, q, underRst) then q + [i.wdata] else q
  }

  function Reading<T>(p: Params<T>, q: seq<T>, underRst: bool, i: In<T>): bool {
    Offered(p, q, underRst, i) && i.rready
  }

  /** What is on rdata_o, valid or not: the front of the queue, else what passes through, else zero if so asked. */
  predicate Shown<T(==)>(p: Params<T>, q: seq<T>, i: In<T>, rdata: T) {
    if q != [] then rdata == q[0]
    else if p.pass && i.wvalid then rdata == i.wdata
    else p.zeroIfEmpty ==> rdata == p.zero
  }

  function After<T>(p: Params<T>, q: seq<T>, underRst: bool, i: In<T>): seq<T>
    requires 1 <= p.depth
  {
    var w := Written(p, q, underRst, i);
    if i.clr then [] else if Reading(p, q, underRst, i) then w[1..] else w
  }

  // ---- prim_fifo_sync_cnt ------------------------------------------------------------------------------

  /** A wrap pointer is an index below 2^PtrW and one more bit. */
  predicate Pointer(w: nat, p: nat, a: nat) {
    w < 2 * a && C.Low(w, a) < p
  }

  function PlainStep(w: nat, clr: bool, incr: bool, depth: nat, a: nat): (r: nat)
    requires Pointer(w, depth, a) && 1 <= depth <= a
    ensures Pointer(r, depth, a)
  {
    if clr then 0
    else if incr && C.Low(w, a) == depth - 1 then if w >= a then 0 else a
    else if incr then w + 1
    else w
  }

  /** The inputs of the hardened counter. */
  function SecureIn(w: nat, clr: bool, incr: bool, depth: nat, a: nat): C.In
    requires Pointer(w, depth, a) && 1 <= depth <= a
  {
    C.In(clr, incr && C.Low(w, a) == depth - 1, if w >= a then 0 else a, incr, false, 1, true)
  }

  /** Hardened and plain pointers agree, and the hardened one reports no error. */
  lemma PointersAgree(s: C.Regs, clr: bool, incr: bool, depth: nat, a: nat)
    requires 1 <= depth <= a && Pointer(s.primary, depth, a) && C.Crossed(s, 2 * a)
    ensures var i := SecureIn(s.primary, clr, incr, depth, a);
      && C.Proper(i, 2 * a)
      && C.Crossed(C.Clocked(s, 0, i, 2 * a), 2 * a)
      && C.Clocked(s, 0, i, 2 * a).primary == PlainStep(s.primary, clr, incr, depth, a)
  {
    var i := SecureIn(s.primary, clr, incr, depth, a);
    C.ClockCounts(s, 0, i, 2 * a);
    hide C.Clocked, C.Crossed;
  }

  function Full(w: nat, r: nat, a: nat): bool { w == (if r >= a then r - a else r + a) }

  function DepthOf<T>(p: Params<T>, w: nat, r: nat): int {
    if Full(w, r, p.a) then p.depth
    else if (w >= p.a) == (r >= p.a) then C.Wrap(C.Low(w, p.a) - C.Low(r, p.a), p.b)
    else C.Wrap(C.Wrap(p.depth - C.Low(r, p.a), p.b) + C.Low(w, p.a), p.b)
  }

  // ---- prim_fifo_sync ----------------------------------------------------------------------------------

  /** Registers: of the one-entry FIFO, or of the larger one. */
  datatype Fifo<T> =
    | One(full: bool, invFull: bool, errQ: bool, entry: T)
    | Many(w: C.Regs, r: C.Regs, storage: seq<T>, underRst: bool)

  predicate Proper<T>(p: Params<T>, f: Fifo<T>) {
    Sized(p) &&
    match f
    case One(_, _, _, _) => p.depth == 1
    case Many(w, r, storage, _) =>
      && p.depth >= 2 && |storage| == p.depth && Pointer(w.primary, p.depth, p.a) && Pointer(r.primary, p.depth, p.a)
      && C.InRange(w, 2 * p.a) && C.InRange(r, 2 * p.a)
  }

  function Start<T>(p: Params<T>, entry: T, storage: seq<T>): Fifo<T>
    requires Sized(p)
  {
    if p.depth == 1 then One(false, true, false, entry)
    else Many(C.Reset(0, 2 * p.a), C.Reset(0, 2 * p.a), storage, true)
  }

  function Outputs<T>(p: Params<T>, f: Fifo<T>, i: In<T>): Out<T>
    requires Proper(p, f)
  {
    match f
    case One(full, inv, errQ, entry) =>
      var rvalid := full || (p.pass && i.wvalid);
      var rdata := if full || !p.pass then entry else i.wdata;
      Out(!full, rvalid, if p.zeroIfEmpty && !rvalid then p.zero else rdata, full, if full then 1 else 0, p.secure
        && errQ)
    case Many(w, r, storage, underRst) =>
      var (wp, rp) := (w.primary, r.primary);
      var full, none := Full(wp, rp, p.a), wp == rp;
      var empty := none && !(p.pass && i.wvalid);
      var rvalid := !empty && !(p.pass && underRst);
      var rdata := if p.pass && none && i.wvalid then i.wdata else storage[C.Low(rp, p.a)];
      Out(!full && !underRst, rvalid, if p.zeroIfEmpty && empty then p.zero else rdata, full, DepthOf(p, wp, rp),
          p.secure && (w.err || r.err))
  }

  /** A pointer register, plain or hardened. */
  function Step<T>(p: Params<T>, s: C.Regs, clr: bool, incr: bool): (n: C.Regs)
    requires Sized(p) && Pointer(s.primary, p.depth, p.a) && C.InRange(s, 2 * p.a)
    ensures C.InRange(n, 2 * p.a)
  {
    if p.secure then C.Clocked(s, 0, SecureIn(s.primary, clr, incr, p.depth, p.a), 2 * p.a)
    else s.(primary := PlainStep(s.primary, clr, incr, p.depth, p.a))
  }

  function Clock<T>(p: Params<T>, f: Fifo<T>, i: In<T>): Fifo<T>
    requires Proper(p, f)
  {
    var o := Outputs(p, f, i);
    match f
    case One(full, inv, errQ, entry) =>
      var fullD := (if o.rvalid then !i.rready else i.wvalid) && !i.clr;
      One(fullD, !fullD, full == inv, if i.wvalid && o.wready then i.wdata else entry)
    case Many(w, r, storage, underRst) =>
      var incrW, incrR := i.wvalid && o.wready, o.rvalid && i.rready && !underRst;
      Many(Step(p, w, i.clr, incrW), Step(p, r, i.clr, incrR),
           if incrW then storage[C.Low(w.primary, p.a) := i.wdata] else storage, false)
  }

  // ---- What the registers hold -------------------------------------------------------------------------

  /** Entries between the pointers. */
  function Level(w: nat, r: nat, depth: nat, a: nat): int {
    if (w >= a) == (r >= a) then C.Low(w, a) - C.Low(r, a) else depth - C.Low(r, a) + C.Low(w, a)
  }

  function Place(r: int, k: nat, depth: nat): int { if r + k < depth then r + k else r + k - depth }

  ghost predicate Stored<T>(storage: seq<T>, r: nat, q: seq<T>, depth: nat) {
    |storage| == depth && r < depth && |q| <= depth && forall k :: 0 <= k < |q| ==> q[k] == storage[Place(r, k, depth)]
  }

  /** The pointers of the plain FIFO are registers of their own; of the hardened one, cross counters. */
  predicate Sound(s: C.Regs, secure: bool, m: nat) { secure ==> C.Crossed(s, m) }

  /** The FIFO stands for queue q. */
  ghost predicate Holds<T>(p: Params<T>, f: Fifo<T>, q: seq<T>) {
    Proper(p, f) &&
    match f
    case One(full, inv, errQ, entry) => inv == !full && !errQ && q == if full then [entry] else []
    case Many(w, r, storage, underRst) =>
      && Sound(w, p.secure, 2 * p.a) && Sound(r, p.secure, 2 * p.a) && (underRst ==> q == [])
      && |q| == Level(w.primary, r.primary, p.depth, p.a) && Stored(storage, C.Low(r.primary, p.a), q, p.depth)
  }

  function UnderRst<T>(f: Fifo<T>): bool { f.Many? && f.underRst }

  lemma StartHolds<T>(p: Params<T>, entry: T, storage: seq<T>)
    requires Sized(p) && |storage| == p.depth
    ensures Holds(p, Start(p, entry, storage), [])
  {}

  /** Level by pointer positions. */
  lemma Levels(w: nat, r: nat, depth: nat, a: nat)
    requires 1 <= depth <= a && Pointer(w, depth, a) && Pointer(r, depth, a) && 0 <= Level(w, r, depth, a) <= depth
    ensures Full(w, r, a) <==> Level(w, r, depth, a) == depth
    ensures w == r <==> Level(w, r, depth, a) == 0
    ensures var l := Level(w, r, depth, a); l < depth ==> C.Low(w, a) == Place(C.Low(r, a), l, depth)
  {}

  lemma DepthExact<T>(p: Params<T>, w: nat, r: nat)
    requires Sized(p) && Pointer(w, p.depth, p.a) && Pointer(r, p.depth, p.a)
      && 0 <= Level(w, r, p.depth, p.a) <= p.depth
    ensures DepthOf(p, w, r) == Level(w, r, p.depth, p.a)
  {}

  /** Every output agrees with the queue: ready, valid, data, full, depth, and no error. */
  lemma OutputsAgree<T>(p: Params<T>, f: Fifo<T>, q: seq<T>, i: In<T>)
    requires Holds(p, f, q)
    ensures |q| <= p.depth
    ensures var o, u := Outputs(p, f, i), UnderRst(f);
      && o.wready == Ready(p, q, u) && o.rvalid == Offered(p, q, u, i)
      && (o.rvalid ==> Written(p, q, u, i) != [] && o.rdata == Written(p, q, u, i)[0])
      && Shown(p, q, i, o.rdata)
      && o.full == (|q| == p.depth) && o.depth == |q| && !o.err
  {
    if f.Many? {
      Levels(f.w.primary, f.r.primary, p.depth, p.a);
      DepthExact(p, f.w.primary, f.r.primary);
    }
  }

  /** A pointer moves by at most one place. */
  lemma StepMoves<T>(p: Params<T>, s: C.Regs, clr: bool, incr: bool)
    requires Sized(p) && Pointer(s.primary, p.depth, p.a) && C.InRange(s, 2 * p.a) && Sound(s, p.secure, 2 * p.a)
    ensures var n := Step(p, s, clr, incr);
      n.primary == PlainStep(s.primary, clr, incr, p.depth, p.a) && Pointer(n.primary, p.depth, p.a)
        && Sound(n, p.secure, 2 * p.a)
  {
    if p.secure {
      PointersAgree(s, clr, incr, p.depth, p.a);
    }
    hide C.Clocked, SecureIn;
  }

  /** The level after both pointers have moved. */
  lemma LevelMoves(w: nat, r: nat, clr: bool, incW: bool, incR: bool, depth: nat, a: nat)
    requires 1 <= depth <= a && Pointer(w, depth, a) && Pointer(r, depth, a)
    requires var l := Level(w, r, depth, a); 0 <= l <= depth && (incW ==> l < depth) && (incR ==> l > 0 || incW)
    ensures Level(PlainStep(w, clr, incW, depth, a), PlainStep(r, clr, incR, depth, a), depth, a)
         == if clr then 0 else Level(w, r, depth, a) + (if incW then 1 else 0) - (if incR then 1 else 0)
    ensures C.Low(PlainStep(r, clr, incR, depth, a), a) == if clr then 0 else if incR then Place(C.Low(r, a), 1,
      depth) else C.Low(r, a)
  {}

  /** The places of the queue after a write at the back and a read at the front. */
  lemma PlacesMove<T>(storage: seq<T>, r: nat, q: seq<T>, depth: nat, write: bool, x: T, read: bool)
    requires Stored(storage, r, q, depth) && depth >= 2 && (write ==> |q| < depth) && (read ==> |q| > 0 || write)
    ensures var s' := if write then storage[Place(r, |q|, depth) := x] else storage;
      var q' := if write then q + [x] else q;
      Stored(s', if read then Place(r, 1, depth) else r, if read then q'[1..] else q', depth)
  {}

  lemma ClockMany<T>(p: Params<T>, f: Fifo<T>, q: seq<T>, i: In<T>)
    requires Holds(p, f, q) && f.Many?
    ensures Holds(p, Clock(p, f, i), After(p, q, UnderRst(f), i))
  {
    OutputsAgree(p, f, q, i);
    var o := Outputs(p, f, i);
    var w, r := f.w.primary, f.r.primary;
    var write, read := i.wvalid && o.wready, o.rvalid && i.rready && !f.underRst;
    Levels(w, r, p.depth, p.a);
    StepMoves(p, f.w, i.clr, write);
    StepMoves(p, f.r, i.clr, read);
    LevelMoves(w, r, i.clr, write, read, p.depth, p.a);
    PlacesMove(f.storage, C.Low(r, p.a), q, p.depth, write, i.wdata, read);
    hide Outputs, Step, PlainStep, Level, Pointer, C.Low, C.InRange, Sound, Place;
  }

  /** One clock of the FIFO is one step of the queue. */
  lemma ClockHolds<T>(p: Params<T>, f: Fifo<T>, q: seq<T>, i: In<T>)
    requires Holds(p, f, q)
    ensures Holds(p, Clock(p, f, i), After(p, q, UnderRst(f), i))
  {
    if f.Many? {
      ClockMany(p, f, q, i);
    }
  }

  // ---- Runs --------------------------------------------------------------------------------------------

  function Run<T>(p: Params<T>, f: Fifo<T>, ins: seq<In<T>>): (r: Fifo<T>)
    requires Proper(p, f)
    ensures Proper(p, r)
    decreases |ins|
  {
    if ins == [] then f
    else
      ClockProper(p, f, ins[0]);
      Run(p, Clock(p, f, ins[0]), ins[1..])
  }

  lemma ClockProper<T>(p: Params<T>, f: Fifo<T>, i: In<T>)
    requires Proper(p, f)
    ensures Proper(p, Clock(p, f, i))
  {
    if f.Many? {
      var o := Outputs(p, f, i);
      PrimaryMoves(p, f.w, i.clr, i.wvalid && o.wready);
      PrimaryMoves(p, f.r, i.clr, o.rvalid && i.rready && !f.underRst);
      hide Step, Outputs, Pointer;
    }
  }

  /** The count register of either kind of pointer moves alike, whatever the twin holds. */
  lemma PrimaryMoves<T>(p: Params<T>, s: C.Regs, clr: bool, incr: bool)
    requires Sized(p) && Pointer(s.primary, p.depth, p.a) && C.InRange(s, 2 * p.a)
    ensures Step(p, s, clr, incr).primary == PlainStep(s.primary, clr, incr, p.depth, p.a)
      && Pointer(Step(p, s, clr, incr).primary, p.depth, p.a)
  {}

  function RunQueue<T>(p: Params<T>, q: seq<T>, underRst: bool, ins: seq<In<T>>): seq<T>
    requires 1 <= p.depth
    decreases |ins|
  {
    if ins == [] then q else RunQueue(p, After(p, q, underRst, ins[0]), false, ins[1..])
  }

  /** Data accepted at the write port and delivered at the read port since the last clear. */
  datatype Trace<T> = Trace(written: seq<T>, taken: seq<T>)

  function Traced<T>(p: Params<T>, f: Fifo<T>, t: Trace<T>, ins: seq<In<T>>): Trace<T>
    requires Proper(p, f)
    decreases |ins|
  {
    if ins == [] then t
    else
      var i, o := ins[0], Outputs(p, f, ins[0]);
      var n := if i.clr then Trace([], [])
               else Trace(if i.wvalid && o.wready then t.written + [i.wdata] else t.written,
                          if o.rvalid && i.rready then t.taken + [o.rdata] else t.taken);
      ClockProper(p, f, i);
      Traced(p, Clock(p, f, i), n, ins[1..])
  }

  /** Reads and what is still queued are the writes, in order, whatever one clock does. */
  lemma TraceStep<T>(p: Params<T>, f: Fifo<T>, q: seq<T>, t: Trace<T>, i: In<T>)
    requires Holds(p, f, q) && t.written == t.taken + q && !i.clr
    ensures var o := Outputs(p, f, i);
      (if i.wvalid && o.wready then t.written + [i.wdata] else t.written)
      == (if o.rvalid && i.rready then t.taken + [o.rdata] else t.taken) + After(p, q, UnderRst(f), i)
  {
    OutputsAgree(p, f, q, i);
    var w, o := Written(p, q, UnderRst(f), i), Outputs(p, f, i);
    assert (if i.wvalid && o.wready then t.written + [i.wdata] else t.written) == t.taken + w;
    hide Outputs, Holds;
    if o.rvalid && i.rready {
      assert w == [w[0]] + w[1..];
      assert t.taken + w == (t.taken + [o.rdata]) + w[1..];
    }
  }

  lemma {:induction false} RunsInOrder<T>(p: Params<T>, f: Fifo<T>, q: seq<T>, t: Trace<T>, ins: seq<In<T>>)
    requires Holds(p, f, q) && t.written == t.taken + q
    ensures var e, n := RunQueue(p, q, UnderRst(f), ins), Traced(p, f, t, ins);
      Holds(p, Run(p, f, ins), e) && n.written == n.taken + e
    decreases |ins|
  {
    if ins != [] {
      var i, o := ins[0], Outputs(p, f, ins[0]);
      ClockHolds(p, f, q, i);
      ClockProper(p, f, i);
      var f' := Clock(p, f, i);
      assert !UnderRst(f');
      if !i.clr {
        TraceStep(p, f, q, t, i);
      }
      var n := if i.clr then Trace([], [])
               else Trace(if i.wvalid && o.wready then t.written + [i.wdata] else t.written,
                          if o.rvalid && i.rready then t.taken + [o.rdata] else t.taken);
      assert n.written == n.taken + After(p, q, UnderRst(f), i);
      hide Clock, Outputs, After, Holds;
      RunsInOrder(p, f', After(p, q, UnderRst(f), i), n, ins[1..]);
    }
  }

  /** For every depth, pass-through and hardening, and every run from reset: the FIFO holds a queue of at most
      Depth entries; since the last clear, what was read and what the queue holds are together what was
      written, in order; and every output, in the next clock, is the queue's. */
  lemma FifoIsQueue<T>(p: Params<T>, entry: T, storage: seq<T>, ins: seq<In<T>>, i: In<T>)
    requires Sized(p) && |storage| == p.depth
    ensures var f0 := Start(p, entry, storage);
      var f, q, t := Run(p, f0, ins), RunQueue(p, [], UnderRst(f0), ins), Traced(p, f0, Trace([], []), ins);
      && Holds(p, f, q) && |q| <= p.depth && t.written == t.taken + q
      && var o, u := Outputs(p, f, i), UnderRst(f);
         && o.wready == Ready(p, q, u) && o.rvalid == Offered(p, q, u, i) && o.full == (|q| == p.depth)
           && o.depth == |q| && !o.err
         && (o.rvalid ==> Written(p, q, u, i) != [] && o.rdata == Written(p, q, u, i)[0])
         && Shown(p, q, i, o.rdata)
  {
    var f0 := Start(p, entry, storage);
    StartHolds(p, entry, storage);
    RunsInOrder(p, f0, [], Trace([], []), ins);
    OutputsAgree(p, Run(p, f0, ins), RunQueue(p, [], UnderRst(f0), ins), i);
    hide Outputs, Holds;
  }

  /** Hardened pointers make no difference to what the FIFO does. */
  lemma {:induction false} SecureIsPlain<T>(p: Params<T>, entry: T, storage: seq<T>, ins: seq<In<T>>, i: In<T>)
    requires Sized(p) && |storage| == p.depth
    ensures var s, n := p.(secure := true), p.(secure := false);
      var a := Outputs(s, Run(s, Start(s, entry, storage), ins), i);
      var b := Outputs(n, Run(n, Start(n, entry, storage), ins), i);
      a.wready == b.wready && a.rvalid == b.rvalid && a.full == b.full && a.depth == b.depth && !a.err && !b.err
      && (a.rvalid || p.zeroIfEmpty ==> a.rdata == b.rdata)
  {
    var s, n := p.(secure := true), p.(secure := false);
    FifoIsQueue(s, entry, storage, ins, i);
    FifoIsQueue(n, entry, storage, ins, i);
    SameQueue(s, n, [], UnderRst(Start(s, entry, storage)), ins);
    UnderAfter(s, Start(s, entry, storage), ins);
    UnderAfter(n, Start(n, entry, storage), ins);
    hide Outputs, Holds, Run, RunQueue;
  }

  lemma {:induction false} SameQueue<T>(s: Params<T>, n: Params<T>, q: seq<T>, underRst: bool, ins: seq<In<T>>)
    requires 1 <= s.depth == n.depth && s.pass == n.pass
    ensures RunQueue(s, q, underRst, ins) == RunQueue(n, q, underRst, ins)
    decreases |ins|
  {
    if ins != [] {
      SameQueue(s, n, After(s, q, underRst, ins[0]), false, ins[1..]);
    }
  }

  lemma {:induction false} UnderAfter<T>(p: Params<T>, f: Fifo<T>, ins: seq<In<T>>)
    requires Proper(p, f)
    ensures UnderRst(Run(p, f, ins)) == (ins == [] && UnderRst(f))
    decreases |ins|
  {
    if ins != [] {
      ClockProper(p, f, ins[0]);
      UnderAfter(p, Clock(p, f, ins[0]), ins[1..]);
    }
  }

  // ---- The registers -----------------------------------------------------------------------------------

  /** The FIFO for two entries and more. A pointer is a count register and, if hardened, its twin and error flag. */
  class FifoSync<T(0)> {
    const p: Params<T>
    const storage: array<T>
    var wptr: C.Regs
    var rptr: C.Regs
    var underRst: bool

    ghost function View(): Fifo<T>
      reads this, storage
    {
      Many(wptr, rptr, storage[..], underRst)
    }

    ghost predicate Valid()
      reads this, storage
    {
      Proper(p, View())
    }

    constructor (params: Params<T>)
      requires Sized(params) && params.depth >= 2
      ensures Valid() && fresh(storage) && p == params && Holds(p, View(), []) && underRst
    {
      p := params;
      storage := new T[params.depth];
      wptr, rptr, underRst := C.Reset(0, 2 * params.a), C.Reset(0, 2 * params.a), true;
    }

    /** One clock: the outputs, and the registers after the edge. */
    method Edge(i: In<T>, ghost q: seq<T>) returns (o: Out<T>)
      requires Valid() && Holds(p, View(), q)
      modifies this, storage
      ensures Valid() && View() == Clock(p, old(View()), i) && o == Outputs(p, old(View()), i)
      ensures Holds(p, View(), After(p, q, old(underRst), i))
    {
      hide Holds, After, Step, DepthOf, Full, Pointer, C.Low, C.InRange;
      ghost var f := View();
      ClockHolds(p, f, q, i);
      ClockProper(p, f, i);
      Positions(p, f);
      var w, r := wptr.primary, rptr.primary;
      var full, none := Full(w, r, p.a), w == r;
      var empty := none && !(p.pass && i.wvalid);
      var wready, rvalid := !full && !underRst, !empty && !(p.pass && underRst);
      var rdata := if p.pass && none && i.wvalid then i.wdata else storage[C.Low(r, p.a)];
      o := Out(wready, rvalid, if p.zeroIfEmpty && empty then p.zero else rdata, full, DepthOf(p, w, r),
               p.secure && (wptr.err || rptr.err));
      var incrW, incrR := i.wvalid && wready, rvalid && i.rready && !underRst;
      if incrW {
        storage[C.Low(w, p.a)] := i.wdata;
      }
      wptr, rptr := Step(p, wptr, i.clr, incrW), Step(p, rptr, i.clr, incrR);
      underRst := false;
      assert storage[..] == Clock(p, f, i).storage;
    }
  }

  /** The FIFO for one entry. */
  class FifoOne<T> {
    const p: Params<T>
    var full: bool
    var invFull: bool
    var errQ: bool
    var storage: T

    ghost function View(): Fifo<T>
      reads this
    {
      One(full, invFull, errQ, storage)
    }

    constructor (params: Params<T>, entry: T)
      requires Sized(params) && params.depth == 1
      ensures Proper(p, View()) && p == params && Holds(p, View(), [])
    {
      p := params;
      full, invFull, errQ, storage := false, true, false, entry;
    }

    /** One clock: the outputs, and the registers after the edge. */
    method Edge(i: In<T>, ghost q: seq<T>) returns (o: Out<T>)
      requires Holds(p, View(), q)
      modifies this
      ensures Proper(p, View()) && View() == Clock(p, old(View()), i) && o == Outputs(p, old(View()), i)
      ensures Holds(p, View(), After(p, q, false, i))
    {
      ClockHolds(p, View(), q, i);
      var rvalid := full || (p.pass && i.wvalid);
      var rdata := if full || !p.pass then storage else i.wdata;
      o := Out(!full, rvalid, if p.zeroIfEmpty && !rvalid then p.zero else rdata, full, if full then 1 else 0,
               p.secure && errQ);
      var next := (if rvalid then !i.rready else i.wvalid) && !i.clr;
      errQ := full == invFull;
      if i.wvalid && !full {
        storage := i.wdata;
      }
      full, invFull := next, !next;
    }
  }

  lemma Positions<T>(p: Params<T>, f: Fifo<T>)
    requires Proper(p, f) && f.Many?
    ensures 0 <= C.Low(f.w.primary, p.a) < |f.storage| && 0 <= C.Low(f.r.primary, p.a) < |f.storage|
  {}
}
