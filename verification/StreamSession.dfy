/** A whole streaming session in place: calls of the host and everything that may come between them. */
module StreamSession {
  import opened Transfer
  import opened Streams
  import opened StreamRuns
  import opened StreamLaws
  import opened StreamRestart
  import opened PoolLinks
  import opened TransferPool
  import opened StreamHost
  import opened Seqs
  import UsbMonitor

  /** The idle arm's call, the end of a transmission, a packet from the device, the begin of a frame, or a report
      of the bit level. */
  datatype Op = Call | Done | Packet(bytes: seq<bv8>) | Frame(frame: nat) | Report(pid: bv8, bus: BusState, ticks: nat)

  /** The packets have a PID, and the clock is a 32-bit one. */
  predicate Possible(op: Op) {
    (op.Packet? ==> op.bytes != []) && (op.Report? ==> op.ticks < TWO32)
  }

  /** A frame that begins while an answer is awaited, or when the host has given up. */
  predicate Interrupts(c: Ctx, d: Ctx) {
    Restarts(c, d) && (c.hostSt == HS_WAITACK || c.hostSt == HS_ERROR)
  }

  /** Each context follows from the one before it by the steps of a run, or by such a frame. */
  predicate Session(cs: seq<Ctx>) {
    && |cs| >= 1 && (forall k :: 0 <= k < |cs| ==> ValidCtx(cs[k]))
    && forall k :: 0 <= k < |cs| - 1 ==> Step(cs[k], cs[k + 1]) || Interrupts(cs[k], cs[k + 1])
  }

  lemma SessionRuns(cs: seq<Ctx>)
    requires Session(cs) && forall k :: 0 <= k < |cs| - 1 ==> !Interrupts(cs[k], cs[k + 1])
    ensures Run(cs)
  {
    hide ValidCtx, Step, Interrupts;
  }

  lemma SessionSnoc(cs: seq<Ctx>, d: Ctx)
    requires Session(cs) && ValidCtx(d) && (Step(cs[|cs| - 1], d) || Interrupts(cs[|cs| - 1], d))
    ensures Session(cs + [d])
  {
    hide ValidCtx, Step, Interrupts;
  }

  lemma Extended(cs: seq<Ctx>, c: Ctx, d: Ctx)
    requires Session(cs) && cs[|cs| - 1] == c && ValidCtx(c) && ValidCtx(d) && (Interlude(c, d) || Interrupts(c, d))
    ensures Session(cs + [d]) && cs <= cs + [d]
  {
    hide ValidCtx, Session, Interlude, Interrupts, Service;
    SessionSnoc(cs, d);
  }

  lemma Served(cs: seq<Ctx>, c: Ctx, d: Ctx, e: Ctx)
    requires Session(cs) && cs[|cs| - 1] == c && ValidCtx(c) && ValidCtx(d) && ValidCtx(e)
    requires Interlude(c, d) && d.sending.Some? && Service(d) == Next(e)
    ensures Session(cs + [d, e]) && cs <= cs + [d, e]
  {
    hide ValidCtx, Session, Interlude, Interrupts, Service;
    SessionSnoc(cs, d);
    SessionSnoc(cs + [d], e);
    assert cs + [d] + [e] == cs + [d, e];
  }

  /** The idle arm: a descriptor is provided if need be, and the streams are served. */
  method Serve(h: Host, ghost cs: seq<Ctx>) returns (ok: bool, ghost ds: seq<Ctx>)
    requires h.Valid() && !h.transmitting && Session(cs) && cs[|cs| - 1] == h.View()
    modifies h, h.pool`free, h.pool`received, h.pool`sending, h.pool`recving, h.pool`held, h.pool`g, h.pool.next,
      h.pool.desc
    ensures h.pool.Valid() && Session(ds) && cs <= ds
    ensures ok ==> h.Valid() && ds[|ds| - 1] == h.View()
  {
    hide Pool.Valid, Pool.Slots, Host.View, Session, Service, Interlude, ValidCtx, Interrupts, Used;
    ghost var c := h.View();
    ds := cs;
    ok := h.Idle();
    if ok {
      ghost var d := h.View();
      ok := h.StreamsService();
      if ok {
        Served(cs, c, d, h.View());
        ds := cs + [d, h.View()];
      }
    }
  }

  /** One operation. While the driver sends, neither the idle arm runs nor does a frame restart the host. False
      where the C code asserts or is undefined. */
  method Operate(h: Host, op: Op, ghost cs: seq<Ctx>) returns (ok: bool, ghost ds: seq<Ctx>)
    requires h.Valid() && Possible(op) && Session(cs) && cs[|cs| - 1] == h.View()
    modifies h, h.pool`free, h.pool`received, h.pool`sending, h.pool`recving, h.pool`held, h.pool`g, h.pool.next,
      h.pool.desc
    ensures h.pool.Valid() && Session(ds) && cs <= ds
    ensures ok ==> h.Valid() && ds[|ds| - 1] == h.View()
  {
    hide Pool.Valid, Pool.Slots, Host.View, Session, Service, Interlude, ValidCtx, Interrupts, Used;
    ghost var c := h.View();
    ok, ds := true, cs;
    match op {
      case Call =>
        if !h.transmitting {
          ok, ds := Serve(h, cs);
        }
      case Done =>
        h.Sent();
        Extended(cs, c, h.View());
        ds := cs + [h.View()];
      case Packet(bytes) =>
        ok := h.ReceivePacket(UsbMonitor.PacketEvents(bytes), bytes);
        if ok {
          Extended(cs, c, h.View());
          ds := cs + [h.View()];
        }
      case Frame(frame) =>
        if !h.transmitting {
          h.Fields();
          ok := h.FrameStart(frame);
          if ok {
            Restarted(c, h.View());
            Extended(cs, c, h.View());
            ds := cs + [h.View()];
          }
        }
      case Report(pid, bus, ticks) =>
        h.Observe(pid, bus, ticks);
        Extended(cs, c, h.View());
        ds := cs + [h.View()];
    }
  }

  lemma Restarted(c: Ctx, d: Ctx)
    requires d == c.(hostSt := HS_STARTFRAME, frameStart := c.tickBits, sending := d.sending,
      transmitting := d.transmitting)
    requires c.hostSt != HS_WAITACK && c.hostSt != HS_ERROR ==> Interlude(c, d)
    ensures Interlude(c, d) || Interrupts(c, d)
  {
    hide Interlude;
  }

  /** A host that has forgotten no descriptor never does so, whatever happens to it: after any operations, up to one
      that fails if there is one, each of the 32 pool entries is in exactly one place. And what has happened is a
      session: a run of the streaming host, but for frames that interrupt it. */
  method RunSession(h: Host, ops: seq<Op>) returns (done: nat, ok: bool, ghost cs: seq<Ctx>)
    requires h.Valid() && h.pool.lost == 0 && forall k :: 0 <= k < |ops| ==> Possible(ops[k])
    modifies h, h.pool`free, h.pool`received, h.pool`sending, h.pool`recving, h.pool`held, h.pool`g, h.pool.next,
      h.pool.desc
    ensures h.pool.Valid() && h.pool.lost == 0
    ensures var g := h.pool.g;
      && |g.lists| == SLOTS && |g.owner| == POOL && Total(g.lists) == POOL
      && forall i :: 0 <= i < POOL ==> g.owner[i] < SLOTS && i in g.lists[g.owner[i]]
    ensures Session(cs) && cs[0] == old(h.View())
    ensures ok ==> done == |ops| && h.Valid() && cs[|cs| - 1] == h.View()
    ensures !ok ==> done < |ops|
  {
    hide Pool.Slots, Host.View, Session, ValidCtx;
    ghost var c := h.View();
    Single(c);
    cs, done, ok := [c], 0, true;
    while done < |ops| && ok
      invariant 0 <= done <= |ops| && h.pool.Valid() && h.pool.lost == 0 && Session(cs) && |cs| >= 1 && cs[0] == c
      invariant ok ==> h.Valid() && cs[|cs| - 1] == h.View()
      invariant !ok ==> done < |ops|
      decreases |ops| - done, ok
    {
      ok, cs := Operate(h, ops[done], cs);
      if ok {
        done := done + 1;
      }
    }
    WholePool(h.pool.K(), h.pool.g);
  }

  lemma Single(c: Ctx)
    requires ValidCtx(c)
    ensures Session([c])
  {}

  /** From creation on: the streams begin their histories, and what follows is a run of them, so that every law of
      StreamRuns holds of the host as it is in memory, unless a frame has interrupted it. */
  method StreamingTest(n: nat, types: seq<XfrType>, u: Setup, ops: seq<Op>)
    returns (h: Host, ok: bool, ghost cs: seq<Ctx>)
    requires 1 <= n <= MAX_STREAMS && n <= |types| && forall k :: 0 <= k < |ops| ==> Possible(ops[k])
    ensures h.pool.Valid() && h.pool.lost == 0 && Session(cs)
    ensures ok ==> h.Valid() && cs[|cs| - 1] == h.View()
    ensures u.send ==> forall id :: 0 <= id < n && types[id] != Isochronous ==> Fresh(cs[0], id)
    ensures (forall k :: 0 <= k < |cs| - 1 ==> !Interrupts(cs[k], cs[k + 1])) ==> Run(cs)
  {
    hide Pool.Valid, Pool.Slots, Host.View, ValidCtx, Fresh, Interrupts, Step, Run, Used;
    h := Launch(n, types, u);
    var done;
    done, ok, cs := RunSession(h, ops);
    if forall k :: 0 <= k < |cs| - 1 ==> !Interrupts(cs[k], cs[k + 1]) {
      SessionRuns(cs);
    }
  }
}
