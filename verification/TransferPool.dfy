/** usb_transfer.c: the pool of transfer descriptors and the pointers of the context that lead into it. */
module TransferPool {
  import opened CrcRoutines
  import opened Transfer
  import opened Streams
  import opened PoolLinks
  import opened Seqs

  const BLANK: Desc := Desc([], NO_DATA_STAGE)

  class Pool {
    /** transfer_pool[]: the link and the content of each descriptor. */
    const next: array<Ptr>
    const desc: array<Desc>
    var free: Ptr
    var sending: Ptr
    var recving: Ptr
    /** stream[].received */
    var received: seq<Ptr>
    /** The pointer a caller holds between two operations, what the chains mean, and how many descriptors
        have been forgotten. */
    ghost var held: Ptr
    ghost var g: Lists
    ghost var lost: nat

    ghost function K(): Links
      reads this, next
    {
      Links(next[..], [free, sending, recving, held] + received)
    }

    ghost predicate Valid()
      reads this, next, desc
    {
      next.Length == POOL && desc.Length == POOL && |received| == MAX_STREAMS && Pooled(K(), g, lost)
    }

    /** What hangs on each pointer. */
    ghost function Slots(): (r: seq<seq<Desc>>)
      requires Valid()
      reads this, next, desc
      ensures |r| == SLOTS
    {
      Held(desc[..], g)
    }

    /** usb_transfer_setup: all descriptors are free. */
    constructor Setup()
      ensures Valid() && fresh(next) && fresh(desc) && lost == 0
      ensures |Slots()[FREE]| == POOL && forall s :: 0 < s < SLOTS ==> Slots()[s] == []
      ensures |g.lists| == SLOTS && g.lists[FREE] == seq(POOL, i => i)
      ensures free == 0 && forall i :: 0 <= i < POOL ==> next[i] == if i + 1 < POOL then i + 1 else NULL
    {
      next := new Ptr[POOL](_ => NULL);
      desc := new Desc[POOL](_ => BLANK);
      sending, recving, held := NULL, NULL, NULL;
      received := seq(MAX_STREAMS, _ => NULL);
      free, lost := NULL, 0;
      g := Lists(seq(SLOTS, s => if s == FREE then seq(POOL, i => i) else []), seq(POOL, _ => FREE));
      new;
      var n: Ptr := NULL;
      var idx := POOL;
      while idx > 0
        invariant 0 <= idx <= POOL
        invariant n == if idx < POOL then idx else NULL
        invariant forall i :: idx <= i < POOL ==> next[i] == if i + 1 < POOL then i + 1 else NULL
        modifies next
      {
        idx := idx - 1;
        next[idx] := n;
        n := idx;
      }
      free := n;
      AllFree(K(), g);
    }

    /** The pointer x is what the caller holds. */
    ghost predicate Holding(x: Ptr)
      requires Valid()
      reads this, next, desc
    {
      x == held && x != NULL
    }

    /** The one descriptor of slot s is x. */
    ghost predicate Owns(s: nat, x: Ptr)
      requires Valid()
      reads this, next, desc
    {
      Single(s) && x != NULL && K().heads[s] == x
    }

    /** transfer_alloc: a blank descriptor from the free list, if there is one. */
    method Alloc() returns (x: Ptr)
      requires Valid() && held == NULL
      modifies this`free, this`held, this`g, next, desc
      ensures Valid() && lost == old(lost)
      ensures x == NULL <==> old(Slots())[FREE] == []
      ensures x == NULL ==> held == NULL && Slots() == old(Slots())
      ensures x != NULL ==> Holding(x) && Slots() == old(Slots())[FREE := old(Slots())[FREE][1..]][HELD := [BLANK]]
    {
      x := free;
      HeadOf(K(), g, FREE);
      if x != NULL {
        MovePooled(K(), g, lost, desc[..], FREE, HELD);
        free := next[x];
        next[x] := NULL;
        held, g := x, MoveLists(g, FREE, HELD);
        assert K() == MoveLinks(old(K()), FREE, HELD);
        Init(x);
      }
    }

    /** transfer_init, but for the link, which is clear already. */
    method Init(x: Ptr)
      requires Valid() && Holding(x)
      modifies desc
      ensures Valid() && Slots() == old(Slots())[HELD := [BLANK]]
    {
      Write(x, HELD, BLANK);
    }

    /** A caller fills in a descriptor it may write to. */
    method Write(x: Ptr, ghost s: nat, d: Desc)
      requires Valid() && Owns(s, x)
      modifies desc
      ensures Valid() && Slots() == old(Slots())[s := [d]]
    {
      HeadOf(K(), g, s);
      WriteHeld(K(), g, desc[..], s, d);
      ghost var before := desc[..];
      desc[x] := d;
      assert desc[..] == before[x := d];
    }

    /** The caller takes over the descriptor that `sending` points to. */
    method TakeSending() returns (x: Ptr)
      requires Valid() && held == NULL && sending != NULL
      modifies this`sending, this`held, this`g
      ensures Valid() && Holding(x) && sending == NULL && x == old(sending)
      ensures Slots() == old(Slots())[SENDING := []][HELD := old(Slots())[SENDING]] && |old(Slots())[SENDING]| == 1
    {
      MoveSingle(K(), g, lost, desc[..], SENDING, HELD);
      x := sending;
      sending := NULL;
      held, g := x, MoveLists(g, SENDING, HELD);
      assert K() == MoveLinks(old(K()), SENDING, HELD);
    }

    /** It points to the held descriptor from now on. */
    method PutSending(x: Ptr)
      requires Valid() && Holding(x) && sending == NULL
      modifies this`sending, this`held, this`g
      ensures Valid() && held == NULL && sending == x
      ensures Slots() == old(Slots())[HELD := []][SENDING := old(Slots())[HELD]]
    {
      MoveSingle(K(), g, lost, desc[..], HELD, SENDING);
      sending := x;
      held, g := NULL, MoveLists(g, HELD, SENDING);
      assert K() == MoveLinks(old(K()), HELD, SENDING);
    }

    /** The caller takes over the descriptor that `recving` points to. */
    method TakeRecving() returns (x: Ptr)
      requires Valid() && held == NULL && recving != NULL
      modifies this`recving, this`held, this`g
      ensures Valid() && Holding(x) && recving == NULL && x == old(recving)
      ensures Slots() == old(Slots())[RECVING := []][HELD := old(Slots())[RECVING]] && |old(Slots())[RECVING]| == 1
    {
      MoveSingle(K(), g, lost, desc[..], RECVING, HELD);
      x := recving;
      recving := NULL;
      held, g := x, MoveLists(g, RECVING, HELD);
      assert K() == MoveLinks(old(K()), RECVING, HELD);
    }

    /** It points to the held descriptor from now on. */
    method PutRecving(x: Ptr)
      requires Valid() && Holding(x) && recving == NULL
      modifies this`recving, this`held, this`g
      ensures Valid() && held == NULL && recving == x
      ensures Slots() == old(Slots())[HELD := []][RECVING := old(Slots())[HELD]]
    {
      MoveSingle(K(), g, lost, desc[..], HELD, RECVING);
      recving := x;
      held, g := NULL, MoveLists(g, HELD, RECVING);
      assert K() == MoveLinks(old(K()), HELD, RECVING);
    }

    /** transfer_release: the held descriptor becomes the first free one. */
    method Release(x: Ptr)
      requires Valid() && Holding(x)
      modifies this`free, this`held, this`g, next
      ensures Valid() && held == NULL && |old(Slots())[HELD]| == 1
      ensures Slots() == old(Slots())[HELD := []][FREE := old(Slots())[HELD] + old(Slots())[FREE]]
    {
      MoveOne(K(), g, lost, desc[..], HELD, FREE);
      next[x] := free;
      free := x;
      held, g := NULL, MoveLists(g, HELD, FREE);
      assert K() == MoveLinks(old(K()), HELD, FREE);
    }

    /** The descriptor just sent goes back to the pool. */
    method ReleaseSending()
      requires Valid() && held == NULL
      modifies this`free, this`sending, this`held, this`g, next
      ensures Valid() && held == NULL && sending == NULL
      ensures Slots() == old(Slots())[SENDING := []][FREE := old(Slots())[SENDING] + old(Slots())[FREE]]
    {
      Behind(SENDING, sending);
      Behind(HELD, held);
      assert [] + Slots()[FREE] == Slots()[FREE];
      if sending != NULL {
        var t := TakeSending();
        Release(t);
      }
    }

    /** A stream's oldest packet is released. */
    method ReleaseReceived(id: nat)
      requires Valid() && id < MAX_STREAMS && received[id] != NULL
      modifies this`free, this`received, this`g, next
      ensures Valid()
      ensures old(Slots())[RECEIVED(id)] != []
      ensures var b := old(Slots());
        Slots() == b[RECEIVED(id) := b[RECEIVED(id)][1..]][FREE := [b[RECEIVED(id)][0]] + b[FREE]]
    {
      MovePooled(K(), g, lost, desc[..], RECEIVED(id), FREE);
      var rx := received[id];
      received := received[id := next[rx]];
      next[rx] := free;
      free := rx;
      g := MoveLists(g, RECEIVED(id), FREE);
      assert K() == MoveLinks(old(K()), RECEIVED(id), FREE);
    }

    /** The held descriptor becomes the only packet of a stream. */
    method PutReceived(x: Ptr, id: nat)
      requires Valid() && Holding(x) && id < MAX_STREAMS && received[id] == NULL
      modifies this`received, this`held, this`g
      ensures Valid() && held == NULL
      ensures Slots() == old(Slots())[HELD := []][RECEIVED(id) := old(Slots())[HELD]]
    {
      HeadOf(K(), g, RECEIVED(id));
      MoveOne(K(), g, lost, desc[..], HELD, RECEIVED(id));
      assert Slots()[RECEIVED(id)] == [] && Slots()[HELD] + [] == Slots()[HELD];
      received := received[id := x];
      held, g := NULL, MoveLists(g, HELD, RECEIVED(id));
      assert K() == MoveLinks(old(K()), HELD, RECEIVED(id));
    }

    /** The last packet of a stream's list. */
    method Last(id: nat) returns (tr: Ptr)
      requires Valid() && id < MAX_STREAMS && received[id] != NULL
      ensures g.lists[RECEIVED(id)] != [] && tr == g.lists[RECEIVED(id)][|g.lists[RECEIVED(id)]| - 1]
    {
      ghost var l, n := g.lists[RECEIVED(id)], 0;
      HeadOf(K(), g, RECEIVED(id));
      tr := received[id];
      ListAt(K(), g, RECEIVED(id), 0);
      while next[tr] != NULL
        invariant 0 <= n < |l| && 0 <= tr < POOL && tr == l[n] && next[tr] == LinkAt(l, n + 1)
        decreases |l| - n
      {
        tr := next[tr];
        n := n + 1;
        ListAt(K(), g, RECEIVED(id), n);
      }
    }

    /** The held descriptor is linked behind the last packet of a stream. */
    method Append(x: Ptr, id: nat)
      requires Valid() && Holding(x) && id < MAX_STREAMS && received[id] != NULL
      modifies this`held, this`g, next
      ensures Valid() && held == NULL && |old(Slots())[HELD]| == 1
      ensures var b := old(Slots());
        Slots() == b[HELD := []][RECEIVED(id) := b[RECEIVED(id)] + b[HELD]]
    {
      var tr := Last(id);
      HeadOf(K(), g, HELD);
      AppendPooled(K(), g, lost, desc[..], HELD, RECEIVED(id));
      next[tr] := x;
      held, g := NULL, AppendLists(g, HELD, RECEIVED(id));
      assert K() == AppendLinks(old(K()), HELD, RECEIVED(id), tr);
    }

    /** A stream that does not send drops what it received. */
    method Discard(id: nat)
      requires Valid() && id < MAX_STREAMS
      modifies this`free, this`received, this`g, next
      ensures Valid()
      ensures |Slots()[FREE]| == |old(Slots())[FREE]| + |old(Slots())[RECEIVED(id)]|
      ensures Slots() == old(Slots())[RECEIVED(id) := []][FREE := Slots()[FREE]]
    {
      HeadOf(K(), g, RECEIVED(id));
      while received[id] != NULL
        invariant Valid() && (received[id] != NULL) == (g.lists[RECEIVED(id)] != [])
        invariant |Slots()[FREE]| + |Slots()[RECEIVED(id)]| == |old(Slots())[FREE]| + |old(Slots())[RECEIVED(id)]|
        invariant Slots() == old(Slots())[RECEIVED(id) := Slots()[RECEIVED(id)]][FREE := Slots()[FREE]]
        decreases |Slots()[RECEIVED(id)]|
      {
        ReleaseReceived(id);
        HeadOf(K(), g, RECEIVED(id));
      }
    }

    /** streams_init drops a stream's list without releasing its packets. */
    method Forget(id: nat)
      requires Valid() && id < MAX_STREAMS
      modifies this`received, this`g, this`lost
      ensures Valid() && received == old(received)[id := NULL]
      ensures lost == old(lost) + |old(Slots())[RECEIVED(id)]|
      ensures Slots() == old(Slots())[RECEIVED(id) := []]
    {
      ForgetPooled(K(), g, lost, RECEIVED(id));
      received := received[id := NULL];
      lost, g := lost + |g.lists[RECEIVED(id)]|, ForgetLists(g, RECEIVED(id));
      assert K() == Links(old(K()).next, old(K()).heads[RECEIVED(id) := NULL]);
    }

    // ---- Building transfers ----------------------------------------------------------------------------

    /** transfer_token. */
    method Token(x: Ptr, ghost s: nat, pid: bv8, device: bv8, endpoint: bv8)
      requires Valid() && Owns(s, x) && device < 0x80 && endpoint < 0x10
      modifies desc
      ensures Valid() && Slots() == old(Slots())[s := [Desc(TokenBytes(pid, device, endpoint), NO_DATA_STAGE)]]
    {
      Write(x, s, BLANK);
      Write(x, s, Desc(TokenBytes(pid, device, endpoint), NO_DATA_STAGE));
    }

    /** transfer_data_start; false where the C code asserts for lack of space. */
    method DataStart(x: Ptr, ghost s: nat, pid: bv8, size: nat) returns (ok: bool)
      requires Valid() && Owns(s, x) && IsToggle(pid) && |desc[x].bytes| < MAX_DATA
      modifies desc
      ensures Valid() && ok == (size <= MAX_DATA - 1 - |old(desc[x]).bytes|)
      ensures Slots() == if !ok then old(Slots()) else
                         old(Slots())[s := [Desc(old(desc[x]).bytes + [pid], |old(desc[x]).bytes|)]]
    {
      var t := desc[x];
      ok := size <= MAX_DATA - 1 - |t.bytes|;
      if ok {
        Write(x, s, Desc(t.bytes + [pid], |t.bytes|));
      }
    }

    /** transfer_data_end, once `data` has been written behind the data PID. */
    method DataEnd(x: Ptr, ghost s: nat, data: seq<bv8>)
      requires Valid() && Owns(s, x)
      requires desc[x].dataStart + 1 == |desc[x].bytes| && |desc[x].bytes| + |data| < MAX_DATA - 2
      modifies desc
      ensures Valid()
      ensures Slots() == old(Slots())[s := [Desc(old(desc[x]).bytes + data + Crc16Bytes(data), old(desc[x]).dataStart)]]
    {
      var t := desc[x];
      var crc := Crc16Pair(data);
      Write(x, s, Desc(t.bytes + data + crc, t.dataStart));
    }

    /** transfer_append; false where there is no space. */
    method AppendBytes(x: Ptr, ghost s: nat, d: seq<bv8>) returns (ok: bool)
      requires Valid() && Owns(s, x) && |desc[x].bytes| <= MAX_DATA
      modifies desc
      ensures Valid() && ok == (|d| <= MAX_DATA - |old(desc[x]).bytes|)
      ensures Slots() == if !ok then old(Slots()) else old(Slots())[s := [Desc(old(desc[x]).bytes + d,
        old(desc[x]).dataStart)]]
    {
      var t := desc[x];
      ok := |d| <= MAX_DATA - |t.bytes|;
      if ok {
        Write(x, s, Desc(t.bytes + d, t.dataStart));
      }
    }

    /** The content part of transfer_status. */
    method StatusStage(x: Ptr, ghost s: nat, pid: bv8)
      requires Valid() && Owns(s, x)
      modifies desc
      ensures Valid() && Slots() == old(Slots())[s := [Desc([pid], NO_DATA_STAGE)]]
    {
      Write(x, s, Desc([pid], NO_DATA_STAGE));
    }

    /** What a slot with a pointer holds is the descriptor behind the pointer. */
    lemma Behind(s: nat, x: Ptr)
      requires Valid() && Single(s) && x == if s == SENDING then sending else if s == RECVING then recving else held
      ensures |Slots()[s]| <= 1 && (x == NULL <==> Slots()[s] == [])
      ensures x != NULL ==> Owns(s, x) && x < desc.Length && Slots()[s] == [desc[x]]
    {
      HeadOf(K(), g, s);
    }

    lemma IsHeld(x: Ptr)
      requires Valid() && Holding(x)
      ensures x == held && x != NULL
    {}

    /** The oldest packet of a stream. */
    lemma Oldest(id: nat)
      requires Valid() && id < MAX_STREAMS
      ensures |received| == MAX_STREAMS
      ensures received[id] == NULL <==> Slots()[RECEIVED(id)] == []
      ensures received[id] != NULL ==> received[id] < desc.Length && Slots()[RECEIVED(id)][0] == desc[received[id]]
    {
      HeadOf(K(), g, RECEIVED(id));
    }

    /** Free, used and forgotten descriptors are all there are. */
    lemma Conserved()
      requires Valid()
      ensures Total(Slots()) + lost == POOL
    {
      SameTotal(Slots(), g.lists);
    }
  }

  lemma ListAt(k: Links, g: Lists, s: nat, n: nat)
    requires Linked(k, g) && s < SLOTS && n < |g.lists[s]|
    ensures g.lists[s][n] < POOL && |k.next| == POOL && k.next[g.lists[s][n]] == LinkAt(g.lists[s], n + 1)
    ensures n == 0 ==> k.heads[s] == g.lists[s][0]
  {
    Slot(k, g, s);
  }

  lemma {:induction false} SameTotal<S, T>(a: seq<seq<S>>, b: seq<seq<T>>)
    requires |a| == |b| && forall i :: 0 <= i < |a| ==> |a[i]| == |b[i]|
    ensures Total(a) == Total(b)
  {
    if a != [] {
      SameTotal(a[1..], b[1..]);
    }
  }

  /** Moving the one descriptor of a slot. */
  lemma MoveOne(k: Links, g: Lists, lost: nat, desc: seq<Desc>, s: nat, t: nat)
    requires Pooled(k, g, lost) && |desc| == POOL && Single(s) && t < SLOTS && s != t && k.heads[s] != NULL
    requires Single(t) ==> k.heads[t] == NULL
    ensures g.lists[s] != [] && g.lists[s][0] < |g.owner| && 0 <= k.heads[s] < |k.next| && k.next[k.heads[s]] == NULL
    ensures Pooled(MoveLinks(k, s, t), MoveLists(g, s, t), lost)
    ensures var b, a := Held(desc, g), Held(desc, MoveLists(g, s, t));
      |b[s]| == 1 && a == b[s := []][t := b[s] + b[t]]
  {
    hide Linked, Along, Total;
    HeadOf(k, g, s);
    MovePooled(k, g, lost, desc, s, t);
    var b := Held(desc, g);
    assert |b[s]| == 1 && b[s] == [b[s][0]] && b[s][1..] == [];
  }

  lemma MoveSingle(k: Links, g: Lists, lost: nat, desc: seq<Desc>, s: nat, t: nat)
    requires Pooled(k, g, lost) && |desc| == POOL && Single(s) && Single(t) && s != t && k.heads[s] != NULL
      && k.heads[t] == NULL
    ensures g.lists[s] != [] && g.lists[s][0] < |g.owner| && 0 <= k.heads[s] < |k.next|
    ensures Pooled(MoveLinks(k, s, t), MoveLists(g, s, t), lost)
    ensures MoveLinks(k, s, t) == Links(k.next, k.heads[s := NULL][t := k.heads[s]])
    ensures var b, a := Held(desc, g), Held(desc, MoveLists(g, s, t));
      |b[s]| == 1 && a == b[s := []][t := b[s]]
  {
    hide Linked, Along, Total;
    HeadOf(k, g, s);
    HeadOf(k, g, t);
    MoveOne(k, g, lost, desc, s, t);
    var b := Held(desc, g);
    assert b[t] == [] && b[s] + b[t] == b[s];
    assert k.next[k.heads[s] := NULL] == k.next;
  }

  lemma HeadOf(k: Links, g: Lists, s: nat)
    requires Linked(k, g) && s < SLOTS
    ensures |k.heads| == |g.lists| == SLOTS && |k.next| == POOL
    ensures (k.heads[s] != NULL) == (g.lists[s] != [])
    ensures k.heads[s] != NULL ==> k.heads[s] == g.lists[s][0] && k.heads[s] < POOL
    ensures |g.lists[s]| == 1 ==> k.heads[s] != NULL && k.next[k.heads[s]] == NULL
  {
    Slot(k, g, s);
  }

  /** The state in which every descriptor is free, in order of its index. */
  lemma AllFree(k: Links, g: Lists)
    requires |k.next| == POOL && |k.heads| == SLOTS && k.heads[FREE] == 0
    requires (forall s :: 0 < s < SLOTS ==> k.heads[s] == NULL)
      && (forall i :: 0 <= i < POOL ==> k.next[i] == if i + 1 < POOL then i + 1 else NULL)
    requires |g.lists| == SLOTS && g.lists[FREE] == seq(POOL, i => i)
      && (forall s :: 0 < s < SLOTS ==> g.lists[s] == [])
    requires g.owner == seq(POOL, _ => FREE)
    ensures Pooled(k, g, 0)
  {
    AllLinked(k, g);
    LinkedInPool(k, g);
    var all := g.lists[FREE];
    assert LostSet(g.owner) == {};
    assert g.lists == [all] + g.lists[1..];
    NoneIn(g.lists[1..]);
    hide Linked, Total, InPool;
    TotalFirst(g.lists);
  }

  lemma AllLinked(k: Links, g: Lists)
    requires |k.next| == POOL && |k.heads| == SLOTS && k.heads[FREE] == 0
    requires (forall s :: 0 < s < SLOTS ==> k.heads[s] == NULL)
      && (forall i :: 0 <= i < POOL ==> k.next[i] == if i + 1 < POOL then i + 1 else NULL)
    requires |g.lists| == SLOTS && g.lists[FREE] == seq(POOL, i => i)
      && (forall s :: 0 < s < SLOTS ==> g.lists[s] == [])
    requires g.owner == seq(POOL, _ => FREE)
    ensures Linked(k, g)
  {
    var all := g.lists[FREE];
    Ascending(k.next, all, g.owner);
    forall s | 0 <= s < SLOTS
      ensures SlotOk(k, g, s)
    {
      if s > 0 {
        assert g.lists[s] == [];
      }
    }
  }

  lemma TotalFirst<T>(q: seq<seq<T>>)
    requires q != []
    ensures Total(q) == |q[0]| + Total(q[1..])
  {}

  lemma Ascending(next: seq<Ptr>, all: seq<nat>, owner: seq<nat>)
    requires |next| == POOL && |owner| == POOL && all == seq(POOL, i => i)
    requires forall i :: 0 <= i < POOL ==> next[i] == if i + 1 < POOL then i + 1 else NULL
    requires forall i :: 0 <= i < POOL ==> owner[i] == FREE
    ensures Chain(next, 0, all) && Holds(owner, all, FREE)
  {
    forall i | 0 <= i < POOL
      ensures i in all
    {
      assert all[i] == i;
    }
  }

}
