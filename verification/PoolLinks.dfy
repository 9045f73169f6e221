/** The descriptor pool as links between its 32 entries: chains of `next` pointers that start in the
    context's fields, and who owns each entry. */
module PoolLinks {
  import opened Seqs

  const POOL: nat := 32

  type Ptr = p: int | -1 <= p < 32 witness -1
  const NULL: Ptr := -1

  /** The fields of the context that point into the pool, and the caller's own pointer. */
  const FREE: nat := 0
  const SENDING: nat := 1
  const RECVING: nat := 2
  const HELD: nat := 3
  const SLOTS: nat := 19
  /** Owner of the entries nothing points to any more. */
  const LOST: nat := 19

  /** The list of packets received by a stream. */
  function RECEIVED(id: nat): (r: nat)
    requires id < 15
    ensures HELD < r < SLOTS
  {
    4 + id
  }

  datatype Links = Links(next: seq<Ptr>, heads: seq<Ptr>)

  /** What the links mean: the entries of each chain, in order, and the owner of each entry. */
  datatype Lists = Lists(lists: seq<seq<nat>>, owner: seq<nat>)

  function LinkAt(l: seq<nat>, k: nat): (r: int) { if k < |l| then l[k] else -1 }

  /** The chain from head runs through l and ends. */
  predicate Chain(next: seq<Ptr>, head: Ptr, l: seq<nat>) {
    head == LinkAt(l, 0) && forall k :: 0 <= k < |l| ==> l[k] < |next| && next[l[k]] == LinkAt(l, k + 1)
  }

  /** l holds each entry of owner o once, and no other. */
  predicate Holds(owner: seq<nat>, l: seq<nat>, o: nat) {
    && (forall k :: 0 <= k < |l| ==> l[k] < |owner| && owner[l[k]] == o)
    && (forall j, k :: 0 <= j < k < |l| ==> l[j] != l[k])
    && (forall i :: 0 <= i < |owner| && owner[i] == o ==> i in l)
  }

  predicate SlotOk(k: Links, g: Lists, s: nat)
    requires s < |k.heads| && s < |g.lists|
  {
    Chain(k.next, k.heads[s], g.lists[s]) && Holds(g.owner, g.lists[s], s)
  }

  predicate Shaped(k: Links, g: Lists) {
    |k.next| == POOL && |k.heads| == SLOTS && |g.lists| == SLOTS && |g.owner| == POOL
    && forall i :: 0 <= i < POOL ==> g.owner[i] <= LOST
  }

  /** Every chain is the list of the entries its owner holds; so no chain is cyclic, no two share an entry,
      and an entry is in no chain only if it is lost. */
  predicate Linked(k: Links, g: Lists) {
    Shaped(k, g) && forall s :: 0 <= s < SLOTS ==> SlotOk(k, g, s)
  }

  // ---- Moving an entry from one chain to another -------------------------------------------------------

  lemma PopSlot(next: seq<Ptr>, head: Ptr, l: seq<nat>, owner: seq<nat>, o: nat, t: nat, p: Ptr)
    requires Chain(next, head, l) && Holds(owner, l, o) && l != [] && o != t && |next| == |owner|
    ensures head == l[0] < |next| && next[head] == LinkAt(l, 1) && owner[head] == o
    ensures Chain(next[head := p], next[head], l[1..]) && Holds(owner[head := t], l[1..], o)
  {
    forall i | 0 <= i < |owner| && owner[head := t][i] == o
      ensures i in l[1..]
    {
      assert i in l && i != l[0];
    }
  }

  lemma PushSlot(next: seq<Ptr>, head: Ptr, l: seq<nat>, owner: seq<nat>, o: nat, x: Ptr)
    requires Chain(next, head, l) && Holds(owner, l, o) && |next| == |owner| && 0 <= x < |owner| && owner[x] != o
    ensures Chain(next[x := head], x, [x as nat] + l) && Holds(owner[x := o], [x as nat] + l, o)
  {
    var l' := [x as nat] + l;
    forall k | 0 <= k < |l'|
      ensures l'[k] < |next| && next[x := head][l'[k]] == LinkAt(l', k + 1)
    {
      if k > 0 {
        assert l'[k] == l[k - 1];
      }
    }
    forall i | 0 <= i < |owner| && owner[x := o][i] == o
      ensures i in l'
    {
      if i != x {
        assert i in l;
        assert i in l';
      }
    }
  }

  lemma KeepSlot(next: seq<Ptr>, head: Ptr, l: seq<nat>, owner: seq<nat>, o: nat, x: Ptr, p: Ptr, t: nat)
    requires Chain(next, head, l) && Holds(owner, l, o) && |next| == |owner| && 0 <= x < |owner| && owner[x] != o
      && t != o
    ensures Chain(next[x := p], head, l) && Holds(owner[x := t], l, o)
  {}

  /** The first entry of chain s becomes the first of chain t. */
  function MoveLinks(k: Links, s: nat, t: nat): Links
    requires s < |k.heads| && t < |k.heads| && 0 <= k.heads[s] < |k.next|
  {
    var x := k.heads[s];
    Links(k.next[x := k.heads[t]], k.heads[s := k.next[x]][t := x])
  }

  function MoveLists(g: Lists, s: nat, t: nat): Lists
    requires s < |g.lists| && t < |g.lists| && g.lists[s] != [] && g.lists[s][0] < |g.owner|
  {
    var x := g.lists[s][0];
    Lists(g.lists[s := g.lists[s][1..]][t := [x] + g.lists[t]], g.owner[x := t])
  }

  lemma Slot(k: Links, g: Lists, s: nat)
    requires Linked(k, g) && s < SLOTS
    ensures SlotOk(k, g, s) && Chain(k.next, k.heads[s], g.lists[s]) && Holds(g.owner, g.lists[s], s)
    ensures |k.heads| == |g.lists| == SLOTS && |k.next| == |g.owner| == POOL
    ensures (k.heads[s] != NULL) == (g.lists[s] != [])
    ensures k.heads[s] != NULL ==> k.heads[s] == g.lists[s][0] && g.lists[s][0] < POOL && g.owner[k.heads[s]] == s
  {}

  lemma MoveLinked(k: Links, g: Lists, s: nat, t: nat)
    requires Linked(k, g) && s < SLOTS && t < SLOTS && s != t && k.heads[s] != NULL
    ensures g.lists[s] != [] && g.lists[s][0] < |g.owner| && 0 <= k.heads[s] < |k.next|
    ensures Linked(MoveLinks(k, s, t), MoveLists(g, s, t))
  {
    Slot(k, g, s);
    Slot(k, g, t);
    var x := k.heads[s];
    PopSlot(k.next, x, g.lists[s], g.owner, s, t, k.heads[t]);
    PushSlot(k.next, k.heads[t], g.lists[t], g.owner, t, x);
    var k', g' := MoveLinks(k, s, t), MoveLists(g, s, t);
    forall u | 0 <= u < SLOTS
      ensures SlotOk(k', g', u)
    {
      if u != s && u != t {
        Slot(k, g, u);
        KeepSlot(k.next, k.heads[u], g.lists[u], g.owner, u, x, k.heads[t], t);
      }
    }
  }

  // ---- Appending to a stream's list --------------------------------------------------------------------

  /** The single entry of chain s is linked behind the last entry of chain t, `last`. */
  function AppendLinks(k: Links, s: nat, t: nat, last: Ptr): Links
    requires s < |k.heads| && t < |k.heads| && 0 <= last < |k.next|
  {
    Links(k.next[last := k.heads[s]], k.heads[s := NULL])
  }

  function AppendLists(g: Lists, s: nat, t: nat): Lists
    requires s < |g.lists| && t < |g.lists| && |g.lists[s]| == 1 && g.lists[s][0] < |g.owner|
  {
    var x := g.lists[s][0];
    Lists(g.lists[s := []][t := g.lists[t] + [x]], g.owner[x := t])
  }

  lemma AppendSlot(next: seq<Ptr>, head: Ptr, l: seq<nat>, owner: seq<nat>, o: nat, x: Ptr)
    requires Chain(next, head, l) && Holds(owner, l, o) && |next| == |owner| && 0 <= x < |owner| && owner[x] != o
      && l != []
    requires next[x] == NULL
    ensures l[|l| - 1] < |next| && Chain(next[l[|l| - 1] := x], head, l + [x as nat])
      && Holds(owner[x := o], l + [x as nat], o)
  {
    var l' := l + [x as nat];
    var last := l[|l| - 1];
    forall k | 0 <= k < |l'|
      ensures l'[k] < |next| && next[last := x][l'[k]] == LinkAt(l', k + 1)
    {}
    forall i | 0 <= i < |owner| && owner[x := o][i] == o
      ensures i in l'
    {
      if i != x {
        assert i in l;
        assert i in l';
      } else {
        assert l'[|l|] == x;
      }
    }
  }

  lemma AppendLinked(k: Links, g: Lists, s: nat, t: nat)
    requires Linked(k, g) && s < SLOTS && t < SLOTS && s != t && |g.lists[s]| == 1 && g.lists[t] != []
    ensures g.lists[s][0] < |g.owner| && g.lists[t][|g.lists[t]| - 1] < |k.next|
    ensures Linked(AppendLinks(k, s, t, g.lists[t][|g.lists[t]| - 1]), AppendLists(g, s, t))
  {
    Slot(k, g, s);
    Slot(k, g, t);
    var x, last := k.heads[s], g.lists[t][|g.lists[t]| - 1];
    PopSlot(k.next, x, g.lists[s], g.owner, s, t, NULL);
    AppendSlot(k.next, k.heads[t], g.lists[t], g.owner, t, x);
    assert g.owner[last] == t;
    var k', g' := AppendLinks(k, s, t, last), AppendLists(g, s, t);
    forall u | 0 <= u < SLOTS
      ensures SlotOk(k', g', u)
    {
      if u == s {
        assert Chain(k'.next, NULL, []) && g.lists[s][1..] == [];
      } else if u != t {
        Slot(k, g, u);
        KeepSlot(k.next, k.heads[u], g.lists[u], g.owner, u, last, x, t);
        KeepSlot(k.next, k.heads[u], g.lists[u], g.owner, u, x, k.next[x], t);
      }
    }
  }

  // ---- What the chains hold ----------------------------------------------------------------------------

  /** Entry contents along a list. */
  function Along<T>(entries: seq<T>, l: seq<nat>): (r: seq<T>)
    requires forall k :: 0 <= k < |l| ==> l[k] < |entries|
    ensures |r| == |l|
  {
    seq(|l|, k requires 0 <= k < |l| => entries[l[k]])
  }

  predicate InPool(g: Lists) {
    |g.lists| == SLOTS && forall s :: 0 <= s < SLOTS ==> forall k :: 0 <= k < |g.lists[s]| ==> g.lists[s][k] < POOL
  }

  /** Slot by slot, what its chain holds. */
  function Held<T>(entries: seq<T>, g: Lists): (r: seq<seq<T>>)
    requires InPool(g) && |entries| == POOL
    ensures |r| == SLOTS && forall s :: 0 <= s < SLOTS ==> r[s] == Along(entries, g.lists[s])
  {
    seq(SLOTS, s requires 0 <= s < SLOTS => Along(entries, g.lists[s]))
  }

  function LostSet(owner: seq<nat>): set<nat> {
    set i: nat | i < |owner| && owner[i] == LOST
  }

  /** The context's and the caller's own pointers each lead to one entry at most, and no entry is
      uncounted. */
  predicate Pooled(k: Links, g: Lists, lost: nat) {
    && Linked(k, g) && InPool(g)
    && |g.lists[SENDING]| <= 1 && |g.lists[RECVING]| <= 1 && |g.lists[HELD]| <= 1
    && Total(g.lists) + lost == POOL && lost == |LostSet(g.owner)|
  }

  lemma LinkedInPool(k: Links, g: Lists)
    requires Linked(k, g)
    ensures InPool(g)
  {
    forall s | 0 <= s < SLOTS
      ensures forall k :: 0 <= k < |g.lists[s]| ==> g.lists[s][k] < POOL
    {
      Slot(k, g, s);
    }
  }

  predicate Single(s: nat) { s == SENDING || s == RECVING || s == HELD }

  /** Moving keeps the pool whole and moves the contents. */
  lemma MovePooled<T>(k: Links, g: Lists, lost: nat, entries: seq<T>, s: nat, t: nat)
    requires Pooled(k, g, lost) && |entries| == POOL && s < SLOTS && t < SLOTS && s != t && k.heads[s] != NULL
    requires Single(t) ==> k.heads[t] == NULL
    ensures g.lists[s] != [] && g.lists[s][0] < |g.owner| && 0 <= k.heads[s] < |k.next| && k.heads[s] == g.lists[s][0]
    ensures Pooled(MoveLinks(k, s, t), MoveLists(g, s, t), lost)
    ensures var b, a := Held(entries, g), Held(entries, MoveLists(g, s, t));
      b[s] != [] && a == b[s := b[s][1..]][t := [b[s][0]] + b[t]]
    ensures MoveLists(g, s, t).lists[t] == [g.lists[s][0]] + g.lists[t]
  {
    hide Linked, Total, Along;
    Slot(k, g, s);
    Slot(k, g, t);
    MoveLinked(k, g, s, t);
    var g' := MoveLists(g, s, t);
    LinkedInPool(MoveLinks(k, s, t), g');
    TotalSet(g.lists, s, g.lists[s][1..]);
    TotalSet(g.lists[s := g.lists[s][1..]], t, [g.lists[s][0]] + g.lists[t]);
    LostMoves(g.owner, g.lists[s][0], t);
    AlongMove(entries, g.lists[s], g.lists[t]);
  }

  lemma LostMoves(owner: seq<nat>, x: nat, t: nat)
    requires x < |owner| && owner[x] != LOST && t != LOST
    ensures LostSet(owner[x := t]) == LostSet(owner)
  {}

  lemma AlongMove<T>(entries: seq<T>, l: seq<nat>, m: seq<nat>)
    requires |entries| == POOL && l != []
    requires (forall k :: 0 <= k < |l| ==> l[k] < POOL) && forall k :: 0 <= k < |m| ==> m[k] < POOL
    ensures forall k :: 0 <= k < |l[1..]| ==> l[1..][k] < POOL
    ensures Along(entries, l[1..]) == Along(entries, l)[1..]
    ensures forall k :: 0 <= k < |[l[0]] + m| ==> ([l[0]] + m)[k] < POOL
    ensures Along(entries, [l[0]] + m) == [Along(entries, l)[0]] + Along(entries, m)
  {}

  lemma AppendPooled<T>(k: Links, g: Lists, lost: nat, entries: seq<T>, s: nat, t: nat)
    requires Pooled(k, g, lost) && |entries| == POOL && s < SLOTS && t < SLOTS && s != t && !Single(t)
    requires |g.lists[s]| == 1 && g.lists[t] != []
    ensures g.lists[s][0] < |g.owner| && g.lists[t][|g.lists[t]| - 1] < |k.next|
    ensures Pooled(AppendLinks(k, s, t, g.lists[t][|g.lists[t]| - 1]), AppendLists(g, s, t), lost)
    ensures var b, a := Held(entries, g), Held(entries, AppendLists(g, s, t));
      |b[s]| == 1 && a == b[s := []][t := b[t] + b[s]]
  {
    hide Linked, Total, Along;
    Slot(k, g, s);
    Slot(k, g, t);
    AppendLinked(k, g, s, t);
    var g' := AppendLists(g, s, t);
    LinkedInPool(AppendLinks(k, s, t, g.lists[t][|g.lists[t]| - 1]), g');
    TotalSet(g.lists, s, []);
    TotalSet(g.lists[s := []], t, g.lists[t] + [g.lists[s][0]]);
    LostMoves(g.owner, g.lists[s][0], t);
    AlongAppend(entries, g.lists[t], g.lists[s]);
  }

  lemma AlongAppend<T>(entries: seq<T>, l: seq<nat>, m: seq<nat>)
    requires |entries| == POOL && |m| == 1
    requires (forall k :: 0 <= k < |l| ==> l[k] < POOL) && forall k :: 0 <= k < |m| ==> m[k] < POOL
    ensures forall k :: 0 <= k < |l + [m[0]]| ==> (l + [m[0]])[k] < POOL
    ensures Along(entries, l + [m[0]]) == Along(entries, l) + Along(entries, m)
    ensures |Along(entries, [])| == 0
  {}

  /** Writing to an entry changes what its owner holds, and nothing else. */
  lemma WriteHeld<T>(k: Links, g: Lists, entries: seq<T>, s: nat, v: T)
    requires Linked(k, g) && InPool(g) && |entries| == POOL && s < SLOTS && |g.lists[s]| == 1
    ensures 0 <= k.heads[s] < POOL && k.heads[s] == g.lists[s][0]
    ensures Held(entries[k.heads[s] := v], g) == Held(entries, g)[s := [v]]
  {
    hide Linked;
    Slot(k, g, s);
    var x := k.heads[s];
    var b, a := Held(entries, g), Held(entries[x := v], g);
    forall u | 0 <= u < SLOTS
      ensures a[u] == b[s := [v]][u]
    {
      Slot(k, g, u);
    }
  }

  // ---- Forgetting a list -------------------------------------------------------------------------------

  function ForgetLists(g: Lists, s: nat): Lists
    requires s < |g.lists|
  {
    Lists(g.lists[s := []], seq(|g.owner|,
      i requires 0 <= i < |g.owner| => if g.owner[i] == s then LOST else g.owner[i]))
  }

  function Elements(l: seq<nat>): set<nat> {
    set i | i in l
  }

  lemma {:induction false} Distinct(l: seq<nat>)
    requires forall j, k :: 0 <= j < k < |l| ==> l[j] != l[k]
    ensures |Elements(l)| == |l|
  {
    if l == [] {
      assert Elements(l) == {};
    } else {
      var n := |l| - 1;
      Distinct(l[..n]);
      assert l == l[..n] + [l[n]];
      assert Elements(l) == Elements(l[..n]) + {l[n]};
      assert l[n] !in Elements(l[..n]);
    }
  }

  /** The entries of the chain are in no chain any more. */
  lemma ForgetPooled(k: Links, g: Lists, lost: nat, s: nat)
    requires Pooled(k, g, lost) && s < SLOTS
    ensures Pooled(Links(k.next, k.heads[s := NULL]), ForgetLists(g, s), lost + |g.lists[s]|)
  {
    hide Total, Linked;
    Slot(k, g, s);
    var l := g.lists[s];
    var k', g' := Links(k.next, k.heads[s := NULL]), ForgetLists(g, s);
    assert Linked(k', g') by {
      ForgetLinked(k, g, s);
    }
    LinkedInPool(k', g');
    TotalSet(g.lists, s, []);
    Distinct(l);
    LostGrows(g.owner, g'.owner, l, s);
  }

  lemma LostGrows(owner: seq<nat>, owner': seq<nat>, l: seq<nat>, s: nat)
    requires |owner'| == |owner| && s != LOST && Holds(owner, l, s) && |Elements(l)| == |l|
    requires forall i :: 0 <= i < |owner| ==> owner'[i] == if owner[i] == s then LOST else owner[i]
    ensures |LostSet(owner')| == |LostSet(owner)| + |l|
  {
    var a, b := LostSet(owner), Elements(l);
    assert LostSet(owner') == a + b;
    assert a * b == {};
    assert |a + b| == |a| + |b|;
  }

  lemma ForgetLinked(k: Links, g: Lists, s: nat)
    requires Linked(k, g) && s < SLOTS
    ensures Linked(Links(k.next, k.heads[s := NULL]), ForgetLists(g, s))
  {
    Slot(k, g, s);
    var k', g' := Links(k.next, k.heads[s := NULL]), ForgetLists(g, s);
    forall u | 0 <= u < SLOTS
      ensures SlotOk(k', g', u)
    {
      Slot(k, g, u);
      if u != s {
        assert Holds(g'.owner, g.lists[u], u);
      }
    }
  }

  // ---- What being pooled means -------------------------------------------------------------------------

  /** An entry that is not lost is in the chain of its owner, at one place. */
  lemma InOneChain(k: Links, g: Lists, lost: nat, i: nat)
    requires Pooled(k, g, lost) && i < POOL && g.owner[i] != LOST
    ensures g.owner[i] < SLOTS && i in g.lists[g.owner[i]]
    ensures forall s, n :: 0 <= s < SLOTS && 0 <= n < |g.lists[s]| && g.lists[s][n] == i ==> s == g.owner[i]
    ensures forall s, m, n :: 0 <= s < SLOTS && 0 <= m < n < |g.lists[s]| ==> g.lists[s][m] != g.lists[s][n]
  {
    assert SlotOk(k, g, g.owner[i]);
    forall s | 0 <= s < SLOTS
      ensures Holds(g.owner, g.lists[s], s)
    {
      Slot(k, g, s);
    }
  }

  /** With nothing forgotten, the chains are all of the pool. */
  lemma WholePool(k: Links, g: Lists)
    requires Pooled(k, g, 0)
    ensures Total(g.lists) == POOL && forall i :: 0 <= i < POOL ==> g.owner[i] < SLOTS && i in g.lists[g.owner[i]]
  {
    forall i | 0 <= i < POOL
      ensures g.owner[i] < SLOTS && i in g.lists[g.owner[i]]
    {
      assert LostSet(g.owner) == {} && i !in LostSet(g.owner);
      InOneChain(k, g, 0, i);
    }
  }
}
