/**
 The buddy allocator of memoryManagerBuddy.c: block headers overwritten in place in the heap's memory,
 one singly linked free list per order. Addresses are byte offsets from the heap's base.
 */
module Buddy {
  import opened Sequences
  import opened Dyadic
  import opened BuddyTiling
  import opened Allocator

  const HEADER: nat := 8
  const ORDERS: nat := MAX_ORDER - MIN_ORDER + 1

  /** The first sixteen bytes of a block: its header and, while the block is free, the list link. */
  datatype Node = Node(order: nat, isFree: bool, isKernel: bool, next: Ptr)
  type Memory = map<nat, Node>

  /** The pointer to the i-th node of a list, null past its end. */
  function Link(l: seq<nat>, i: nat): Ptr {
    if i < |l| then Addr(l[i]) else Null
  }

  ghost predicate Chained(m: Memory, head: Ptr, l: seq<nat>) {
    head == Link(l, 0) && forall i: nat {:trigger l[i]} :: i < |l| ==> l[i] in m && m[l[i]].next == Link(l, i + 1)
  }

  /** The header stored at o says what the tiling says. */
  predicate HeaderAt(m: Memory, t: Tiling, o: nat) {
    && o in m && o in t && m[o].order == t[o].order && m[o].isFree == t[o].Free?
    && (t[o].Live? ==> m[o].isKernel == t[o].kernel)
  }

  ghost predicate Headers(m: Memory, t: Tiling) {
    forall o {:trigger HeaderAt(m, t, o)} :: o in t ==> HeaderAt(m, t, o)
  }

  /** List k holds, once each, exactly the free blocks of order k + MIN_ORDER outside `hand`. */
  ghost predicate Lists(m: Memory, heads: seq<Ptr>, ls: seq<seq<nat>>, t: Tiling, hand: set<nat>) {
    && |heads| == |ls| == ORDERS
    && (forall k :: 0 <= k < ORDERS ==> ListOk(m, heads[k], ls[k], t, k, hand))
  }

  ghost predicate ListOk(m: Memory, head: Ptr, l: seq<nat>, t: Tiling, k: nat, hand: set<nat>) {
    Chained(m, head, l) && NoDup(l) && ListHolds(l, t, k, hand)
  }

  ghost predicate ListHolds(l: seq<nat>, t: Tiling, k: nat, hand: set<nat>) {
    forall o: nat :: o in l <==> o !in hand && o in t && t[o] == Free(k + MIN_ORDER)
  }

  /** Nothing inside the given blocks has been written between the two memories. */
  ghost predicate Untouched(m: Memory, m': Memory, t: Tiling, keep: set<nat>) {
    forall o, a {:trigger Holds(t, o, a)} :: o in keep && Holds(t, o, a) && a in m ==> a in m' && m'[a] == m[a]
  }

  // ---------------------------------------------------------------- memory and free lists

  lemma ChainFrame(m: Memory, m': Memory, head: Ptr, l: seq<nat>)
    requires Chained(m, head, l)
    requires forall o :: o in l && o in m ==> o in m' && m'[o].next == m[o].next
    ensures Chained(m', head, l)
  {
    forall i: nat | i < |l| ensures l[i] in m' && m'[l[i]].next == Link(l, i + 1) {
      assert l[i] in l && l[i] in m;
    }
  }

  /** The free blocks outside the hand are the same, in both cases. */
  ghost predicate SameFree(t: Tiling, hand: set<nat>, t': Tiling, hand': set<nat>) {
    forall o: nat, k :: (o !in hand && o in t && t[o] == Free(k)) <==> (o !in hand' && o in t' && t'[o] == Free(k))
  }

  /** Writing the link of a node outside every list changes no list. */
  lemma ListsFrame(m: Memory, m': Memory, heads: seq<Ptr>, ls: seq<seq<nat>>, t: Tiling, t': Tiling, hand: set<nat>,
                   hand': set<nat>)
    requires Lists(m, heads, ls, t, hand) && SameFree(t, hand, t', hand')
    requires forall o :: o in t && o !in hand && t[o].Free? && o in m ==> o in m' && m'[o].next == m[o].next
    ensures Lists(m', heads, ls, t', hand')
  {
    forall k | 0 <= k < ORDERS ensures ListOk(m', heads[k], ls[k], t', k, hand') {
      assert ListOk(m, heads[k], ls[k], t, k, hand);
      ChainFrame(m, m', heads[k], ls[k]);
    }
  }

  /** Putting the block in hand, already linked to the old head, at the front of its list. */
  lemma PushLists(m: Memory, heads: seq<Ptr>, ls: seq<seq<nat>>, t: Tiling, hand: set<nat>, o: nat, k: nat)
    requires Lists(m, heads, ls, t, hand) && k < ORDERS && o in hand && o in t && t[o] == Free(k + MIN_ORDER)
    requires o in m && m[o].next == heads[k]
    ensures Lists(m, heads[k := Addr(o)], ls[k := [o] + ls[k]], t, hand - {o})
  {
    var heads' := heads[k := Addr(o)];
    var ls' := ls[k := [o] + ls[k]];
    forall j | 0 <= j < ORDERS ensures ListOk(m, heads'[j], ls'[j], t, j, hand - {o}) {
      assert ListOk(m, heads[j], ls[j], t, j, hand);
      if j == k {
        PushChain(m, heads[k], ls[k], o);
      }
    }
  }

  lemma PushChain(m: Memory, head: Ptr, l: seq<nat>, o: nat)
    requires Chained(m, head, l) && NoDup(l) && o !in l && o in m && m[o].next == head
    ensures Chained(m, Addr(o), [o] + l) && NoDup([o] + l)
  {
    var l' := [o] + l;
    forall i: nat | i < |l'| ensures l'[i] in m && m[l'[i]].next == Link(l', i + 1) {
      if i > 0 { assert l'[i] == l[i - 1]; }
    }
  }

  function Without(l: seq<nat>, i: nat): seq<nat>
    requires i < |l|
  {
    l[..i] + l[i + 1..]
  }

  /** Unlinking the i-th node: its predecessor, or the list head, takes over its link. */
  lemma UnlinkLists(m: Memory, heads: seq<Ptr>, ls: seq<seq<nat>>, t: Tiling, hand: set<nat>, k: nat, i: nat,
                    m': Memory, heads': seq<Ptr>)
    requires Lists(m, heads, ls, t, hand) && k < ORDERS && i < |ls[k]|
    requires i == 0 ==> m' == m && heads' == heads[k := Link(ls[k], 1)]
    requires i > 0 ==> ls[k][i - 1] in m && heads' == heads
                       && m' == m[ls[k][i - 1] := m[ls[k][i - 1]].(next := Link(ls[k], i + 1))]
    ensures Lists(m', heads', ls[k := Without(ls[k], i)], t, hand + {ls[k][i]})
  {
    var l := ls[k];
    var ls' := ls[k := Without(l, i)];
    assert ListOk(m, heads[k], l, t, k, hand);
    forall j | 0 <= j < ORDERS ensures ListOk(m', heads'[j], ls'[j], t, j, hand + {l[i]}) {
      assert ListOk(m, heads[j], ls[j], t, j, hand);
      if j == k {
        UnlinkChain(m, heads[k], l, i, m', heads'[k]);
        UnlinkHolds(l, t, k, hand, i);
      } else {
        if i > 0 { assert l[i - 1] in l && l[i - 1] !in ls[j]; }
        ChainFrame(m, m', heads[j], ls[j]);
        assert l[i] in l && l[i] !in ls[j];
      }
    }
  }

  lemma UnlinkHolds(l: seq<nat>, t: Tiling, k: nat, hand: set<nat>, i: nat)
    requires NoDup(l) && i < |l| && ListHolds(l, t, k, hand)
    ensures ListHolds(Without(l, i), t, k, hand + {l[i]})
  {
    var w := Without(l, i);
    forall o: nat ensures o in w <==> o in l && o != l[i] {
      if o in l && o != l[i] {
        var j :| 0 <= j < |l| && l[j] == o;
        assert w[if j < i then j else j - 1] == o;
      }
    }
    assert l[i] in l;
  }

  lemma UnlinkNoDup(l: seq<nat>, i: nat)
    requires NoDup(l) && i < |l|
    ensures NoDup(Without(l, i))
  {
    var w := Without(l, i);
    forall a, b | 0 <= a < b < |w| ensures w[a] != w[b] {
      assert w[a] == l[if a < i then a else a + 1] && w[b] == l[if b < i then b else b + 1];
    }
  }

  lemma UnlinkChain(m: Memory, head: Ptr, l: seq<nat>, i: nat, m': Memory, head': Ptr)
    requires Chained(m, head, l) && NoDup(l) && i < |l|
    requires i == 0 ==> m' == m && head' == Link(l, 1)
    requires i > 0 ==> l[i - 1] in m && head' == head && m' == m[l[i - 1] := m[l[i - 1]].(next := Link(l, i + 1))]
    ensures Chained(m', head', Without(l, i)) && NoDup(Without(l, i))
  {
    UnlinkNoDup(l, i);
    var w := Without(l, i);
    forall j: nat | j < |w| ensures w[j] in m' && m'[w[j]].next == Link(w, j + 1) {
      if j < i {
        assert w[j] == l[j] && l[j] in m;
        assert j + 1 < i ==> w[j + 1] == l[j + 1] && l[j] != l[i - 1];
        assert j + 1 == i && i < |w| ==> w[i] == l[i + 1];
      } else {
        assert w[j] == l[j + 1] && l[j + 1] in m;
        assert j + 1 < |w| ==> w[j + 1] == l[j + 2];
        assert i > 0 ==> l[j + 1] != l[i - 1];
      }
    }
  }

  lemma UntouchedTrans(m0: Memory, m1: Memory, m2: Memory, t: Tiling, keep: set<nat>)
    requires Untouched(m0, m1, t, keep) && Untouched(m1, m2, t, keep)
    ensures Untouched(m0, m2, t, keep)
  {
    forall o, a | o in keep && Holds(t, o, a) && a in m0 ensures a in m2 && m2[a] == m0[a] {
      assert a in m1;
    }
  }

  // ---------------------------------------------------------------- one step of each loop

  ghost predicate Core(m: Memory, heads: seq<Ptr>, ls: seq<seq<nat>>, t: Tiling, total: nat, hand: set<nat>) {
    Headers(m, t) && Lists(m, heads, ls, t, hand) && Tiles(t, total)
  }

  function UserBlocks(t: Tiling): set<nat> {
    set o | o in t && t[o].Live? && !t[o].kernel
  }

  /** keep are live blocks of t0 that are still the same blocks in t. */
  ghost predicate StillLive(t0: Tiling, t: Tiling, keep: set<nat>) {
    forall o: nat :: o in keep ==> o in t0 && t0[o].Live? && o in t && t[o] == t0[o]
  }

  /** Writing the nodes of free blocks touches no live block. */
  lemma WriteOutside(m0: Memory, m: Memory, m': Memory, t0: Tiling, t: Tiling, keep: set<nat>, ws: set<nat>)
    requires Apart(t) && StillLive(t0, t, keep) && forall w: nat :: w in ws ==> w in t && t[w].Free?
    requires Untouched(m0, m, t0, keep) && forall a :: a in m && a !in ws ==> a in m' && m'[a] == m[a]
    ensures Untouched(m0, m', t0, keep)
  {
    forall o, a | o in keep && Holds(t0, o, a) && a in m0 ensures a in m' && m'[a] == m0[a] {
      assert a in ws && o < a ==> Before(t, o, a);
    }
  }

  lemma SplitHeaders(m: Memory, t: Tiling, o: nat, k: nat, link: Ptr, m': Memory)
    requires Headers(m, t) && o in m && o in t && t[o] == Free(k + 1)
    requires m' == m[o + Pow2(k) := Node(k, true, false, link)][o := m[o].(order := k)]
    ensures Headers(m', Halve(t, o))
  {
    var h := Halve(t, o);
    assert HeaderAt(m, t, o);
    forall a | a in h ensures HeaderAt(m', h, a) { assert a in t ==> HeaderAt(m, t, a); }
  }

  lemma HalveSameFree(t: Tiling, o: nat, k: nat)
    requires o in t && t[o] == Free(k + 1) && o + Pow2(k) !in t
    ensures SameFree(t, {o}, Halve(t, o), {o, o + Pow2(k)})
    ensures o + Pow2(k) in Halve(t, o) && Halve(t, o)[o + Pow2(k)] == Free(k) && Pow2(k) > 0
  {
    var h := Halve(t, o);
    assert forall x: nat :: x != o && x != o + Pow2(k) ==> (x in t <==> x in h) && (x in t ==> t[x] == h[x]);
  }

  /** The upper half u goes to the front of its list. */
  lemma UpperListed(m: Memory, heads: seq<Ptr>, ls: seq<seq<nat>>, t: Tiling, h: Tiling, o: nat, u: nat, k: nat,
                    m': Memory)
    requires Lists(m, heads, ls, t, {o}) && MIN_ORDER <= k < MAX_ORDER && o != u
    requires SameFree(t, {o}, h, {o, u}) && u in h && h[u] == Free(k)
    requires u in m' && m'[u].next == heads[k - MIN_ORDER]
    requires forall a :: a in m && a != o && a != u ==> a in m' && m'[a] == m[a]
    requires o in t && u !in t
    ensures Lists(m', heads[k - MIN_ORDER := Addr(u)], ls[k - MIN_ORDER := [u] + ls[k - MIN_ORDER]], h, {o})
  {
    ListsFrame(m, m', heads, ls, t, h, {o}, {o, u});
    PushLists(m', heads, ls, h, {o, u}, u, k - MIN_ORDER);
    assert {o, u} - {u} == {o};
  }

  lemma SplitLists(m: Memory, heads: seq<Ptr>, ls: seq<seq<nat>>, t: Tiling, o: nat, k: nat, m': Memory)
    requires Lists(m, heads, ls, t, {o}) && o in t && t[o] == Free(k + 1) && MIN_ORDER <= k < MAX_ORDER
    requires o + Pow2(k) !in t && o + Pow2(k) in m' && m'[o + Pow2(k)].next == heads[k - MIN_ORDER]
    requires forall a :: a in m && a != o && a != o + Pow2(k) ==> a in m' && m'[a] == m[a]
    ensures var u := o + Pow2(k);
            Lists(m', heads[k - MIN_ORDER := Addr(u)], ls[k - MIN_ORDER := [u] + ls[k - MIN_ORDER]], Halve(t, o), {o})
  {
    var u := o + Pow2(k);
    HalveSameFree(t, o, k);
    UpperListed(m, heads, ls, t, Halve(t, o), o, u, k, m');
  }

  lemma HalveTiles(t: Tiling, total: nat, o: nat)
    requires Tiles(t, total) && o in t && t[o].order > MIN_ORDER
    ensures Tiles(Halve(t, o), total) && o + Pow2(t[o].order - 1) !in t
  {
    HalvePlaced(t, total, o);
    HalveApart(t, o);
    HalveCovered(t, total, o);
    UpperHalfIsNew(t, o);
  }

  lemma MergeHeaders(m: Memory, t: Tiling, lo: nat, m': Memory)
    requires Headers(m, t) && FreePair(t, lo) && lo in m && m' == m[lo := m[lo].(order := t[lo].order + 1)]
    ensures Headers(m', Join(t, lo))
  {
    assert HeaderAt(m, t, lo);
    forall a | a in Join(t, lo) ensures HeaderAt(m', Join(t, lo), a) { assert HeaderAt(m, t, a); }
  }

  lemma MergeLists(m: Memory, heads: seq<Ptr>, ls: seq<seq<nat>>, t: Tiling, lo: nat, m': Memory)
    requires FreePair(t, lo) && Lists(m, heads, ls, t, {lo, End(t, lo)})
    requires lo in m && m' == m[lo := m[lo].(order := t[lo].order + 1)]
    ensures Lists(m', heads, ls, Join(t, lo), {lo})
  {
    ListsFrame(m, m', heads, ls, t, Join(t, lo), {lo, End(t, lo)}, {lo});
  }

  /** Everything one round of the splitting loop keeps. */
  lemma SplitRound(m: Memory, heads: seq<Ptr>, ls: seq<seq<nat>>, t: Tiling, total: nat, o: nat, k: nat, m': Memory,
                   t0: Tiling, keep: set<nat>, m0: Memory)
    requires Core(m, heads, ls, t, total, {o}) && o in m && o in t && t[o] == Free(k + 1) && MIN_ORDER <= k < MAX_ORDER
    requires StillLive(t0, t, keep) && Untouched(m0, m, t0, keep)
    requires m' == m[o + Pow2(k) := Node(k, true, false, heads[k - MIN_ORDER])][o := m[o].(order := k)]
    ensures var u := o + Pow2(k);
            Core(m', heads[k - MIN_ORDER := Addr(u)], ls[k - MIN_ORDER := [u] + ls[k - MIN_ORDER]], Halve(t, o), total,
                 {o})
    ensures StillLive(t0, Halve(t, o), keep) && Untouched(m0, m', t0, keep)
  {
    HalveTiles(t, total, o);
    SplitHeaders(m, t, o, k, heads[k - MIN_ORDER], m');
    SplitLists(m, heads, ls, t, o, k, m');
    assert StillLive(t0, Halve(t, o), keep);
    WriteOutside(m0, m, m', t0, Halve(t, o), keep, {o, o + Pow2(k)});
  }
}
