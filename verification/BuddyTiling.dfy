/**
 The buddy heap seen as a tiling: a map from the offset of every block to what its header says.
 Splitting and coalescing are functions on tilings; the theorems say what they keep.
 */
module BuddyTiling {
  import opened Dyadic

  const MIN_ORDER: nat := 4
  const MAX_ORDER: nat := 23

  datatype Block = Free(order: nat) | Live(order: nat, kernel: bool)
  type Tiling = map<nat, Block>

  function End(t: Tiling, o: nat): nat
    requires o in t
  {
    o + Pow2(t[o].order)
  }

  predicate Holds(t: Tiling, o: nat, x: nat) {
    o in t && o <= x < End(t, o)
  }

  ghost predicate CoveredAt(t: Tiling, x: nat) {
    exists o: nat :: Holds(t, o, x)
  }

  predicate PlacedAt(t: Tiling, total: nat, o: nat)
    requires o in t
  {
    MIN_ORDER <= t[o].order <= MAX_ORDER && Aligned(o, t[o].order) && End(t, o) <= total
  }

  predicate Before(t: Tiling, a: nat, b: nat)
    requires a in t
  {
    End(t, a) <= b
  }

  ghost predicate Placed(t: Tiling, total: nat) {
    forall o {:trigger PlacedAt(t, total, o)} :: o in t ==> PlacedAt(t, total, o)
  }

  ghost predicate Apart(t: Tiling) {
    forall a, b {:trigger Before(t, a, b)} :: a in t && b in t && a < b ==> Before(t, a, b)
  }

  ghost predicate Covered(t: Tiling, total: nat) {
    forall x: nat {:trigger CoveredAt(t, x)} :: x < total ==> CoveredAt(t, x)
  }

  /** The blocks partition [0, total), each an aligned power of two. */
  ghost predicate Tiles(t: Tiling, total: nat) {
    Placed(t, total) && Apart(t) && Covered(t, total)
  }

  /** o and its upper neighbour are two free buddies. */
  predicate FreePair(t: Tiling, o: nat) {
    && o in t && t[o].Free? && t[o].order < MAX_ORDER
    && Aligned(o, t[o].order + 1)
    && End(t, o) in t && t[End(t, o)] == Free(t[o].order)
  }

  /** No two free buddies, except possibly a pair with the block at e. */
  ghost predicate NoFreePairsBut(t: Tiling, e: nat) {
    forall o {:trigger FreePair(t, o)} :: FreePair(t, o) ==> o == e || End(t, o) == e
  }

  ghost predicate NoFreePairs(t: Tiling) {
    forall o {:trigger FreePair(t, o)} :: !FreePair(t, o)
  }

  function LiveBlocks(t: Tiling): map<nat, Block> {
    map o | o in t && t[o].Live? :: t[o]
  }

  // ---------------------------------------------------------------- the genuine-header theorem

  /** The address get_buddy computes for a block, whenever the buddy fits in the heap, is the start of a block. */
  lemma BuddyIsBlock(t: Tiling, total: nat, o: nat)
    requires Tiles(t, total) && o in t && Aligned(o, t[o].order)
    requires BuddyOf(o, t[o].order) + Pow2(t[o].order) <= total
    ensures BuddyOf(o, t[o].order) in t && t[BuddyOf(o, t[o].order)].order <= t[o].order
  {
    var k := t[o].order;
    var b := BuddyOf(o, k);
    BuddyInvolution(o, k);
    assert CoveredAt(t, b);
    var x: nat :| Holds(t, x, b);
    assert PlacedAt(t, total, x);
    var j := t[x].order;
    if j <= k {
      Nested(x, j, b, k);
    } else {
      // x would contain the whole pair, hence the block at o as well
      AlignedUp(o, k);
      var up := if Aligned(o, k + 1) then o else b;
      assert x < o ==> Before(t, x, o);
      Nested(up, k + 1, x, j);
      assert false;
    }
  }

  // ---------------------------------------------------------------- splitting

  function Halve(t: Tiling, o: nat): Tiling
    requires o in t && t[o].order > 0
  {
    var k := t[o].order - 1;
    t[o := Free(k)][o + Pow2(k) := Free(k)]
  }

  function SplitDown(t: Tiling, o: nat, order: nat): Tiling
    requires o in t && order <= t[o].order
    decreases t[o].order
  {
    if t[o].order == order then t
    else SplitDown(Halve(t, o), o, order)
  }

  lemma HalvePlaced(t: Tiling, total: nat, o: nat)
    requires Placed(t, total) && o in t && t[o].order > MIN_ORDER
    ensures Placed(Halve(t, o), total)
  {
    var k := t[o].order - 1;
    var h := Halve(t, o);
    assert PlacedAt(t, total, o);
    AlignedDown(o, k);
    AlignedUp(o, k);
    forall a | a in h ensures PlacedAt(h, total, a) {
      assert a in t ==> PlacedAt(t, total, a);
    }
  }

  lemma UpperHalfIsNew(t: Tiling, o: nat)
    requires Apart(t) && o in t && t[o].order > 0
    ensures o + Pow2(t[o].order - 1) !in t
  {
    var u := o + Pow2(t[o].order - 1);
    assert u in t ==> Before(t, o, u);
  }

  lemma HalveApart(t: Tiling, o: nat)
    requires Apart(t) && o in t && t[o].order > 0
    ensures Apart(Halve(t, o))
  {
    var h := Halve(t, o);
    var u := o + Pow2(t[o].order - 1);
    assert End(t, o) == u + Pow2(t[o].order - 1);
    forall a, b | a in h && b in h && a < b ensures Before(h, a, b) {
      var a' := if a == u then o else a;
      var b' := if b == u then o else b;
      assert a' < b' ==> Before(t, a', b');
      assert b' < a' ==> Before(t, b', a');
    }
  }

  lemma HalveCovered(t: Tiling, total: nat, o: nat)
    requires Apart(t) && Covered(t, total) && o in t && t[o].order > 0
    ensures Covered(Halve(t, o), total)
  {
    UpperHalfIsNew(t, o);
    var h := Halve(t, o);
    var u := o + Pow2(t[o].order - 1);
    forall x: nat | x < total ensures CoveredAt(h, x) {
      assert CoveredAt(t, x);
      var w: nat :| Holds(t, w, x);
      assert Holds(h, if w != o || x < u then w else u, x);
    }
  }

  /** Splitting a block down to `order` marks it as the caller's; the rest of it becomes free halves. */
  function MallocTiling(t: Tiling, o: nat, order: nat, kernel: bool): Tiling
    requires o in t && order <= t[o].order
  {
    SplitDown(t, o, order)[o := Live(order, kernel)]
  }

  lemma HalvePairs(t: Tiling, o: nat)
    requires Apart(t) && NoFreePairsBut(t, o) && o in t && t[o].Free? && t[o].order > 0
    requires Aligned(o, t[o].order)
    ensures NoFreePairsBut(Halve(t, o), o)
  {
    UpperHalfIsNew(t, o);
    var k := t[o].order - 1;
    var h := Halve(t, o);
    AlignedDown(o, k);
    AlignedUp(o, k);
    forall a | FreePair(h, a) ensures a == o || End(h, a) == o {
      assert a != o && End(h, a) != o && End(h, a) != o + Pow2(k) ==> FreePair(t, a);
    }
  }

  lemma {:induction false} SplitKeeps(t: Tiling, total: nat, o: nat, order: nat)
    requires Tiles(t, total) && NoFreePairsBut(t, o) && o in t && t[o].Free? && MIN_ORDER <= order <= t[o].order
    ensures Tiles(SplitDown(t, o, order), total) && NoFreePairsBut(SplitDown(t, o, order), o)
    ensures var s := SplitDown(t, o, order); o in s && s[o] == Free(order) && LiveBlocks(s) == LiveBlocks(t)
    decreases t[o].order
  {
    if t[o].order > order {
      assert PlacedAt(t, total, o);
      HalvePlaced(t, total, o);
      HalveApart(t, o);
      HalveCovered(t, total, o);
      HalvePairs(t, o);
      UpperHalfIsNew(t, o);
      assert LiveBlocks(Halve(t, o)) == LiveBlocks(t);
      SplitKeeps(Halve(t, o), total, o, order);
    }
  }

  /** malloc keeps the tiling and the absence of free buddies, and adds exactly one live block. */
  lemma MallocKeeps(t: Tiling, total: nat, o: nat, order: nat, kernel: bool)
    requires Tiles(t, total) && NoFreePairs(t) && o in t && t[o].Free? && MIN_ORDER <= order <= t[o].order
    ensures var m := MallocTiling(t, o, order, kernel);
            Tiles(m, total) && NoFreePairs(m) && LiveBlocks(m) == LiveBlocks(t)[o := Live(order, kernel)]
  {
    SplitKeeps(t, total, o, order);
    var s := SplitDown(t, o, order);
    MarkKeepsTiles(s, total, o, Live(order, kernel));
    MarkLivePairs(s, o, order, kernel);
    assert LiveBlocks(s[o := Live(order, kernel)]) == LiveBlocks(s)[o := Live(order, kernel)];
  }

  lemma MarkLivePairs(s: Tiling, o: nat, order: nat, kernel: bool)
    requires NoFreePairsBut(s, o) && o in s && s[o].order == order
    ensures NoFreePairs(s[o := Live(order, kernel)])
  {
    var m := s[o := Live(order, kernel)];
    forall a ensures !FreePair(m, a) {
      assert FreePair(m, a) ==> FreePair(s, a);
    }
  }

  /** Changing what a header says about a block, but not its order, keeps the tiling. */
  lemma MarkKeepsTiles(t: Tiling, total: nat, o: nat, b: Block)
    requires Tiles(t, total) && o in t && b.order == t[o].order
    ensures Tiles(t[o := b], total)
  {
    var m := t[o := b];
    forall a | a in m ensures PlacedAt(m, total, a) { assert PlacedAt(t, total, a); }
    forall a, c | a in m && c in m && a < c ensures Before(m, a, c) { assert Before(t, a, c); }
    forall x: nat | x < total ensures CoveredAt(m, x) {
      assert CoveredAt(t, x);
      var w: nat :| Holds(t, w, x);
      assert Holds(m, w, x);
    }
  }

  // ---------------------------------------------------------------- coalescing

  /** The buddy of the free block at o can be absorbed: it fits in the heap, is free, and has the same order. */
  predicate CanMerge(t: Tiling, total: nat, o: nat)
    requires o in t
  {
    var k := t[o].order;
    && k < MAX_ORDER && Xor(o, Pow2(k)) + Pow2(k) <= total
    && Xor(o, Pow2(k)) in t && t[Xor(o, Pow2(k))] == Free(k)
  }

  function Min(a: nat, b: nat): nat { if a < b then a else b }

  /** One block of the next order in place of the two buddies at o and b. */
  function Merge(t: Tiling, o: nat, b: nat): Tiling
    requires o in t
  {
    (t - {o, b})[Min(o, b) := Free(t[o].order + 1)]
  }

  function Coalesce(t: Tiling, total: nat, o: nat): Tiling
    requires o in t
    decreases MAX_ORDER - t[o].order
  {
    if CanMerge(t, total, o) then
      var b := Xor(o, Pow2(t[o].order));
      Coalesce(Merge(t, o, b), total, Min(o, b))
    else t
  }

  function FreeTiling(t: Tiling, total: nat, o: nat): Tiling
    requires o in t
  {
    Coalesce(t[o := Free(t[o].order)], total, o)
  }

  /** The two halves of a pair, and where the pair lies. */
  lemma PairShape(t: Tiling, total: nat, o: nat)
    requires Placed(t, total) && o in t && t[o].Free? && CanMerge(t, total, o)
    ensures var k := t[o].order;
            var b := Xor(o, Pow2(k));
            var lo := Min(o, b);
            b != o && Aligned(lo, k + 1) && FreePair(t, lo) && t[lo].order == k
            && {o, b} == {lo, lo + Pow2(k)} && lo + Pow2(k + 1) <= total
  {
    assert PlacedAt(t, total, o);
    XorIsBuddy(o, t[o].order);
    AlignedUp(o, t[o].order);
  }

  /** The pair at lo, replaced by one block. */
  function Join(t: Tiling, lo: nat): Tiling
    requires FreePair(t, lo)
  {
    (t - {End(t, lo)})[lo := Free(t[lo].order + 1)]
  }

  lemma MergeIsJoin(t: Tiling, total: nat, o: nat)
    requires Placed(t, total) && o in t && t[o].Free? && CanMerge(t, total, o)
    ensures var b := Xor(o, Pow2(t[o].order));
            FreePair(t, Min(o, b)) && Merge(t, o, b) == Join(t, Min(o, b)) && Min(o, b) + Pow2(t[o].order + 1) <= total
            && t[Min(o, b)].order == t[o].order && (o == Min(o, b) || o == End(t, Min(o, b)))
  {
    PairShape(t, total, o);
  }

  lemma JoinTiles(t: Tiling, total: nat, lo: nat)
    requires Tiles(t, total) && FreePair(t, lo)
    ensures Tiles(Join(t, lo), total)
  {
    var hi := End(t, lo);
    var m := Join(t, lo);
    assert End(m, lo) == End(t, hi);
    assert m.Keys == t.Keys - {hi};
    assert PlacedAt(t, total, hi) && PlacedAt(t, total, lo);
    forall a | a in m ensures PlacedAt(m, total, a) { assert PlacedAt(t, total, a); }
    forall a, c | a in m && c in m && a < c ensures Before(m, a, c) {
      assert Before(t, a, c);
      assert c < hi ==> Before(t, c, hi);
      assert c > hi ==> Before(t, hi, c);
    }
    forall x: nat | x < total ensures CoveredAt(m, x) {
      assert CoveredAt(t, x);
      var w: nat :| Holds(t, w, x);
      assert Holds(m, if w == hi then lo else w, x);
    }
  }

  lemma JoinPairs(t: Tiling, lo: nat, e: nat)
    requires NoFreePairsBut(t, e) && FreePair(t, lo) && (e == lo || e == End(t, lo))
    ensures NoFreePairsBut(Join(t, lo), lo) && LiveBlocks(Join(t, lo)) == LiveBlocks(t)
  {
    var m := Join(t, lo);
    forall a | FreePair(m, a) ensures a == lo || End(m, a) == lo {
      assert a != lo && End(m, a) != lo ==> FreePair(t, a);
    }
  }

  lemma {:induction false} CoalesceKeeps(t: Tiling, total: nat, o: nat)
    requires Tiles(t, total) && NoFreePairsBut(t, o) && o in t && t[o].Free?
    ensures var c := Coalesce(t, total, o); Tiles(c, total) && NoFreePairs(c) && LiveBlocks(c) == LiveBlocks(t)
    decreases MAX_ORDER - t[o].order
  {
    if CanMerge(t, total, o) {
      var b := Xor(o, Pow2(t[o].order));
      MergeIsJoin(t, total, o);
      JoinTiles(t, total, Min(o, b));
      JoinPairs(t, Min(o, b), o);
      CoalesceKeeps(Merge(t, o, b), total, Min(o, b));
    } else {
      forall a ensures !FreePair(t, a) { StuckMeansNoPair(t, total, o, a); }
    }
  }

  lemma StuckMeansNoPair(t: Tiling, total: nat, o: nat, a: nat)
    requires Placed(t, total) && NoFreePairsBut(t, o) && o in t && t[o].Free? && !CanMerge(t, total, o)
    ensures !FreePair(t, a)
  {
    if FreePair(t, a) {
      var k := t[a].order;
      assert PlacedAt(t, total, a) && PlacedAt(t, total, a + Pow2(k));
      AlignedUp(a, k);
      XorIsBuddy(o, k);
      assert false;
    }
  }

  /** free keeps the tiling, leaves no two free buddies, and removes exactly one live block. */
  lemma FreeKeeps(t: Tiling, total: nat, o: nat)
    requires Tiles(t, total) && NoFreePairs(t) && o in t && t[o].Live?
    ensures var f := FreeTiling(t, total, o);
            Tiles(f, total) && NoFreePairs(f) && LiveBlocks(f) == LiveBlocks(t) - {o}
  {
    var m := t[o := Free(t[o].order)];
    MarkKeepsTiles(t, total, o, Free(t[o].order));
    forall a | FreePair(m, a) ensures a == o || End(m, a) == o {
      assert a != o && End(m, a) != o ==> FreePair(t, a);
    }
    assert LiveBlocks(m) == LiveBlocks(t) - {o};
    CoalesceKeeps(m, total, o);
  }
}
