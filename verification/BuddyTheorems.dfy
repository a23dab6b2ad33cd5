/**
 What mm_init builds, and why every heap without live blocks is exactly that again.
 */
module BuddyTheorems {
  import opened Dyadic
  import opened BuddyTiling

  // ---------------------------------------------------------------- mm_init

  /** The greedy decomposition from `offset` on, trying each order once from the largest down. */
  function Greedy(t: Tiling, order: nat, offset: nat, size: nat): Tiling
    decreases order
  {
    if order < MIN_ORDER then t
    else if offset + Pow2(order) <= size then Greedy(t[offset := Free(order)], order - 1, offset + Pow2(order), size)
    else Greedy(t, order - 1, offset, size)
  }

  /** Where the greedy decomposition stops. */
  function GreedyEnd(order: nat, offset: nat, size: nat): nat
    decreases order
  {
    if order < MIN_ORDER then offset
    else if offset + Pow2(order) <= size then GreedyEnd(order - 1, offset + Pow2(order), size)
    else GreedyEnd(order - 1, offset, size)
  }

  function InitTiling(size: nat): Tiling {
    Greedy(map[], MAX_ORDER, 0, size)
  }

  ghost predicate AllFree(t: Tiling) {
    forall o :: o in t ==> t[o].Free?
  }

  ghost predicate OrdersAbove(t: Tiling, order: nat) {
    forall o :: o in t ==> t[o].order > order
  }

  ghost predicate GreedyResult(g: Tiling, f: nat, size: nat, cap: nat) {
    f <= size && f < cap && Aligned(f, MIN_ORDER) && Tiles(g, f) && NoFreePairs(g) && AllFree(g)
  }

  /** What holds before each round of the greedy loop. */
  ghost predicate GreedySoFar(t: Tiling, order: nat, offset: nat) {
    Tiles(t, offset) && NoFreePairs(t) && AllFree(t) && OrdersAbove(t, order) && Aligned(offset, order + 1)
  }

  lemma {:induction false} GreedyTiles(t: Tiling, order: nat, offset: nat, size: nat, cap: nat)
    requires MIN_ORDER - 1 <= order <= MAX_ORDER && offset <= size
    requires GreedySoFar(t, order, offset) && offset + Pow2(order + 1) <= cap
    ensures GreedyResult(Greedy(t, order, offset, size), GreedyEnd(order, offset, size), size, cap)
    ensures size < offset + Pow2(order + 1) ==> size < GreedyEnd(order, offset, size) + Pow2(MIN_ORDER)
    decreases order
  {
    if order >= MIN_ORDER {
      var p := Pow2(order);
      assert Pow2(order + 1) == 2 * p;
      AlignedDown(offset, order);
      if offset + p <= size {
        GreedyTake(t, order, offset);
        GreedyTiles(t[offset := Free(order)], order - 1, offset + p, size, cap);
      } else {
        GreedyTiles(t, order - 1, offset, size, cap);
      }
    }
  }

  lemma GreedyTake(t: Tiling, order: nat, offset: nat)
    requires MIN_ORDER <= order <= MAX_ORDER && GreedySoFar(t, order, offset) && Aligned(offset, order)
    ensures GreedySoFar(t[offset := Free(order)], order - 1, offset + Pow2(order))
  {
    AppendTiles(t, order, offset);
    AlignedUp(offset, order);
  }

  lemma AppendApart(t: Tiling, order: nat, offset: nat)
    requires Tiles(t, offset)
    ensures Apart(t[offset := Free(order)])
  {
    var m := t[offset := Free(order)];
    forall a, b | a in m && b in m && a < b ensures Before(m, a, b) {
      assert a in t ==> PlacedAt(t, offset, a);
      assert b in t ==> PlacedAt(t, offset, b);
      assert b in t ==> Before(t, a, b);
    }
  }

  lemma AppendCovered(t: Tiling, order: nat, offset: nat)
    requires Tiles(t, offset)
    ensures Covered(t[offset := Free(order)], offset + Pow2(order))
  {
    var m := t[offset := Free(order)];
    forall x: nat | x < offset + Pow2(order) ensures CoveredAt(m, x) {
      if x < offset {
        assert CoveredAt(t, x);
        var w: nat :| Holds(t, w, x);
        assert PlacedAt(t, offset, w);
        assert Holds(m, w, x);
      } else {
        assert Holds(m, offset, x);
      }
    }
  }

  lemma AppendNoPairs(t: Tiling, order: nat, offset: nat)
    requires Tiles(t, offset) && NoFreePairs(t) && OrdersAbove(t, order)
    ensures NoFreePairs(t[offset := Free(order)])
  {
    var m := t[offset := Free(order)];
    forall a ensures !FreePair(m, a) {
      assert !FreePair(t, a);
      assert a in t ==> PlacedAt(t, offset, a);
      assert offset + Pow2(order) in t ==> PlacedAt(t, offset, offset + Pow2(order));
    }
  }

  lemma AppendTiles(t: Tiling, order: nat, offset: nat)
    requires MIN_ORDER <= order <= MAX_ORDER
    requires Tiles(t, offset) && NoFreePairs(t) && OrdersAbove(t, order) && Aligned(offset, order)
    ensures Tiles(t[offset := Free(order)], offset + Pow2(order)) && NoFreePairs(t[offset := Free(order)])
  {
    var m := t[offset := Free(order)];
    forall a | a in m ensures PlacedAt(m, offset + Pow2(order), a) { assert a in t ==> PlacedAt(t, offset, a); }
    AppendApart(t, order, offset);
    AppendCovered(t, order, offset);
    AppendNoPairs(t, order, offset);
  }

  lemma InitCovers(size: nat) returns (f: nat)
    ensures f <= size && f < 0x100_0000 && f % 16 == 0 && (size < 0x100_0000 ==> size < f + 16)
    ensures Tiles(InitTiling(size), f) && NoFreePairs(InitTiling(size)) && AllFree(InitTiling(size))
  {
    Pow2Of24();
    assert Pow2(4) == 16;
    GreedyTiles(map[], MAX_ORDER, 0, size, 0x100_0000);
    f := GreedyEnd(MAX_ORDER, 0, size);
  }

  /** mm_init partitions the heap exactly when its size is a multiple of 16 below 2^24. */
  lemma InitTilesIff(size: nat)
    ensures Tiles(InitTiling(size), size) <==> size % 16 == 0 && size < 0x100_0000
    ensures NoFreePairs(InitTiling(size)) && AllFree(InitTiling(size))
  {
    var f := InitCovers(size);
    if f < size {
      NotPastTheEnd(InitTiling(size), f, size);
    }
  }

  lemma NotPastTheEnd(t: Tiling, f: nat, size: nat)
    requires Tiles(t, f) && f < size
    ensures !Tiles(t, size)
  {
    if Tiles(t, size) { assert CoveredAt(t, f); }
    forall w: nat ensures !Holds(t, w, f) { assert w in t ==> PlacedAt(t, f, w); }
    assert !CoveredAt(t, f);
  }

  lemma Pow2Of24()
    ensures Pow2(24) == 0x100_0000
  {
    assert Pow2(8) == 256;
    assert Pow2(16) == 65536;
  }

  // ---------------------------------------------------------------- uniqueness

  /** With no free buddies left and nothing live, every aligned interval of the heap lies inside one block. */
  lemma {:induction false} InsideOneBlock(t: Tiling, total: nat, a: nat, k: nat) returns (o: nat)
    requires Tiles(t, total) && NoFreePairs(t) && AllFree(t)
    requires MIN_ORDER <= k <= MAX_ORDER && Aligned(a, k) && a + Pow2(k) <= total
    ensures o in t && o <= a && a + Pow2(k) <= End(t, o)
    decreases k
  {
    if k == MIN_ORDER {
      assert CoveredAt(t, a);
      o :| Holds(t, o, a);
      assert PlacedAt(t, total, o);
      Nested(a, k, o, t[o].order);
    } else {
      var p := Pow2(k - 1);
      AlignedDown(a, k - 1);
      AlignedUp(a, k - 1);
      o := InsideOneBlock(t, total, a, k - 1);
      var u := InsideOneBlock(t, total, a + p, k - 1);
      LargeEnough(t, total, o, a, k - 1);
      LargeEnough(t, total, u, a + p, k - 1);
      assert !FreePair(t, a);
      if t[o].order >= k {
        Nested(a, k, o, t[o].order);
      } else if t[u].order >= k {
        Nested(a, k, u, t[u].order);
        o := u;
      } else {
        assert false;
      }
    }
  }

  lemma LargeEnough(t: Tiling, total: nat, o: nat, a: nat, k: nat)
    requires Placed(t, total) && o in t && o <= a && a + Pow2(k) <= End(t, o)
    ensures Aligned(o, t[o].order) && t[o].order >= k && (t[o].order == k ==> o == a)
  {
    assert PlacedAt(t, total, o);
    if t[o].order < k { Pow2Monotone(t[o].order, k); }
  }

  lemma {:induction false} SameBlock(t: Tiling, s: Tiling, total: nat, o: nat)
    requires Tiles(t, total) && NoFreePairs(t) && AllFree(t)
    requires Tiles(s, total) && NoFreePairs(s) && AllFree(s)
    requires o in t
    ensures o in s && s[o] == t[o]
  {
    assert PlacedAt(t, total, o);
    var x := InsideOneBlock(s, total, o, t[o].order);
    assert PlacedAt(s, total, x);
    var y := InsideOneBlock(t, total, x, s[x].order);
    LargeEnough(s, total, x, o, t[o].order);
    LargeEnough(t, total, y, x, s[x].order);
    assert y < o ==> Before(t, y, o);
  }

  /** There is only one tiling of a heap without live blocks and without free buddies. */
  lemma CoalescedIsUnique(t: Tiling, s: Tiling, total: nat)
    requires Tiles(t, total) && NoFreePairs(t) && LiveBlocks(t) == map[]
    requires Tiles(s, total) && NoFreePairs(s) && LiveBlocks(s) == map[]
    ensures t == s
  {
    forall o | o in t ensures t[o].Free? { assert o !in LiveBlocks(t); }
    forall o | o in s ensures s[o].Free? { assert o !in LiveBlocks(s); }
    forall o | o in t ensures o in s && s[o] == t[o] { SameBlock(t, s, total, o); }
    forall o | o in s ensures o in t { SameBlock(s, t, total, o); }
  }

  // ---------------------------------------------------------------- runs

  /** One call that changes the heap: a malloc that takes the free block at o, or a free of the live block at o. */
  datatype Call = Malloc(o: nat, order: nat, kernel: bool) | Release(o: nat)

  predicate Enabled(t: Tiling, c: Call) {
    match c
    case Malloc(o, order, _) => o in t && t[o].Free? && MIN_ORDER <= order <= t[o].order
    case Release(o) => o in t && t[o].Live?
  }

  function Do(t: Tiling, total: nat, c: Call): Tiling
    requires Enabled(t, c)
  {
    match c
    case Malloc(o, order, kernel) => MallocTiling(t, o, order, kernel)
    case Release(o) => FreeTiling(t, total, o)
  }

  /** The calls can be made one after the other. */
  predicate Runs(t: Tiling, total: nat, cs: seq<Call>)
    decreases |cs|
  {
    cs == [] || (Enabled(t, cs[0]) && Runs(Do(t, total, cs[0]), total, cs[1..]))
  }

  function After(t: Tiling, total: nat, cs: seq<Call>): Tiling
    requires Runs(t, total, cs)
    decreases |cs|
  {
    if cs == [] then t else After(Do(t, total, cs[0]), total, cs[1..])
  }

  /** What the calls leave allocated. */
  function LiveAfter(live: set<nat>, cs: seq<Call>): set<nat>
    decreases |cs|
  {
    if cs == [] then live
    else LiveAfter(if cs[0].Malloc? then live + {cs[0].o} else live - {cs[0].o}, cs[1..])
  }

  /** Every run keeps the tiling, leaves no two free buddies, and keeps exactly the blocks not yet freed. */
  lemma {:induction false} RunKeeps(t: Tiling, total: nat, cs: seq<Call>)
    requires Tiles(t, total) && NoFreePairs(t) && Runs(t, total, cs)
    ensures var e := After(t, total, cs);
            Tiles(e, total) && NoFreePairs(e) && LiveBlocks(e).Keys == LiveAfter(LiveBlocks(t).Keys, cs)
    decreases |cs|
  {
    if cs != [] {
      match cs[0]
      case Malloc(o, order, kernel) =>
        MallocKeeps(t, total, o, order, kernel);
        assert LiveBlocks(Do(t, total, cs[0])).Keys == LiveBlocks(t).Keys + {o};
        RunKeeps(Do(t, total, cs[0]), total, cs[1..]);
      case Release(o) =>
        FreeKeeps(t, total, o);
        assert LiveBlocks(Do(t, total, cs[0])).Keys == LiveBlocks(t).Keys - {o};
        RunKeeps(Do(t, total, cs[0]), total, cs[1..]);
    }
  }

  /** After any run that frees everything it allocated, in any order, the heap is what mm_init built. */
  lemma FreeingAllRestoresInit(size: nat, cs: seq<Call>)
    requires size % 16 == 0 && size < 0x100_0000
    requires Runs(InitTiling(size), size, cs) && LiveAfter({}, cs) == {}
    ensures After(InitTiling(size), size, cs) == InitTiling(size)
  {
    InitTilesIff(size);
    assert LiveBlocks(InitTiling(size)) == map[];
    RunKeeps(InitTiling(size), size, cs);
    var e := After(InitTiling(size), size, cs);
    assert LiveBlocks(e).Keys == LiveAfter({}, cs) by { assert LiveBlocks(InitTiling(size)).Keys == {}; }
    CoalescedIsUnique(e, InitTiling(size), size);
  }
}
