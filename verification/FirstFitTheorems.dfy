/**
 The first-fit heap as a map from the address of every block to its size and use: what malloc and free do to it,
 what they keep, and why a heap without used blocks is always the single block of mm_init.
 */
module FirstFitTheorems {
  import opened Allocator

  const HEADER: nat := 24
  const MIN_SPLIT: nat := HEADER + 8

  datatype Use = Unused | Used(kernel: bool)
  /** `size` is the payload's, as in the header; the block itself is HEADER bytes longer. */
  datatype Block = Block(size: nat, use: Use)
  type Blocks = map<nat, Block>

  function End(t: Blocks, a: nat): nat
    requires a in t
  {
    a + HEADER + t[a].size
  }

  /** p is the block right before address a. */
  predicate Precedes(t: Blocks, p: nat, a: nat) {
    p in t && End(t, p) == a
  }

  ghost predicate HasPrevious(t: Blocks, a: nat) {
    a == 0 || exists p: nat :: Precedes(t, p, a)
  }

  predicate Before(t: Blocks, a: nat, b: nat)
    requires a in t
  {
    End(t, a) <= b
  }

  /** A block is followed by another one, or ends the heap. */
  predicate Followed(t: Blocks, total: nat, a: nat)
    requires a in t
  {
    End(t, a) == total || (End(t, a) < total && End(t, a) in t)
  }

  ghost predicate AllFollowed(t: Blocks, total: nat) {
    forall a {:trigger Followed(t, total, a)} :: a in t ==> Followed(t, total, a)
  }

  ghost predicate AllPreceded(t: Blocks) {
    forall a {:trigger HasPrevious(t, a)} :: a in t ==> HasPrevious(t, a)
  }

  ghost predicate Apart(t: Blocks) {
    forall a, b {:trigger Before(t, a, b)} :: a in t && b in t && a < b ==> Before(t, a, b)
  }

  /** The blocks cover [0, total) one after the other, without gaps or overlaps. */
  ghost predicate GapFree(t: Blocks, total: nat) {
    0 in t && AllFollowed(t, total) && AllPreceded(t) && Apart(t)
  }

  predicate IsFree(t: Blocks, a: nat) {
    a in t && t[a].use.Unused?
  }

  predicate FreePair(t: Blocks, a: nat) {
    IsFree(t, a) && IsFree(t, End(t, a))
  }

  /** No two adjacent free blocks, except possibly a pair with the block at e. */
  ghost predicate NoFreePairsBut(t: Blocks, e: nat) {
    forall a {:trigger FreePair(t, a)} :: FreePair(t, a) ==> a == e || End(t, a) == e
  }

  ghost predicate NoFreePairs(t: Blocks) {
    forall a {:trigger FreePair(t, a)} :: !FreePair(t, a)
  }

  function InitBlocks(size: nat): Blocks
    requires size > HEADER
  {
    map[0 := Block(size - HEADER, Unused)]
  }

  function UsedBlocks(t: Blocks): map<nat, Payload> {
    map a | a in t && t[a].use.Used? :: Payload(t[a].size, t[a].use.kernel)
  }

  // ---------------------------------------------------------------- malloc

  /** The block at a is free and large enough. */
  predicate Fits(t: Blocks, a: nat, need: nat) {
    IsFree(t, a) && t[a].size >= need
  }

  /** The block at a is the lowest-address block that fits. */
  ghost predicate FirstFit(t: Blocks, a: nat, need: nat) {
    Fits(t, a, need) && forall b :: Fits(t, b, need) ==> a <= b
  }

  /** The block at a handed out, its tail split off when that can hold a block of its own. */
  function Take(t: Blocks, a: nat, need: nat, kernel: bool): Blocks
    requires Fits(t, a, need)
  {
    if t[a].size >= need + MIN_SPLIT then
      t[a := Block(need, Used(kernel))][a + HEADER + need := Block(t[a].size - need - HEADER, Unused)]
    else t[a := Block(t[a].size, Used(kernel))]
  }

  /** What is handed out is what was asked for, or more by less than a block of its own would take; the rest is free. */
  lemma TakeWastesLittle(t: Blocks, a: nat, need: nat, kernel: bool)
    requires Fits(t, a, need) && Apart(t)
    ensures var u := Take(t, a, need, kernel);
            && a in u && u[a].use == Used(kernel) && need <= u[a].size < need + MIN_SPLIT
            && (u[a].size == t[a].size
                || (u[a].size == need && End(u, a) in u && u[End(u, a)].use == Unused
                    && End(u, End(u, a)) == End(t, a)))
  {
    if t[a].size >= need + MIN_SPLIT { SplitIsNew(t, a, need); }
  }

  lemma SplitIsNew(t: Blocks, a: nat, need: nat)
    requires Apart(t) && a in t && t[a].size >= need + MIN_SPLIT
    ensures a + HEADER + need !in t
  {
    assert a + HEADER + need in t ==> Before(t, a, a + HEADER + need);
  }

  lemma TakeFollowed(t: Blocks, total: nat, a: nat, need: nat, kernel: bool)
    requires AllFollowed(t, total) && Fits(t, a, need)
    ensures AllFollowed(Take(t, a, need, kernel), total)
  {
    var u := Take(t, a, need, kernel);
    assert Followed(t, total, a);
    forall b | b in u ensures Followed(u, total, b) {
      assert b in t ==> Followed(t, total, b);
    }
  }

  lemma TakePreceded(t: Blocks, a: nat, need: nat, kernel: bool)
    requires AllPreceded(t) && Apart(t) && Fits(t, a, need)
    ensures AllPreceded(Take(t, a, need, kernel))
  {
    var u := Take(t, a, need, kernel);
    var split := t[a].size >= need + MIN_SPLIT;
    if split { SplitIsNew(t, a, need); }
    forall b | b in u ensures HasPrevious(u, b) {
      if b in t && b > 0 {
        assert HasPrevious(t, b);
        var p: nat :| Precedes(t, p, b);
        assert Precedes(u, if split && p == a then a + HEADER + need else p, b);
      } else if b > 0 {
        assert Precedes(u, a, b);
      }
    }
  }

  lemma TakeApart(t: Blocks, a: nat, need: nat, kernel: bool)
    requires Apart(t) && Fits(t, a, need)
    ensures Apart(Take(t, a, need, kernel))
  {
    var u := Take(t, a, need, kernel);
    if t[a].size >= need + MIN_SPLIT { SplitIsNew(t, a, need); }
    forall b, c | b in u && c in u && b < c ensures Before(u, b, c) {
      var b' := if b in t then b else a;
      var c' := if c in t then c else a;
      assert b' < c' ==> Before(t, b', c');
      assert c' < b' ==> Before(t, c', b');
    }
  }

  lemma TakePair(t: Blocks, total: nat, a: nat, need: nat, kernel: bool, b: nat)
    requires GapFree(t, total) && NoFreePairs(t) && Fits(t, a, need)
    ensures !FreePair(Take(t, a, need, kernel), b)
  {
    assert !FreePair(t, b) && !FreePair(t, a) && Followed(t, total, a);
    assert b in t ==> Followed(t, total, b);
    if t[a].size >= need + MIN_SPLIT { SplitIsNew(t, a, need); }
  }

  /** malloc keeps the heap gap-free and without adjacent free blocks, and adds exactly one used block. */
  lemma TakeKeeps(t: Blocks, total: nat, a: nat, need: nat, kernel: bool)
    requires GapFree(t, total) && NoFreePairs(t) && Fits(t, a, need)
    ensures var u := Take(t, a, need, kernel);
            GapFree(u, total) && NoFreePairs(u) && UsedBlocks(u) == UsedBlocks(t)[a := Payload(u[a].size, kernel)]
            && need <= u[a].size < need + MIN_SPLIT
  {
    TakeFollowed(t, total, a, need, kernel);
    TakePreceded(t, a, need, kernel);
    TakeApart(t, a, need, kernel);
    var u := Take(t, a, need, kernel);
    if t[a].size >= need + MIN_SPLIT { SplitIsNew(t, a, need); }
    forall b ensures !FreePair(u, b) {
      TakePair(t, total, a, need, kernel, b);
    }
    assert UsedBlocks(u) == UsedBlocks(t)[a := Payload(u[a].size, kernel)];
  }

  // ---------------------------------------------------------------- free

  /** The block at a absorbs the one after it. */
  function Absorb(t: Blocks, a: nat): Blocks
    requires a in t && End(t, a) in t
  {
    (t - {End(t, a)})[a := Block(t[a].size + HEADER + t[End(t, a)].size, t[a].use)]
  }

  function AbsorbNext(t: Blocks, a: nat): Blocks
    requires a in t
  {
    if IsFree(t, End(t, a)) then Absorb(t, a) else t
  }

  /** The block right before a. */
  ghost function Previous(t: Blocks, a: nat): (p: nat)
    requires HasPrevious(t, a) && a > 0
    ensures Precedes(t, p, a)
  {
    var p: nat :| Precedes(t, p, a); p
  }

  ghost function AbsorbIntoPrevious(t: Blocks, a: nat): Blocks
    requires a in t && HasPrevious(t, a)
  {
    if a > 0 && IsFree(t, Previous(t, a)) then Absorb(t, Previous(t, a)) else t
  }

  function MarkFree(t: Blocks, a: nat): Blocks
    requires a in t
  {
    t[a := Block(t[a].size, Unused)]
  }

  lemma MarkGapFree(t: Blocks, total: nat, a: nat)
    requires GapFree(t, total) && a in t
    ensures GapFree(MarkFree(t, a), total)
  {
    var m := MarkFree(t, a);
    forall b | b in m ensures Followed(m, total, b) { assert Followed(t, total, b); }
    forall b | b in m ensures HasPrevious(m, b) {
      assert HasPrevious(t, b);
      if b > 0 {
        var p: nat :| Precedes(t, p, b);
        assert Precedes(m, p, b);
      }
    }
    forall b, c | b in m && c in m && b < c ensures Before(m, b, c) { assert Before(t, b, c); }
  }

  lemma AbsorbGapFree(t: Blocks, total: nat, a: nat)
    requires GapFree(t, total) && a in t && End(t, a) in t
    ensures GapFree(Absorb(t, a), total) && End(Absorb(t, a), a) == End(t, End(t, a))
  {
    AbsorbFollowed(t, total, a);
    AbsorbPreceded(t, a);
    AbsorbApart(t, a);
  }

  lemma AbsorbFollowed(t: Blocks, total: nat, a: nat)
    requires AllFollowed(t, total) && Apart(t) && a in t && End(t, a) in t
    ensures AllFollowed(Absorb(t, a), total)
  {
    var n := End(t, a);
    var u := Absorb(t, a);
    assert Followed(t, total, n);
    forall b | b in u ensures Followed(u, total, b) {
      assert Followed(t, total, b);
      assert b < a ==> Before(t, b, a);
      assert a < b ==> Before(t, a, b);
    }
  }

  lemma AbsorbPreceded(t: Blocks, a: nat)
    requires AllPreceded(t) && a in t && End(t, a) in t
    ensures AllPreceded(Absorb(t, a))
  {
    var n := End(t, a);
    forall b | b in Absorb(t, a) ensures HasPrevious(Absorb(t, a), b) {
      assert HasPrevious(t, b);
      if b > 0 {
        var p: nat :| Precedes(t, p, b);
        assert Precedes(Absorb(t, a), if p == n then a else p, b);
      }
    }
  }

  lemma AbsorbApart(t: Blocks, a: nat)
    requires Apart(t) && a in t && End(t, a) in t
    ensures Apart(Absorb(t, a))
  {
    var n := End(t, a);
    var u := Absorb(t, a);
    assert End(u, a) == End(t, n);
    forall b, c | b in u && c in u && b < c ensures Before(u, b, c) {
      assert Before(t, b, c);
      assert n < c ==> Before(t, n, c);
    }
  }

  lemma PreviousIsUnique(t: Blocks, total: nat, p: nat, q: nat, a: nat)
    requires GapFree(t, total) && Precedes(t, p, a) && Precedes(t, q, a)
    ensures p == q
  {
    assert p < q ==> Before(t, p, q);
    assert q < p ==> Before(t, q, p);
  }

  /** Absorbing a free block into a free neighbour leaves at most the pairs of the merged block. */
  lemma AbsorbPairs(t: Blocks, total: nat, a: nat, e: nat)
    requires GapFree(t, total) && NoFreePairsBut(t, e) && IsFree(t, a) && IsFree(t, End(t, a))
    requires e == a || e == End(t, a)
    ensures NoFreePairsBut(Absorb(t, a), a) && UsedBlocks(Absorb(t, a)) == UsedBlocks(t)
  {
    var u := Absorb(t, a);
    forall b | FreePair(u, b) ensures b == a || End(u, b) == a {
      assert b != a && End(u, b) != a ==> FreePair(t, b);
    }
  }

  /** What mm_free makes of the heap. */
  ghost function Release(t: Blocks, total: nat, a: nat): Blocks
    requires GapFree(t, total) && a in t
  {
    MarkGapFree(t, total, a);
    var m := MarkFree(t, a);
    assert IsFree(m, End(m, a)) ==> GapFree(Absorb(m, a), total) by {
      if IsFree(m, End(m, a)) { AbsorbGapFree(m, total, a); }
    }
    assert HasPrevious(AbsorbNext(m, a), a);
    AbsorbIntoPrevious(AbsorbNext(m, a), a)
  }

  lemma AbsorbNextKeeps(t: Blocks, total: nat, a: nat)
    requires GapFree(t, total) && NoFreePairsBut(t, a) && IsFree(t, a)
    ensures var u := AbsorbNext(t, a);
            GapFree(u, total) && NoFreePairsBut(u, a) && IsFree(u, a) && !IsFree(u, End(u, a))
              && UsedBlocks(u) == UsedBlocks(t)
  {
    var n := End(t, a);
    if IsFree(t, n) {
      AbsorbGapFree(t, total, a);
      AbsorbPairs(t, total, a, a);
      assert !FreePair(t, n);
    }
  }

  lemma AbsorbIntoPreviousKeeps(t: Blocks, total: nat, a: nat)
    requires GapFree(t, total) && NoFreePairsBut(t, a) && IsFree(t, a) && !IsFree(t, End(t, a))
    ensures HasPrevious(t, a)
    ensures var u := AbsorbIntoPrevious(t, a); GapFree(u, total) && NoFreePairs(u) && UsedBlocks(u) == UsedBlocks(t)
  {
    assert HasPrevious(t, a);
    var u := AbsorbIntoPrevious(t, a);
    if a > 0 && IsFree(t, Previous(t, a)) {
      var p := Previous(t, a);
      AbsorbGapFree(t, total, p);
      AbsorbPairs(t, total, p, a);
      forall b ensures !FreePair(u, b) {
        assert FreePair(u, b) && b != p ==> End(u, b) == p && FreePair(t, b);
        assert b in t && End(t, b) == p ==> !FreePair(t, b);
      }
    } else {
      forall b ensures !FreePair(t, b) {
        if FreePair(t, b) && End(t, b) == a {
          PreviousIsUnique(t, total, b, Previous(t, a), a);
        }
      }
    }
  }

  /** free keeps the heap gap-free, leaves no adjacent free blocks, and removes exactly one used block. */
  lemma ReleaseKeeps(t: Blocks, total: nat, a: nat)
    requires GapFree(t, total) && NoFreePairs(t) && a in t && t[a].use.Used?
    ensures var u := Release(t, total, a); GapFree(u, total) && NoFreePairs(u) && UsedBlocks(u) == UsedBlocks(t) - {a}
  {
    var m := MarkFree(t, a);
    MarkGapFree(t, total, a);
    forall b | FreePair(m, b) ensures b == a || End(m, b) == a {
      assert b != a && End(m, b) != a ==> FreePair(t, b);
    }
    assert UsedBlocks(m) == UsedBlocks(t) - {a};
    AbsorbNextKeeps(m, total, a);
    AbsorbIntoPreviousKeeps(AbsorbNext(m, a), total, a);
  }

  // ---------------------------------------------------------------- theorems

  /** Without used blocks there is only the block of mm_init. */
  lemma AllFreeIsInit(t: Blocks, total: nat)
    requires GapFree(t, total) && NoFreePairs(t) && UsedBlocks(t) == map[]
    ensures total >= HEADER && t == map[0 := Block(total - HEADER, Unused)]
  {
    forall a | a in t ensures IsFree(t, a) { assert a !in UsedBlocks(t); }
    assert !FreePair(t, 0) && Followed(t, total, 0);
    forall a | a in t ensures a == 0 {
      assert a > 0 ==> Before(t, 0, a);
      assert Followed(t, total, a);
    }
    assert t.Keys == {0};
  }

  /** One call that changes the heap. */
  datatype Call = Malloc(a: nat, need: nat, kernel: bool) | Free(a: nat)

  ghost predicate Enabled(t: Blocks, total: nat, c: Call) {
    match c
    case Malloc(a, need, _) => FirstFit(t, a, need)
    case Free(a) => GapFree(t, total) && a in t && t[a].use.Used?
  }

  ghost function Do(t: Blocks, total: nat, c: Call): Blocks
    requires Enabled(t, total, c)
  {
    match c
    case Malloc(a, need, kernel) => Take(t, a, need, kernel)
    case Free(a) => Release(t, total, a)
  }

  ghost predicate Runs(t: Blocks, total: nat, cs: seq<Call>)
    decreases |cs|
  {
    cs == [] || (Enabled(t, total, cs[0]) && Runs(Do(t, total, cs[0]), total, cs[1..]))
  }

  ghost function After(t: Blocks, total: nat, cs: seq<Call>): Blocks
    requires Runs(t, total, cs)
    decreases |cs|
  {
    if cs == [] then t else After(Do(t, total, cs[0]), total, cs[1..])
  }

  /** What the calls leave allocated. */
  function UsedAfter(used: set<nat>, cs: seq<Call>): set<nat>
    decreases |cs|
  {
    if cs == [] then used
    else UsedAfter(if cs[0].Malloc? then used + {cs[0].a} else used - {cs[0].a}, cs[1..])
  }

  lemma {:induction false} RunKeeps(t: Blocks, total: nat, cs: seq<Call>)
    requires GapFree(t, total) && NoFreePairs(t) && Runs(t, total, cs)
    ensures var e := After(t, total, cs);
            GapFree(e, total) && NoFreePairs(e) && UsedBlocks(e).Keys == UsedAfter(UsedBlocks(t).Keys, cs)
    decreases |cs|
  {
    if cs != [] {
      match cs[0]
      case Malloc(a, need, kernel) =>
        TakeKeeps(t, total, a, need, kernel);
        assert UsedBlocks(Do(t, total, cs[0])).Keys == UsedBlocks(t).Keys + {a};
        RunKeeps(Do(t, total, cs[0]), total, cs[1..]);
      case Free(a) =>
        ReleaseKeeps(t, total, a);
        assert UsedBlocks(Do(t, total, cs[0])).Keys == UsedBlocks(t).Keys - {a};
        RunKeeps(Do(t, total, cs[0]), total, cs[1..]);
    }
  }

  /** After any run that frees everything it allocated, in any order, the heap is the one block of mm_init. */
  lemma FreeingAllRestoresInit(size: nat, cs: seq<Call>)
    requires size > HEADER && Runs(InitBlocks(size), size, cs) && UsedAfter({}, cs) == {}
    ensures After(InitBlocks(size), size, cs) == InitBlocks(size)
  {
    var t := InitBlocks(size);
    assert UsedBlocks(t).Keys == {};
    RunKeeps(t, size, cs);
    var e := After(t, size, cs);
    assert UsedBlocks(e).Keys == UsedAfter({}, cs);
    AllFreeIsInit(e, size);
  }

  /** The used blocks are a sound set of payloads. */
  lemma PayloadsSound(t: Blocks, total: nat)
    requires GapFree(t, total)
    ensures Sound(UsedBlocks(t), HEADER, total)
  {
    var live := UsedBlocks(t);
    forall h | h in live ensures h + HEADER + live[h].capacity <= total { assert Followed(t, total, h); }
    forall h, g | h in live && g in live && h < g ensures h + HEADER + live[h].capacity <= g { assert Before(t, h, g); }
  }
}
