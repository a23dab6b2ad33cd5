/**
 memoryManagerBuddy.c as a class: each loop of the source, proved against the tilings of BuddyTiling.
 */
module BuddyHeap {
  import opened Dyadic
  import opened BuddyTiling
  import opened BuddyTheorems
  import opened Allocator
  import opened Buddy

  /** The first order whose blocks hold `size` bytes. */
  predicate LeastOrder(size: nat, order: nat) {
    MIN_ORDER <= order <= MAX_ORDER && size <= Pow2(order) && (order > MIN_ORDER ==> Pow2(order - 1) < size)
  }

  /** What malloc looks for: the requested size plus the header, in 64-bit arithmetic. */
  function Need(size: nat): nat {
    (size + HEADER) % U64
  }

  /** A free block that a request of `need` bytes could be served from. */
  ghost predicate Serves(t: Tiling, need: nat, o: nat) {
    o in t && t[o].Free? && need <= Pow2(t[o].order)
  }

  function GetBuddy(block: nat, order: nat, total: nat): Ptr {
    var off := Xor(block, Pow2(order));
    if off + Pow2(order) > total then Null else Addr(off)
  }

  method SizeToOrder(size: nat) returns (order: int)
    ensures order == -1 <==> size > Pow2(MAX_ORDER)
    ensures order != -1 ==> order >= 0 && LeastOrder(size, order)
  {
    var o: nat := MIN_ORDER;
    while Pow2(o) < size
      invariant MIN_ORDER <= o <= MAX_ORDER
      invariant o > MIN_ORDER ==> Pow2(o - 1) < size
      decreases MAX_ORDER - o
    {
      o := o + 1;
      if o > MAX_ORDER {
        return -1;
      }
    }
    Pow2Monotone(o, MAX_ORDER);
    return o;
  }

  class Heap {
    var ready: bool
    var total: nat
    var allocCount: nat
    const freeLists: array<Ptr>
    var mem: Memory
    ghost var blocks: Tiling
    ghost var lists: seq<seq<nat>>

    /** The heap is consistent, apart from the blocks in hand, which are in no list. */
    ghost predicate Consistent(hand: set<nat>)
      reads this, freeLists
    {
      freeLists.Length == ORDERS && Core(mem, freeLists[..], lists, blocks, total, hand)
    }

    ghost predicate Valid()
      reads this, freeLists
    {
      && Consistent({})
      && NoFreePairs(blocks)
      && allocCount == |UserBlocks(blocks)|
      && (!ready ==> total == 0)
    }

    constructor (garbage: Memory)
      ensures Valid() && !ready && blocks == map[] && fresh(freeLists)
    {
      ready, total, allocCount := false, 0, 0;
      freeLists := new Ptr[ORDERS](_ => Null);
      mem := garbage;
      blocks := map[];
      lists := seq(ORDERS, _ => []);
      new;
      assert UserBlocks(blocks) == {};
    }

    method ClearLists()
      requires freeLists.Length == ORDERS
      modifies freeLists
      ensures forall j :: 0 <= j < ORDERS ==> freeLists[j] == Null
    {
      for i := 0 to ORDERS
        invariant forall j :: 0 <= j < i ==> freeLists[j] == Null
      {
        freeLists[i] := Null;
      }
    }

    method MmInit(size: nat)
      requires freeLists.Length == ORDERS
      modifies this, freeLists
      ensures ready && total == size && blocks == InitTiling(size) && LiveBlocks(blocks) == map[]
      ensures size % 16 == 0 && size < 0x100_0000 ==> Valid()
    {
      ready, total, allocCount := true, size, 0;
      ClearLists();
      blocks := map[];
      lists := seq(ORDERS, _ => []);
      Decompose(size);
      InitTilesIff(size);
      assert LiveBlocks(blocks) == map[];
      assert UserBlocks(blocks) == {};
    }

    /** mm_init's second loop: the greedy decomposition, from the largest order down. */
    method Decompose(size: nat)
      requires freeLists.Length == ORDERS && blocks == map[]
      requires Headers(mem, blocks) && Lists(mem, freeLists[..], lists, blocks, {})
      modifies this`mem, this`blocks, this`lists, freeLists
      ensures blocks == InitTiling(size)
      ensures Headers(mem, blocks) && Lists(mem, freeLists[..], lists, blocks, {})
    {
      var offset: nat := 0;
      var order: nat := MAX_ORDER;
      ghost var done := InitTiling(size);
      while order >= MIN_ORDER && offset < size
        invariant MIN_ORDER - 1 <= order <= MAX_ORDER && offset <= size
        invariant Greedy(blocks, order, offset, size) == done
        invariant Headers(mem, blocks) && Lists(mem, freeLists[..], lists, blocks, {})
        invariant Below(blocks, offset)
      {
        var blockSize := Pow2(order);
        GreedyStep(blocks, order, offset, size);
        if offset + blockSize <= size {
          AddBlock(order, offset);
          offset := offset + blockSize;
        }
        order := order - 1;
      }
      GreedyDone(blocks, order, offset, size);
    }

    /** The body of mm_init's loop: a new free block in front of its list. */
    method AddBlock(order: nat, offset: nat)
      requires freeLists.Length == ORDERS && MIN_ORDER <= order <= MAX_ORDER
      requires Headers(mem, blocks) && Lists(mem, freeLists[..], lists, blocks, {}) && offset !in blocks
      modifies this`mem, this`blocks, this`lists, freeLists
      ensures blocks == old(blocks)[offset := Free(order)]
      ensures Headers(mem, blocks) && Lists(mem, freeLists[..], lists, blocks, {})
    {
      ghost var t := blocks;
      ghost var m := mem;
      var idx := order - MIN_ORDER;
      mem := mem[offset := Node(order, true, false, freeLists[idx])];
      blocks := blocks[offset := Free(order)];
      ListsFrame(m, mem, freeLists[..], lists, t, blocks, {}, {offset});
      PushLists(mem, freeLists[..], lists, blocks, {offset}, offset, idx);
      lists := lists[idx := [offset] + lists[idx]];
      freeLists[idx] := Addr(offset);
      assert {offset} - {offset} == {};
      AddHeader(m, t, offset, mem, blocks);
    }

    /** The walk of list_remove: what precedes the target in the list of its order. */
    method FindPrevious(order: nat, target: nat, ghost hand: set<nat>) returns (prev: Ptr, ghost k: nat)
      requires Consistent(hand) && MIN_ORDER <= order <= MAX_ORDER
      requires target in blocks && blocks[target] == Free(order) && target !in hand
      ensures var l := lists[order - MIN_ORDER];
              k < |l| && l[k] == target && prev == if k == 0 then Null else Addr(l[k - 1])
    {
      var idx := order - MIN_ORDER;
      ghost var l := lists[idx];
      k := 0;
      assert ListOk(mem, freeLists[..][idx], l, blocks, idx, hand);
      prev := Null;
      var cur := freeLists[idx];
      while cur != Null && cur != Addr(target)
        invariant k <= |l| && cur == Link(l, k) && prev == (if k == 0 then Null else Addr(l[k - 1]))
        invariant target !in l[..k]
        decreases |l| - k
      {
        prev := cur;
        cur := mem[cur.off].next;
        k := k + 1;
      }
      assert target in l;
    }

    /** Unlinks target from the list of its order, if it is there. */
    method ListRemove(order: nat, target: nat, ghost hand: set<nat>)
      requires Consistent(hand) && MIN_ORDER <= order <= MAX_ORDER
      requires target in blocks && blocks[target] == Free(order) && target !in hand
      modifies this`mem, this`lists, freeLists
      ensures Consistent(hand + {target})
      ensures mem.Keys == old(mem).Keys
      ensures exists w :: w in blocks && blocks[w].Free? && OnlyLinkChanged(old(mem), mem, w)
    {
      ghost var before := mem;
      var prev;
      ghost var k;
      prev, k := FindPrevious(order, target, hand);
      ghost var w := Relink(order, target, prev, k, hand);
      assert w in blocks && blocks[w].Free? && OnlyLinkChanged(before, mem, w);
    }

    /** The target's successor takes its place: in the list's head, or in the block before it. */
    method Relink(order: nat, target: nat, prev: Ptr, ghost k: nat, ghost hand: set<nat>) returns (ghost w: nat)
      requires Consistent(hand) && MIN_ORDER <= order <= MAX_ORDER
      requires var l := lists[order - MIN_ORDER];
               k < |l| && l[k] == target && prev == if k == 0 then Null else Addr(l[k - 1])
      modifies this`mem, this`lists, freeLists
      ensures Consistent(hand + {target}) && mem.Keys == old(mem).Keys
      ensures w in blocks && blocks[w].Free? && OnlyLinkChanged(old(mem), mem, w)
    {
      var idx := order - MIN_ORDER;
      ghost var l, m, heads := lists[idx], mem, freeLists[..];
      assert ListOk(mem, freeLists[..][idx], l, blocks, idx, hand);
      w := if k == 0 then target else l[k - 1];
      assert l[k] in l && w in l;
      if prev == Null {
        freeLists[idx] := mem[target].next;
        assert freeLists[..] == heads[idx := Link(l, 1)];
      } else {
        mem := mem[prev.off := mem[prev.off].(next := mem[target].next)];
      }
      UnlinkLists(m, heads, lists, blocks, hand, idx, k, mem, freeLists[..]);
      lists := lists[idx := Without(l, k)];
      HeadersFrame(m, mem, blocks);
    }

    method MmMallocImpl(size: nat, kernel: bool) returns (p: Ptr)
      requires Valid() && size < U64
      modifies this`mem, this`blocks, this`lists, this`allocCount, freeLists
      ensures Valid()
      ensures p.Null? <==> size == 0 || !exists o :: Serves(old(blocks), Need(size), o)
      ensures p.Null? ==> blocks == old(blocks) && mem == old(mem)
      ensures p.Addr? ==> Allocated(old(blocks), blocks, Need(size), kernel, p.off)
      ensures Untouched(old(mem), mem, old(blocks), LiveBlocks(old(blocks)).Keys)
    {
      if size == 0 || !ready {
        NoBlocksBelowZero(blocks, total);
        return Null;
      }
      var order := SizeToOrder(Need(size));
      OrdersThatServe(blocks, total, Need(size), order);
      if order < 0 {
        return Null;
      }
      var found := FirstNonEmpty(order);
      if found < 0 {
        return Null;
      }
      var b := Take(found, order, kernel);
      assert Serves(old(blocks), Need(size), b);
      assert AllocatedAs(old(blocks), blocks, Need(size), kernel, b + HEADER, b, order);
      return Addr(b + HEADER);
    }

    /** Takes a block from the list of order `found` and cuts it down to `order`. */
    method Take(found: nat, order: nat, kernel: bool) returns (b: nat)
      requires Valid() && MIN_ORDER <= order <= found <= MAX_ORDER && freeLists[found - MIN_ORDER] != Null && ready
      modifies this`mem, this`blocks, this`lists, this`allocCount, freeLists
      ensures Valid()
      ensures b in old(blocks) && old(blocks)[b] == Free(found) && blocks == MallocTiling(old(blocks), b, order, kernel)
      ensures Untouched(old(mem), mem, old(blocks), LiveBlocks(old(blocks)).Keys)
    {
      ghost var t := blocks;
      var block := PopFront(found);
      b := Split(block, found, order);
      ghost var m := mem;
      Claim(t, b, order, kernel);
      UntouchedTrans(old(mem), m, mem, t, LiveBlocks(t).Keys);
      MallocKeeps(t, total, b, order, kernel);
      UsersAfterMalloc(t, blocks, b, order, kernel);
      if !kernel {
        allocCount := allocCount + 1;
      }
    }

    /** The header of a block handed to the caller. */
    method Claim(ghost t: Tiling, b: nat, order: nat, kernel: bool)
      requires Consistent({b}) && b in blocks && blocks[b] == Free(order) && MIN_ORDER <= order
      requires Tiles(t, total) && b in t && t[b].Free? && order <= t[b].order && blocks == SplitDown(t, b, order)
      modifies this`mem, this`blocks
      ensures Consistent({}) && blocks == MallocTiling(t, b, order, kernel)
      ensures Untouched(old(mem), mem, t, LiveBlocks(t).Keys)
    {
      ghost var m := mem;
      ghost var s := blocks;
      assert HeaderAt(mem, blocks, b);
      mem := mem[b := mem[b].(isFree := false, isKernel := kernel)];
      blocks := blocks[b := Live(order, kernel)];
      AddHeader(m, s, b, mem, blocks);
      ListsFrame(m, mem, freeLists[..], lists, s, blocks, {b}, {});
      MarkKeepsTiles(s, total, b, Live(order, kernel));
      WriteOutside(m, m, mem, t, t, LiveBlocks(t).Keys, {b});
    }

    /** The smallest order, from the given one up, that has a free block; -1 if none has. */
    method FirstNonEmpty(order: nat) returns (found: int)
      requires Consistent({}) && MIN_ORDER <= order <= MAX_ORDER
      ensures found == -1 ==> forall o :: o in blocks && blocks[o].Free? ==> blocks[o].order < order
      ensures found != -1 ==> order <= found <= MAX_ORDER && freeLists[found - MIN_ORDER] != Null
      ensures found != -1 ==> forall o :: o in blocks && blocks[o].Free? && blocks[o].order >= order ==>
              found <= blocks[o].order
    {
      found := -1;
      var i := order;
      while i <= MAX_ORDER
        invariant order <= i <= MAX_ORDER + 1 && found == -1
        invariant forall j :: order - MIN_ORDER <= j < i - MIN_ORDER ==> lists[j] == []
      {
        assert ListOk(mem, freeLists[..][i - MIN_ORDER], lists[i - MIN_ORDER], blocks, i - MIN_ORDER, {});
        if freeLists[i - MIN_ORDER] != Null {
          found := i;
          break;
        }
        i := i + 1;
      }
      NothingBelow(mem, freeLists[..], lists, blocks, total, order, i);
    }

    method PopFront(found: nat) returns (block: nat)
      requires Consistent({}) && MIN_ORDER <= found <= MAX_ORDER && freeLists[found - MIN_ORDER] != Null
      modifies this`lists, freeLists
      ensures Consistent({block}) && block in blocks && blocks[block] == Free(found)
    {
      var idx := found - MIN_ORDER;
      ghost var l := lists[idx];
      assert ListOk(mem, freeLists[..][idx], l, blocks, idx, {});
      block := freeLists[idx].off;
      assert block == l[0] && l[0] in l;
      ghost var heads := freeLists[..];
      freeLists[idx] := mem[block].next;
      UnlinkLists(mem, heads, lists, blocks, {}, idx, 0, mem, freeLists[..]);
      lists := lists[idx := Without(l, 0)];
      assert {} + {block} == {block};
    }

    /** The loop of malloc_impl that halves the block until it has the wanted order. */
    method Split(block: nat, from: nat, order: nat) returns (b: nat)
      requires Consistent({block}) && block in blocks && blocks[block] == Free(from)
      requires MIN_ORDER <= order <= from <= MAX_ORDER
      modifies this`mem, this`blocks, this`lists, freeLists
      ensures b == block && blocks == SplitDown(old(blocks), block, order)
      ensures Consistent({block}) && block in blocks && blocks[block] == Free(order)
      ensures Untouched(old(mem), mem, old(blocks), LiveBlocks(old(blocks)).Keys)
    {
      ghost var t0 := blocks;
      ghost var keep := LiveBlocks(t0).Keys;
      var found := from;
      while found > order
        invariant order <= found <= from && block in blocks && blocks[block] == Free(found)
        invariant Consistent({block})
        invariant SplitDown(blocks, block, order) == SplitDown(t0, block, order)
        invariant StillLive(t0, blocks, keep) && Untouched(old(mem), mem, t0, keep)
      {
        found := found - 1;
        SplitOnce(block, found, t0, keep, old(mem));
      }
      return block;
    }

    method SplitOnce(block: nat, found: nat, ghost t0: Tiling, ghost keep: set<nat>, ghost m0: Memory)
      requires Consistent({block}) && block in blocks && blocks[block] == Free(found + 1)
      requires MIN_ORDER <= found < MAX_ORDER
      requires StillLive(t0, blocks, keep) && Untouched(m0, mem, t0, keep)
      modifies this`mem, this`blocks, this`lists, freeLists
      ensures blocks == Halve(old(blocks), block) && Consistent({block})
      ensures StillLive(t0, blocks, keep) && Untouched(m0, mem, t0, keep)
    {
      ghost var m, t, heads := mem, blocks, freeLists[..];
      var idx := found - MIN_ORDER;
      var buddy := block + Pow2(found);
      HalveTiles(t, total, block);
      assert HeaderAt(m, t, block);
      mem := mem[buddy := Node(found, true, false, freeLists[idx])];
      freeLists[idx] := Addr(buddy);
      mem := mem[block := mem[block].(order := found)];
      SplitRound(m, heads, lists, t, total, block, found, mem, t0, keep, m0);
      lists := lists[idx := [buddy] + lists[idx]];
      blocks := Halve(t, block);
      assert freeLists[..] == heads[idx := Addr(buddy)];
    }

    method MmFree(p: Ptr)
      requires Valid()
      requires p.Addr? ==> p.off >= HEADER && p.off - HEADER in blocks && blocks[p.off - HEADER].Live?
      modifies this`mem, this`blocks, this`lists, this`allocCount, freeLists
      ensures Valid()
      ensures blocks == if p.Null? then old(blocks) else FreeTiling(old(blocks), total, p.off - HEADER)
      ensures p.Null? ==> mem == old(mem)
      ensures p.Addr? ==> Untouched(old(mem), mem, old(blocks), LiveBlocks(old(blocks)).Keys - {p.off - HEADER})
    {
      if p == Null {
        return;
      }
      var block := p.off - HEADER;
      ghost var t0, m0 := blocks, mem;
      ghost var keep := LiveBlocks(t0).Keys - {block};
      assert HeaderAt(mem, blocks, block);
      FreeKeeps(t0, total, block);
      UsersAfterFree(t0, FreeTiling(t0, total, block), block);
      var order := mem[block].order;
      if !mem[block].isKernel {
        allocCount := allocCount - 1;
      }
      Unclaim(block);
      block, order := CoalesceUp(block, order, t0, keep, m0);
      PutBack(block, order, t0, keep, m0);
    }

    /** The coalescing loop: absorbs free buddies of the same order as long as there are any. */
    method CoalesceUp(b: nat, from: nat, ghost t0: Tiling, ghost keep: set<nat>, ghost m0: Memory)
      returns (block: nat, order: nat)
      requires Consistent({b}) && b in blocks && blocks[b] == Free(from) && MIN_ORDER <= from <= MAX_ORDER
      requires StillLive(t0, blocks, keep) && Untouched(m0, mem, t0, keep)
      modifies this`mem, this`blocks, this`lists, freeLists
      ensures blocks == Coalesce(old(blocks), total, b)
      ensures Consistent({block}) && block in blocks && blocks[block] == Free(order) && MIN_ORDER <= order <= MAX_ORDER
      ensures StillLive(t0, blocks, keep) && Untouched(m0, mem, t0, keep)
    {
      block, order := b, from;
      while order < MAX_ORDER
        invariant block in blocks && blocks[block] == Free(order) && MIN_ORDER <= order <= MAX_ORDER
        invariant Consistent({block})
        invariant Coalesce(blocks, total, block) == Coalesce(old(blocks), total, b)
        invariant StillLive(t0, blocks, keep) && Untouched(m0, mem, t0, keep)
      {
        var buddy := GetBuddy(block, order, total);
        BuddyHeader(mem, blocks, total, block);
        if buddy == Null || !mem[buddy.off].isFree || mem[buddy.off].order != order {
          assert !CanMerge(blocks, total, block);
          break;
        }
        block := Absorb(block, buddy.off, order, t0, keep, m0);
        order := order + 1;
      }
    }

    /** The header of a block handed back by the caller. */
    method Unclaim(block: nat)
      requires Consistent({}) && block in blocks && blocks[block].Live? && block in mem
      modifies this`mem, this`blocks
      ensures Consistent({block}) && blocks == old(blocks)[block := Free(old(blocks)[block].order)]
      ensures MIN_ORDER <= blocks[block].order <= MAX_ORDER
      ensures StillLive(old(blocks), blocks, LiveBlocks(old(blocks)).Keys - {block})
      ensures Untouched(old(mem), mem, old(blocks), LiveBlocks(old(blocks)).Keys - {block})
    {
      ghost var m, t := mem, blocks;
      assert HeaderAt(m, t, block) && PlacedAt(t, total, block);
      mem := mem[block := mem[block].(isFree := true)];
      blocks := blocks[block := Free(t[block].order)];
      AddHeader(m, t, block, mem, blocks);
      ListsFrame(m, mem, freeLists[..], lists, t, blocks, {}, {block});
      MarkKeepsTiles(t, total, block, Free(t[block].order));
      WriteOutside(m, m, mem, t, blocks, LiveBlocks(t).Keys - {block}, {block});
    }

    /** The buddy leaves its list. */
    method Detach(block: nat, buddy: nat, order: nat, ghost t0: Tiling, ghost keep: set<nat>, ghost m0: Memory)
      requires Consistent({block}) && MIN_ORDER <= order < MAX_ORDER && buddy != block
      requires buddy in blocks && blocks[buddy] == Free(order)
      requires StillLive(t0, blocks, keep) && Untouched(m0, mem, t0, keep)
      modifies this`mem, this`lists, freeLists
      ensures Consistent({block, buddy}) && Untouched(m0, mem, t0, keep) && mem.Keys == old(mem).Keys
    {
      ListRemove(order, buddy, {block});
      assert {block} + {buddy} == {block, buddy};
      ghost var w :| w in blocks && blocks[w].Free? && OnlyLinkChanged(old(mem), mem, w);
      WriteOutside(m0, old(mem), mem, t0, blocks, keep, {w});
    }

    /** One round of the coalescing loop. */
    method Absorb(block: nat, buddy: nat, order: nat, ghost t0: Tiling, ghost keep: set<nat>, ghost m0: Memory)
      returns (merged: nat)
      requires Consistent({block}) && block in blocks && blocks[block] == Free(order)
      requires CanMerge(blocks, total, block) && buddy == Xor(block, Pow2(order)) && MIN_ORDER <= order < MAX_ORDER
      requires StillLive(t0, blocks, keep) && Untouched(m0, mem, t0, keep)
      modifies this`mem, this`blocks, this`lists, freeLists
      ensures merged == Min(block, buddy) && blocks == Merge(old(blocks), block, buddy) && Consistent({merged})
      ensures StillLive(t0, blocks, keep) && Untouched(m0, mem, t0, keep)
    {
      ghost var t := blocks;
      PairShape(t, total, block);
      Detach(block, buddy, order, t0, keep, m0);
      merged := if buddy < block then buddy else block;
      ghost var m := mem;
      assert HeaderAt(mem, t, merged);
      mem := mem[merged := mem[merged].(order := order + 1)];
      MergeIsJoin(t, total, block);
      JoinTiles(t, total, merged);
      MergeHeaders(m, t, merged, mem);
      assert {block, buddy} == {merged, End(t, merged)};
      MergeLists(m, freeLists[..], lists, t, merged, mem);
      blocks := Merge(t, block, buddy);
      WriteOutside(m0, m, mem, t0, t, keep, {merged});
    }

    /** The freed block, as large as it got, goes to the front of its list. */
    method PutBack(block: nat, order: nat, ghost t0: Tiling, ghost keep: set<nat>, ghost m0: Memory)
      requires Consistent({block}) && block in blocks && blocks[block] == Free(order) && MIN_ORDER <= order <= MAX_ORDER
      requires StillLive(t0, blocks, keep) && Untouched(m0, mem, t0, keep)
      modifies this`mem, this`lists, freeLists
      ensures Consistent({}) && Untouched(m0, mem, t0, keep)
    {
      ghost var m, heads := mem, freeLists[..];
      var idx := order - MIN_ORDER;
      assert HeaderAt(mem, blocks, block);
      mem := mem[block := mem[block].(next := freeLists[idx])];
      freeLists[idx] := Addr(block);
      ListsFrame(m, mem, heads, lists, blocks, blocks, {block}, {block});
      PushLists(mem, heads, lists, blocks, {block}, block, idx);
      lists := lists[idx := [block] + lists[idx]];
      assert {block} - {block} == {};
      HeadersFrame(m, mem, blocks);
      WriteOutside(m0, m, mem, t0, blocks, keep, {block});
    }

    /** The owner of a live block writes its payload: any bytes of the block except its header. */
    method UserWrite(block: nat, bytes: Memory)
      requires Valid() && block in blocks && blocks[block].Live?
      requires forall a :: a in bytes ==> Holds(blocks, block, a)
      requires block in bytes && block in mem ==> bytes[block].(next := Null) == mem[block].(next := Null)
      modifies this`mem
      ensures Valid() && mem == old(mem) + bytes
    {
      UserWriteHeaders(mem, bytes, blocks, total, block);
      ghost var m := mem;
      mem := mem + bytes;
      ListsFrame(m, mem, freeLists[..], lists, blocks, blocks, {}, {});
    }

    /** mm_status: a linear walk from header to header. */
    method MmStatus(status: MemStatus) returns (s: MemStatus)
      requires Valid()
      ensures !ready ==> s == status
      ensures ready ==> s == MemStatus(total, |BytesIn(blocks, total, FreeBytes)|, |BytesIn(blocks, total, UserBytes)|,
                                       |BytesIn(blocks, total, KernelBytes)|, |UserBlocks(blocks)|)
      ensures ready ==> s.total == s.free + s.used + s.usedKernel
    {
      if !ready {
        return status;
      }
      var free, used, usedKernel := 0, 0, 0;
      var off: nat := 0;
      FirstBlock(blocks, total);
      while off < total
        invariant off <= total && (off < total ==> off in blocks)
        invariant free == |BytesIn(blocks, off, FreeBytes)| && used == |BytesIn(blocks, off, UserBytes)|
        invariant usedKernel == |BytesIn(blocks, off, KernelBytes)|
        invariant free + used + usedKernel == off
        decreases total - off
      {
        assert HeaderAt(mem, blocks, off);
        var size := Pow2(mem[off].order);
        NextBlock(blocks, total, off);
        AddBytes(blocks, off, FreeBytes);
        AddBytes(blocks, off, UserBytes);
        AddBytes(blocks, off, KernelBytes);
        if mem[off].isFree {
          free := free + size;
        } else if mem[off].isKernel {
          usedKernel := usedKernel + size;
        } else {
          used := used + size;
        }
        off := off + size;
      }
      return MemStatus(total, free, used, usedKernel, allocCount);
    }
  }

  /** Every block starts before `limit`. */
  ghost predicate Below(t: Tiling, limit: nat) {
    forall o: nat :: o in t ==> o < limit
  }

  lemma AddHeader(m: Memory, t: Tiling, o: nat, m': Memory, t': Tiling)
    requires Headers(m, t) && o in t' && t' == t[o := t'[o]] && HeaderAt(m', t', o)
    requires o in m' && m' == m[o := m'[o]]
    ensures Headers(m', t')
  {
    forall a | a in t' ensures HeaderAt(m', t', a) { assert a in t ==> HeaderAt(m, t, a); }
  }

  lemma GreedyStep(t: Tiling, order: nat, offset: nat, size: nat)
    requires order >= MIN_ORDER
    ensures Greedy(t, order, offset, size) ==
            if offset + Pow2(order) <= size
            then Greedy(t[offset := Free(order)], order - 1, offset + Pow2(order), size)
            else Greedy(t, order - 1, offset, size)
  {
  }

  lemma {:induction false} GreedyDone(t: Tiling, order: nat, offset: nat, size: nat)
    requires (order < MIN_ORDER || offset >= size)
    ensures Greedy(t, order, offset, size) == t
    decreases order
  {
    if order >= MIN_ORDER { GreedyDone(t, order - 1, offset, size); }
  }

  /** The two memories differ at most in the list link stored at w. */
  ghost predicate OnlyLinkChanged(m: Memory, m': Memory, w: nat) {
    m.Keys == m'.Keys && (w in m ==> m'[w].(next := Null) == m[w].(next := Null)) && forall a :: a in m && a != w ==>
      m'[a] == m[a]
  }

  lemma HeadersFrame(m: Memory, m': Memory, t: Tiling)
    requires Headers(m, t) && m.Keys == m'.Keys
    requires forall o :: o in m ==> m'[o].(next := Null) == m[o].(next := Null)
    ensures Headers(m', t)
  {
    forall o | o in t ensures HeaderAt(m', t, o) { assert HeaderAt(m, t, o); }
  }

  /** A tiling after malloc handed out the payload at a: a block of the least sufficient order, cut from
      the start of a smallest free block that serves the request. */
  ghost predicate Allocated(t: Tiling, t': Tiling, need: nat, kernel: bool, a: nat) {
    exists o: nat, order: nat :: AllocatedAs(t, t', need, kernel, a, o, order)
  }

  ghost predicate AllocatedAs(t: Tiling, t': Tiling, need: nat, kernel: bool, a: nat, o: nat, order: nat) {
    && a == o + HEADER && LeastOrder(need, order)
    && o in t && t[o].Free? && order <= t[o].order
    && (forall x :: Serves(t, need, x) ==> t[o].order <= t[x].order)
    && t' == MallocTiling(t, o, order, kernel)
  }

  lemma NoBlocksBelowZero(t: Tiling, total: nat)
    requires Placed(t, total)
    ensures total == 0 ==> t == map[]
  {
    forall o | o in t ensures total > 0 { assert PlacedAt(t, total, o); }
    if total == 0 { assert t.Keys == {}; }
  }

  /** The blocks that serve a request are the free ones of at least its order. */
  lemma OrdersThatServe(t: Tiling, total: nat, need: nat, order: int)
    requires Placed(t, total)
    requires order == -1 <==> need > Pow2(MAX_ORDER)
    requires order != -1 ==> order >= 0 && LeastOrder(need, order)
    ensures forall o {:trigger Serves(t, need, o)} :: Serves(t, need, o) <==>
            order >= 0 && o in t && t[o].Free? && t[o].order >= order
  {
    forall o ensures Serves(t, need, o) <==> order >= 0 && o in t && t[o].Free? && t[o].order >= order {
      if o in t {
        assert PlacedAt(t, total, o);
        OrderServes(t[o].order, need, order);
      }
    }
  }

  lemma OrderServes(k: nat, need: nat, order: int)
    requires MIN_ORDER <= k <= MAX_ORDER && (order == -1 <==> need > Pow2(MAX_ORDER))
    requires order != -1 ==> order >= 0 && LeastOrder(need, order)
    ensures Pow2(k) >= need <==> order >= 0 && k >= order
  {
    Pow2Monotone(k, MAX_ORDER);
    if order >= 0 && k >= order { Pow2Monotone(order, k); }
    if order >= 0 && k < order { Pow2Monotone(k, order - 1); }
  }

  lemma NothingBelow(m: Memory, heads: seq<Ptr>, ls: seq<seq<nat>>, t: Tiling, total: nat, order: int, i: int)
    requires Lists(m, heads, ls, t, {}) && Placed(t, total) && MIN_ORDER <= order <= i <= MAX_ORDER + 1
    requires forall j :: order - MIN_ORDER <= j < i - MIN_ORDER ==> ls[j] == []
    ensures forall o :: o in t && t[o].Free? && t[o].order >= order ==> i <= t[o].order <= MAX_ORDER
  {
    forall o | o in t && t[o].Free? && t[o].order >= order ensures i <= t[o].order <= MAX_ORDER {
      assert PlacedAt(t, total, o);
      IsListed(m, heads, ls, t, o);
    }
  }

  lemma IsListed(m: Memory, heads: seq<Ptr>, ls: seq<seq<nat>>, t: Tiling, o: nat)
    requires Lists(m, heads, ls, t, {}) && o in t && t[o].Free? && MIN_ORDER <= t[o].order <= MAX_ORDER
    ensures o in ls[t[o].order - MIN_ORDER]
  {
    var k := t[o].order - MIN_ORDER;
    assert ListOk(m, heads[k], ls[k], t, k, {});
  }

  lemma UsersAfterMalloc(t: Tiling, t': Tiling, b: nat, order: nat, kernel: bool)
    requires b in t && t[b].Free? && LiveBlocks(t') == LiveBlocks(t)[b := Live(order, kernel)]
    ensures UserBlocks(t') == UserBlocks(t) + (if kernel then {} else {b}) && b !in UserBlocks(t)
  {
    assert forall o: nat :: o in UserBlocks(t') <==> o in LiveBlocks(t') && !LiveBlocks(t')[o].kernel;
  }

  lemma UsersAfterFree(t: Tiling, t': Tiling, b: nat)
    requires b in t && t[b].Live? && LiveBlocks(t') == LiveBlocks(t) - {b}
    ensures UserBlocks(t') == UserBlocks(t) - {b} && (b in UserBlocks(t) <==> !t[b].kernel)
  {
    assert forall o: nat :: o in UserBlocks(t') <==> o in LiveBlocks(t') && !LiveBlocks(t')[o].kernel;
  }

  /** The header read through GetBuddy tells whether the buddy can be absorbed. */
  lemma BuddyHeader(m: Memory, t: Tiling, total: nat, o: nat)
    requires Headers(m, t) && Tiles(t, total) && o in t
    ensures var k := t[o].order;
            match GetBuddy(o, k, total)
            case Null => !CanMerge(t, total, o)
            case Addr(b) =>
              && HeaderAt(m, t, b)
              && (k < MAX_ORDER ==> (CanMerge(t, total, o) <==> m[b].isFree && m[b].order == k))
  {
    assert PlacedAt(t, total, o);
    XorIsBuddy(o, t[o].order);
    if GetBuddy(o, t[o].order, total).Addr? {
      BuddyIsBlock(t, total, o);
      assert HeaderAt(m, t, BuddyOf(o, t[o].order));
    }
  }

  lemma UserWriteHeaders(m: Memory, bytes: Memory, t: Tiling, total: nat, block: nat)
    requires Headers(m, t) && Apart(t) && block in t && t[block].Live?
    requires forall a :: a in bytes ==> Holds(t, block, a)
    requires block in bytes && block in m ==> bytes[block].(next := Null) == m[block].(next := Null)
    ensures Headers(m + bytes, t)
    ensures forall o :: o in t && o != block && o in m ==> (m + bytes)[o] == m[o]
  {
    forall o | o in t ensures HeaderAt(m + bytes, t, o) && (o != block ==> o !in bytes) {
      assert HeaderAt(m, t, o);
      assert block < o ==> Before(t, block, o);
    }
  }

  // ---------------------------------------------------------------- counting bytes

  function ClassOf(b: Block): Class {
    if b.Free? then FreeBytes else if b.kernel then KernelBytes else UserBytes
  }

  ghost predicate InClass(t: Tiling, a: nat, c: Class) {
    exists o: nat :: Holds(t, o, a) && ClassOf(t[o]) == c
  }

  /** The addresses below limit that lie in blocks of the given class. */
  ghost function BytesIn(t: Tiling, limit: nat, c: Class): set<nat> {
    set a: nat | a < limit && InClass(t, a, c)
  }

  lemma FirstBlock(t: Tiling, total: nat)
    requires Tiles(t, total)
    ensures total > 0 ==> 0 in t
  {
    if total > 0 {
      assert CoveredAt(t, 0);
      var o: nat :| Holds(t, o, 0);
    }
  }

  /** Stepping over a block leads to the next block or to the end of the heap. */
  lemma NextBlock(t: Tiling, total: nat, o: nat)
    requires Tiles(t, total) && o in t
    ensures End(t, o) <= total && (End(t, o) < total ==> End(t, o) in t)
    ensures forall a, w {:trigger Holds(t, w, a)} :: o <= a < End(t, o) && Holds(t, w, a) ==> w == o
  {
    assert PlacedAt(t, total, o);
    if End(t, o) < total {
      assert CoveredAt(t, End(t, o));
      var w: nat :| Holds(t, w, End(t, o));
      assert w < o ==> Before(t, w, o);
      assert o < w ==> Before(t, o, w);
    }
    forall a, w: nat | o <= a < End(t, o) && Holds(t, w, a) ensures w == o {
      assert w < o ==> Before(t, w, o);
      assert o < w ==> Before(t, o, w);
    }
  }

  lemma AddBytes(t: Tiling, o: nat, c: Class)
    requires o in t && forall a, w {:trigger Holds(t, w, a)} :: o <= a < End(t, o) && Holds(t, w, a) ==> w == o
    ensures |BytesIn(t, End(t, o), c)| == |BytesIn(t, o, c)| + (if ClassOf(t[o]) == c then Pow2(t[o].order) else 0)
  {
    forall a: nat | o <= a < End(t, o) ensures InClass(t, a, c) <==> ClassOf(t[o]) == c {
      assert Holds(t, o, a);
    }
    if ClassOf(t[o]) == c {
      assert BytesIn(t, End(t, o), c) == BytesIn(t, o, c) + Interval(o, End(t, o));
      IntervalSize(o, End(t, o));
    } else {
      assert BytesIn(t, End(t, o), c) == BytesIn(t, o, c);
    }
  }

  // ---------------------------------------------------------------- the abstract allocator

  function PayloadOf(b: Block): Payload
    requires b.Live?
  {
    Payload(if Pow2(b.order) < HEADER then 0 else Pow2(b.order) - HEADER, b.kernel)
  }

  function Payloads(t: Tiling): map<nat, Payload> {
    map o | o in LiveBlocks(t) :: PayloadOf(t[o])
  }

  /** The live payloads of a tiled heap lie inside it and are pairwise disjoint. */
  lemma PayloadsSound(t: Tiling, total: nat)
    requires Tiles(t, total)
    ensures Sound(Payloads(t), HEADER, total)
  {
    var live := Payloads(t);
    forall o | o in live ensures o + HEADER + live[o].capacity <= total {
      PayloadInBlock(t, total, o);
    }
    forall o, w | o in live && w in live && o < w ensures o + HEADER + live[o].capacity <= w {
      PayloadInBlock(t, total, o);
      assert Before(t, o, w);
    }
  }

  lemma PayloadInBlock(t: Tiling, total: nat, o: nat)
    requires Placed(t, total) && o in t && t[o].Live?
    ensures PayloadOf(t[o]).capacity + HEADER == Pow2(t[o].order) && End(t, o) <= total
  {
    assert PlacedAt(t, total, o);
    Pow2Monotone(MIN_ORDER, t[o].order);
    assert Pow2(MIN_ORDER) == 16;
  }

  /** What malloc adds to the payloads: one, in a block of the least order that suffices. */
  lemma MallocAdds(t: Tiling, t': Tiling, total: nat, need: nat, kernel: bool, a: nat) returns (o: nat, order: nat)
    requires Tiles(t, total) && NoFreePairs(t) && Allocated(t, t', need, kernel, a)
    ensures a == o + HEADER && LeastOrder(need, order) && Pow2(order) >= HEADER
    ensures Payloads(t') == Payloads(t)[o := Payload(Pow2(order) - HEADER, kernel)] && o !in Payloads(t)
  {
    o, order :| AllocatedAs(t, t', need, kernel, a, o, order);
    MallocKeeps(t, total, o, order, kernel);
    assert LiveBlocks(t')[o] == Live(order, kernel);
    LiveAgree(t, t', o, Live(order, kernel));
    PayloadInBlock(t', total, o);
  }

  /** malloc is a step of the abstract allocator unless adding the header wraps; the block is the smallest possible. */
  lemma MallocRefines(t: Tiling, t': Tiling, total: nat, size: nat, kernel: bool, a: nat)
    requires Tiles(t, total) && NoFreePairs(t) && 0 < size < U64 && Allocated(t, t', Need(size), kernel, a)
    ensures MallocStep(Payloads(t), Payloads(t'), HEADER, size, kernel, Addr(a)) <==> size + HEADER < U64
    ensures a >= HEADER && a - HEADER in Payloads(t')
    ensures size + HEADER < U64 ==>
              var block := Payloads(t')[a - HEADER].capacity + HEADER; block == 16 || block < 2 * (size + HEADER)
  {
    var o, order := MallocAdds(t, t', total, Need(size), kernel, a);
    LeastOrderBounds(Need(size), order);
    MallocStepIff(Payloads(t), o, Pow2(order) - HEADER, kernel, size);
    assert Need(size) == if size + HEADER < U64 then size + HEADER else size + HEADER - U64;
  }

  /** A new payload is what malloc promises just when it is large enough. */
  lemma MallocStepIff(live: map<nat, Payload>, o: nat, capacity: nat, kernel: bool, size: nat)
    requires o !in live
    ensures var live' := live[o := Payload(capacity, kernel)];
            MallocStep(live, live', HEADER, size, kernel, Addr(o + HEADER)) <==> capacity >= size
  {
  }

  /** The largest possible request succeeds, and gets a payload of 8 bytes. */
  lemma HugeRequestSucceeds(kernel: bool)
    ensures var t := map[0 := Free(MIN_ORDER)];
            var t' := map[0 := Live(MIN_ORDER, kernel)];
            && Tiles(t, 16) && NoFreePairs(t) && Allocated(t, t', Need(U64 - 1), kernel, HEADER)
            && Payloads(t')[0].capacity == 8
            && !MallocStep(Payloads(t), Payloads(t'), HEADER, U64 - 1, kernel, Addr(HEADER))
  {
    var t := map[0 := Free(MIN_ORDER)];
    var t' := map[0 := Live(MIN_ORDER, kernel)];
    assert Pow2(MIN_ORDER) == 16;
    forall x: nat | x < 16 ensures CoveredAt(t, x) { assert Holds(t, 0, x); }
    assert Need(U64 - 1) == HEADER - 1;
    assert Tiles(t, 16);
    assert AllocatedAs(t, t', Need(U64 - 1), kernel, HEADER, 0, MIN_ORDER);
    MallocRefines(t, t', 16, U64 - 1, kernel, HEADER);
  }

  /** A block of the least sufficient order is large enough, and 16 bytes or less than twice what is needed. */
  lemma LeastOrderBounds(need: nat, order: nat)
    requires LeastOrder(need, order)
    ensures need <= Pow2(order) && Pow2(order) >= 16 && (Pow2(order) == 16 || Pow2(order) < 2 * need)
  {
    assert Pow2(MIN_ORDER) == 16;
    Pow2Monotone(MIN_ORDER, order);
    assert order > MIN_ORDER ==> Pow2(order) == 2 * Pow2(order - 1);
  }

  lemma LiveAgree(t: Tiling, t': Tiling, o: nat, b: Block)
    requires b.Live? && LiveBlocks(t') == LiveBlocks(t)[o := b]
    ensures Payloads(t') == Payloads(t)[o := PayloadOf(b)]
  {
    assert forall x :: x in LiveBlocks(t') ==> LiveBlocks(t')[x] == t'[x];
    assert forall x :: x in LiveBlocks(t) ==> LiveBlocks(t)[x] == t[x];
  }

  /** free is a step of the abstract allocator. */
  lemma FreeRefines(t: Tiling, total: nat, a: nat)
    requires Tiles(t, total) && NoFreePairs(t) && a >= HEADER && a - HEADER in t && t[a - HEADER].Live?
    ensures FreeStep(Payloads(t), Payloads(FreeTiling(t, total, a - HEADER)), HEADER, Addr(a))
  {
    var o := a - HEADER;
    var t' := FreeTiling(t, total, o);
    FreeKeeps(t, total, o);
    assert forall x :: x in LiveBlocks(t') ==> LiveBlocks(t')[x] == t'[x];
    assert forall x :: x in LiveBlocks(t) ==> LiveBlocks(t)[x] == t[x];
  }
}
