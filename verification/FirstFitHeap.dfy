/**
 memoryManagerFF.c as a class: one address-ordered linked list of block headers kept in the heap's memory.
 */
module FirstFitHeap {
  import opened Allocator
  import opened FirstFitTheorems

  datatype MemBlock = MemBlock(size: nat, isFree: bool, isKernel: bool, next: Ptr)
  type Memory = map<nat, MemBlock>

  /** The request rounded up to a multiple of eight, in 64-bit arithmetic. */
  function Need(size: nat): nat {
    (size + 7) % U64 / 8 * 8
  }

  /** The header stored at a says what the blocks say, and links to the next one. */
  predicate HeaderAt(m: Memory, t: Blocks, total: nat, a: nat) {
    && a in m && a in t && m[a].size == t[a].size && m[a].isFree == t[a].use.Unused?
    && (t[a].use.Used? ==> m[a].isKernel == t[a].use.kernel)
    && m[a].next == if End(t, a) < total then Addr(End(t, a)) else Null
  }

  ghost predicate Headers(m: Memory, t: Blocks, total: nat) {
    forall a {:trigger HeaderAt(m, t, total, a)} :: a in t ==> HeaderAt(m, t, total, a)
  }

  predicate Inside(t: Blocks, h: nat, a: nat) {
    h in t && h <= a < End(t, h)
  }

  /** Nothing inside the given blocks has been written between the two memories. */
  ghost predicate Untouched(m: Memory, m': Memory, t: Blocks, keep: set<nat>) {
    forall h, a {:trigger Inside(t, h, a)} :: h in keep && Inside(t, h, a) && a in m ==> a in m' && m'[a] == m[a]
  }

  class Heap {
    var heapStart: Ptr
    var mem: Memory
    ghost var total: nat
    ghost var blocks: Blocks

    ghost predicate Valid()
      reads this
    {
      if heapStart == Null then blocks == map[]
      else heapStart == Addr(0) && GapFree(blocks, total) && NoFreePairs(blocks) && Headers(mem, blocks, total)
    }

    constructor (garbage: Memory)
      ensures Valid() && heapStart == Null
    {
      heapStart, mem, total, blocks := Null, garbage, 0, map[];
    }

    method MmInit(size: nat)
      requires Valid()
      modifies this
      ensures Valid()
      ensures size <= HEADER ==> blocks == old(blocks) && total == old(total)
      ensures size > HEADER ==> total == size && blocks == InitBlocks(size)
    {
      if size <= HEADER {
        return;
      }
      heapStart := Addr(0);
      mem := mem[0 := MemBlock(size - HEADER, true, false, Null)];
      total, blocks := size, InitBlocks(size);
    }

    method MmMallocImpl(size: nat, kernel: bool) returns (p: Ptr)
      requires Valid() && size < U64
      modifies this`mem, this`blocks
      ensures Valid()
      ensures p.Null? <==> size == 0 || !exists a :: Fits(old(blocks), a, Need(size))
      ensures p.Null? ==> blocks == old(blocks) && mem == old(mem)
      ensures p.Addr? ==> p.off >= HEADER && FirstFit(old(blocks), p.off - HEADER, Need(size))
                          && blocks == Take(old(blocks), p.off - HEADER, Need(size), kernel)
      ensures Untouched(old(mem), mem, old(blocks), UsedBlocks(old(blocks)).Keys)
    {
      if size == 0 || heapStart == Null {
        return Null;
      }
      var need := Need(size);
      var block := heapStart;
      while block != Null
        invariant mem == old(mem) && blocks == old(blocks)
        invariant block.Addr? ==> block.off in blocks
        invariant forall a :: Fits(blocks, a, need) ==> block.Addr? && block.off <= a
        decreases if block.Addr? then total - block.off else -1
      {
        var b := block.off;
        Step(blocks, total, b);
        assert HeaderAt(mem, blocks, total, b);
        if mem[b].isFree && mem[b].size >= need {
          assert Fits(blocks, b, need);
          HandOut(b, need, kernel);
          return Addr(b + HEADER);
        }
        block := mem[b].next;
      }
      return Null;
    }

    /** Splits the block if enough is left, and marks it as used. */
    method HandOut(b: nat, need: nat, kernel: bool)
      requires heapStart != Null && Valid() && Fits(blocks, b, need)
      modifies this`mem, this`blocks
      ensures Valid() && blocks == Take(old(blocks), b, need, kernel)
      ensures Untouched(old(mem), mem, old(blocks), UsedBlocks(old(blocks)).Keys)
    {
      ghost var m, t := mem, blocks;
      ghost var keep := UsedBlocks(t).Keys;
      TakeKeeps(t, total, b, need, kernel);
      Step(t, total, b);
      assert HeaderAt(m, t, total, b);
      if mem[b].size >= need + MIN_SPLIT {
        var split := b + HEADER + need;
        mem := mem[split := MemBlock(mem[b].size - need - HEADER, true, false, mem[b].next)];
        WriteNode(m, m, mem, t, keep, b, split);
        mem := mem[b := mem[b].(size := need, next := Addr(split))];
      }
      mem := mem[b := mem[b].(isFree := false, isKernel := kernel)];
      blocks := Take(t, b, need, kernel);
      WriteNode(m, if m[b].size >= need + MIN_SPLIT then m[b + HEADER + need := mem[b + HEADER + need]] else m, mem, t,
                keep, b, b);
      TakeHeaders(m, t, total, b, need, kernel, mem);
    }

    method MmFree(p: Ptr)
      requires Valid()
      requires p.Addr? ==> p.off >= HEADER && p.off - HEADER in blocks && blocks[p.off - HEADER].use.Used?
      modifies this`mem, this`blocks
      ensures Valid()
      ensures p.Null? ==> blocks == old(blocks) && mem == old(mem)
      ensures p.Addr? ==> old(GapFree(blocks, total)) && blocks == Release(old(blocks), total, p.off - HEADER)
      ensures p.Addr? ==> Untouched(old(mem), mem, old(blocks), UsedBlocks(old(blocks)).Keys - {p.off - HEADER})
    {
      if p == Null {
        return;
      }
      var block := p.off - HEADER;
      ghost var t, m0 := blocks, mem;
      ghost var keep := UsedBlocks(t).Keys - {block};
      ReleaseKeeps(t, total, block);
      MarkGapFree(t, total, block);
      assert HeaderAt(mem, t, total, block);
      mem := mem[block := mem[block].(isFree := true)];
      blocks := MarkFree(t, block);
      WriteNode(m0, m0, mem, t, keep, block, block);
      RewriteHeaders(m0, t, total, block, mem, blocks);
      MarkPairs(t, block);
      ForwardMerge(block, t, keep, m0);
      BackwardMerge(block, t, keep, m0);
    }

    /** Absorbs the blocks after this one as long as they are free. */
    method ForwardMerge(block: nat, ghost t: Blocks, ghost keep: set<nat>, ghost m0: Memory)
      requires heapStart == Addr(0) && GapFree(blocks, total) && Headers(mem, blocks, total)
      requires IsFree(blocks, block) && NoFreePairsBut(blocks, block)
      requires Apart(t) && block in t && block !in keep && Untouched(m0, mem, t, keep)
      modifies this`mem, this`blocks
      ensures GapFree(blocks, total) && Headers(mem, blocks, total) && blocks == AbsorbNext(old(blocks), block)
      ensures IsFree(blocks, block) && NoFreePairsBut(blocks, block) && !IsFree(blocks, End(blocks, block))
      ensures Untouched(m0, mem, t, keep)
    {
      var merging := true;
      while merging
        invariant GapFree(blocks, total) && Headers(mem, blocks, total) && heapStart == Addr(0)
        invariant IsFree(blocks, block) && NoFreePairsBut(blocks, block)
        invariant AbsorbNext(blocks, block) == AbsorbNext(old(blocks), block)
        invariant !merging ==> !IsFree(blocks, End(blocks, block))
        invariant Untouched(m0, mem, t, keep)
        decreases total - End(blocks, block), merging
      {
        Step(blocks, total, block);
        assert HeaderAt(mem, blocks, total, block);
        var next := mem[block].next;
        if next.Addr? { assert HeaderAt(mem, blocks, total, next.off); }
        if next == Null || !mem[next.off].isFree {
          merging := false;
        } else {
          ghost var m, b := mem, blocks;
          AbsorbNextKeeps(b, total, block);
          Step(b, total, next.off);
          mem := mem[block := mem[block].(size := mem[block].size + HEADER + mem[next.off].size,
                                          next := mem[next.off].next)];
          blocks := Absorb(b, block);
          WriteNode(m0, m, mem, t, keep, block, block);
          RewriteHeaders(m, b, total, block, mem, blocks);
        }
      }
    }

    /** Looks for the block before this one and, if it is free, lets it absorb this one. */
    method BackwardMerge(block: nat, ghost t: Blocks, ghost keep: set<nat>, ghost m0: Memory)
      requires heapStart == Addr(0) && GapFree(blocks, total) && Headers(mem, blocks, total)
      requires IsFree(blocks, block) && NoFreePairsBut(blocks, block) && !IsFree(blocks, End(blocks, block))
      requires Apart(t) && Untouched(m0, mem, t, keep) && forall a :: IsFree(blocks, a) ==> a in t && a !in keep
      modifies this`mem, this`blocks
      ensures Valid() && HasPrevious(old(blocks), block) && blocks == AbsorbIntoPrevious(old(blocks), block)
      ensures Untouched(m0, mem, t, keep)
    {
      var prev := heapStart;
      ghost var b := blocks;
      AbsorbIntoPreviousKeeps(b, total, block);
      assert HeaderAt(mem, b, total, 0);
      while prev != Null && mem[prev.off].next != Addr(block)
        invariant mem == old(mem) && blocks == b
        invariant prev.Addr? ==> HeaderAt(mem, blocks, total, prev.off)
        invariant forall p :: Precedes(blocks, p, block) ==> prev.Addr? && prev.off <= p
        decreases if prev.Addr? then total - prev.off else -1
      {
        Step(blocks, total, prev.off);
        prev := mem[prev.off].next;
        if prev.Addr? { assert HeaderAt(mem, blocks, total, prev.off); }
      }
      if prev.Addr? {
        Step(blocks, total, prev.off);
        assert Precedes(b, prev.off, block);
        PreviousIsUnique(b, total, prev.off, Previous(b, block), block);
      }
      if prev != Null && mem[prev.off].isFree {
        ghost var m := mem;
        assert HeaderAt(mem, blocks, total, block);
        mem := mem[prev.off := mem[prev.off].(size := mem[prev.off].size + HEADER + mem[block].size,
                                              next := mem[block].next)];
        blocks := Absorb(b, prev.off);
        WriteNode(m0, m, mem, t, keep, prev.off, prev.off);
        RewriteHeaders(m, b, total, prev.off, mem, blocks);
      }
    }

    /** The owner of a used block writes its payload: any bytes after the header. */
    method UserWrite(block: nat, bytes: Memory)
      requires Valid() && block in blocks && blocks[block].use.Used?
      requires forall a :: a in bytes ==> a != block && Inside(blocks, block, a)
      modifies this`mem
      ensures Valid() && mem == old(mem) + bytes
    {
      forall a | a in blocks ensures HeaderAt(mem + bytes, blocks, total, a) {
        assert HeaderAt(mem, blocks, total, a);
        assert block < a ==> Before(blocks, block, a);
      }
      mem := mem + bytes;
    }

    method MmStatus(status: MemStatus) returns (s: MemStatus)
      requires Valid()
      ensures heapStart == Null ==> s == status
      ensures heapStart != Null ==> s == Summary(blocks, total)
      ensures heapStart != Null ==> s.total == total == s.free + s.used + s.usedKernel
    {
      if heapStart == Null {
        return status;
      }
      s := MemStatus(0, 0, 0, 0, 0);
      var block := heapStart;
      while block != Null
        invariant s == Summary(blocks, s.total) && s.total == s.free + s.used + s.usedKernel
        invariant match block case Addr(b) => b in blocks && s.total == b case Null => s.total == total
        decreases if block.Addr? then total - block.off else -1
      {
        var b := block.off;
        Step(blocks, total, b);
        assert HeaderAt(mem, blocks, total, b);
        AddBlock(blocks, total, b);
        var size := mem[b].size + HEADER;
        s := s.(total := s.total + size);
        if mem[b].isFree {
          s := s.(free := s.free + size);
        } else if mem[b].isKernel {
          s := s.(usedKernel := s.usedKernel + size);
        } else {
          s := s.(used := s.used + size, allocCount := s.allocCount + 1);
        }
        block := mem[b].next;
      }
    }
  }

  lemma Step(t: Blocks, total: nat, b: nat)
    requires GapFree(t, total) && b in t
    ensures b < total && End(t, b) <= total && (End(t, b) < total ==> End(t, b) in t)
    ensures forall a :: a in t && a > b ==> End(t, b) < total && End(t, b) <= a
  {
    assert Followed(t, total, b);
    forall a | a in t && a > b ensures End(t, b) < total && End(t, b) <= a {
      assert Before(t, b, a) && Followed(t, total, a);
    }
  }

  lemma TakeHeaders(m: Memory, t: Blocks, total: nat, b: nat, need: nat, kernel: bool, m': Memory)
    requires Apart(t) && Headers(m, t, total) && Fits(t, b, need) && HeaderAt(m', Take(t, b, need, kernel), total, b)
    requires t[b].size >= need + MIN_SPLIT ==> HeaderAt(m', Take(t, b, need, kernel), total, b + HEADER + need)
    requires forall a :: a in m && a != b && !(t[b].size >= need + MIN_SPLIT && a == b + HEADER + need) ==>
             a in m' && m'[a] == m[a]
    ensures Headers(m', Take(t, b, need, kernel), total)
  {
    var u := Take(t, b, need, kernel);
    forall a | a in u ensures HeaderAt(m', u, total, a) {
      assert a in t ==> HeaderAt(m, t, total, a);
    }
  }

  /** One header rewritten, and possibly a block after it gone. */
  lemma RewriteHeaders(m: Memory, t: Blocks, total: nat, b: nat, m': Memory, u: Blocks)
    requires Headers(m, t, total) && HeaderAt(m', u, total, b)
    requires forall a :: a in u && a != b ==> a in t && u[a] == t[a]
    requires forall a :: a in m && a != b ==> a in m' && m'[a] == m[a]
    ensures Headers(m', u, total)
  {
    forall a | a in u ensures HeaderAt(m', u, total, a) {
      assert a in t ==> HeaderAt(m, t, total, a);
    }
  }

  /** Writing inside a block that is not kept touches no kept block. */
  lemma WriteNode(m0: Memory, m: Memory, m': Memory, t: Blocks, keep: set<nat>, b: nat, w: nat)
    requires Apart(t) && Untouched(m0, m, t, keep) && b !in keep && Inside(t, b, w)
    requires forall a :: a in m && a != w ==> a in m' && m'[a] == m[a]
    ensures Untouched(m0, m', t, keep)
  {
    forall h, a | h in keep && Inside(t, h, a) && a in m0 ensures a in m' && m'[a] == m0[a] {
      assert h < b ==> Before(t, h, b);
      assert b < h ==> Before(t, b, h);
    }
  }

  lemma MarkPairs(t: Blocks, a: nat)
    requires NoFreePairs(t) && a in t
    ensures NoFreePairsBut(MarkFree(t, a), a) && IsFree(MarkFree(t, a), a)
  {
    var m := MarkFree(t, a);
    forall b | FreePair(m, b) ensures b == a || End(m, b) == a {
      assert b != a && End(m, b) != a ==> FreePair(t, b);
    }
  }

  // ---------------------------------------------------------------- counting

  function ClassOf(b: Block): Class {
    match b.use
    case Unused => FreeBytes
    case Used(kernel) => if kernel then KernelBytes else UserBytes
  }

  ghost predicate InClass(t: Blocks, a: nat, c: Class) {
    exists b: nat :: Inside(t, b, a) && ClassOf(t[b]) == c
  }

  /** The addresses below limit that lie in blocks of the given class. */
  ghost function BytesIn(t: Blocks, limit: nat, c: Class): set<nat> {
    set a: nat | a < limit && InClass(t, a, c)
  }

  ghost function UserBlocks(t: Blocks, limit: nat): set<nat> {
    set b | b in t && b < limit && ClassOf(t[b]) == UserBytes
  }

  lemma AddBytes(t: Blocks, total: nat, b: nat, c: Class)
    requires GapFree(t, total) && b in t
    ensures |BytesIn(t, End(t, b), c)| == |BytesIn(t, b, c)| + (if ClassOf(t[b]) == c then HEADER + t[b].size else 0)
  {
    forall a: nat | b <= a < End(t, b) ensures InClass(t, a, c) <==> ClassOf(t[b]) == c {
      assert Inside(t, b, a);
      forall w: nat | Inside(t, w, a) ensures w == b {
        assert w < b ==> Before(t, w, b);
        assert b < w ==> Before(t, b, w);
      }
    }
    if ClassOf(t[b]) == c {
      assert BytesIn(t, End(t, b), c) == BytesIn(t, b, c) + Interval(b, End(t, b));
      IntervalSize(b, End(t, b));
    } else {
      assert BytesIn(t, End(t, b), c) == BytesIn(t, b, c);
    }
  }

  lemma AddUser(t: Blocks, total: nat, b: nat)
    requires GapFree(t, total) && b in t
    ensures UserBlocks(t, End(t, b)) == UserBlocks(t, b) + (if ClassOf(t[b]) == UserBytes then {b} else {})
  {
    forall w | w in t && b < w ensures End(t, b) <= w { assert Before(t, b, w); }
  }

  /** What mm_status should report about the blocks below limit. */
  ghost function Summary(t: Blocks, limit: nat): MemStatus {
    MemStatus(limit, |BytesIn(t, limit, FreeBytes)|, |BytesIn(t, limit, UserBytes)|, |BytesIn(t, limit, KernelBytes)|,
              |UserBlocks(t, limit)|)
  }

  lemma AddBlock(t: Blocks, total: nat, b: nat)
    requires GapFree(t, total) && b in t
    ensures var s, size := Summary(t, b), HEADER + t[b].size;
            Summary(t, End(t, b)) == match ClassOf(t[b])
              case FreeBytes => s.(total := b + size, free := s.free + size)
              case KernelBytes => s.(total := b + size, usedKernel := s.usedKernel + size)
              case UserBytes => s.(total := b + size, used := s.used + size, allocCount := s.allocCount + 1)
  {
    AddBytes(t, total, b, FreeBytes);
    AddBytes(t, total, b, UserBytes);
    AddBytes(t, total, b, KernelBytes);
    AddUser(t, total, b);
  }

  // ---------------------------------------------------------------- the abstract allocator

  /** malloc is a step of the abstract allocator unless rounding the size up wraps. */
  lemma MallocRefines(t: Blocks, total: nat, a: nat, size: nat, kernel: bool)
    requires GapFree(t, total) && NoFreePairs(t) && 0 < size < U64 && Fits(t, a, Need(size))
    ensures var t' := Take(t, a, Need(size), kernel);
            MallocStep(UsedBlocks(t), UsedBlocks(t'), HEADER, size, kernel, Addr(a + HEADER)) <==> size + 7 < U64
  {
    TakeKeeps(t, total, a, Need(size), kernel);
  }

  /** The largest possible request gets the first byte behind the first header, and, if the heap can be split,
      no room. */
  lemma HugeRequestSucceeds(total: nat, kernel: bool)
    requires total > HEADER
    ensures var t := InitBlocks(total);
            && GapFree(t, total) && NoFreePairs(t) && Fits(t, 0, Need(U64 - 1))
            && !MallocStep(UsedBlocks(t), UsedBlocks(Take(t, 0, Need(U64 - 1), kernel)), HEADER, U64 - 1, kernel,
                           Addr(HEADER))
            && (total >= HEADER + MIN_SPLIT ==> Take(t, 0, Need(U64 - 1), kernel)[0].size == 0)
  {
    var t := InitBlocks(total);
    assert Need(U64 - 1) == 0;
    assert Followed(t, total, 0) && HasPrevious(t, 0);
    MallocRefines(t, total, 0, U64 - 1, kernel);
  }

  /** free is a step of the abstract allocator. */
  lemma FreeRefines(t: Blocks, total: nat, a: nat)
    requires GapFree(t, total) && NoFreePairs(t) && a in t && t[a].use.Used?
    ensures FreeStep(UsedBlocks(t), UsedBlocks(Release(t, total, a)), HEADER, Addr(a + HEADER))
  {
    ReleaseKeeps(t, total, a);
  }
}
