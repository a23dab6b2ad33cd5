/**
 What either memory manager promises its callers: a set of live payloads that never overlap.
 A payload is known by the address of the header in front of it; the two managers differ in the header's size.
 */
module Allocator {

  /** A C pointer into the heap, as an offset from the heap's base. */
  datatype Ptr = Null | Addr(off: nat)

  /** The payload behind a header: its usable length and who asked for it. */
  datatype Payload = Payload(capacity: nat, kernel: bool)

  datatype MemStatus = MemStatus(total: nat, free: nat, used: nat, usedKernel: nat, allocCount: nat)

  const U64: nat := 0x1_0000_0000_0000_0000

  /** Live payloads lie inside the heap, and no two of them, nor their headers, overlap. */
  ghost predicate Sound(live: map<nat, Payload>, header: nat, total: nat) {
    && (forall h :: h in live ==> h + header + live[h].capacity <= total)
    && (forall h, g :: h in live && g in live && h < g ==> h + header + live[h].capacity <= g)
  }

  /** malloc returns null and changes nothing, or returns a new payload of at least the requested size. */
  ghost predicate MallocStep(live: map<nat, Payload>, live': map<nat, Payload>, header: nat, size: nat, kernel: bool,
                             p: Ptr) {
    match p
    case Null => live' == live
    case Addr(a) => a >= header && a - header !in live && a - header in live'
                    && live'[a - header].kernel == kernel && live'[a - header].capacity >= size
                    && live' == live[a - header := live'[a - header]]
  }

  /** free removes exactly the payload it is given; free(NULL) does nothing. */
  ghost predicate FreeStep(live: map<nat, Payload>, live': map<nat, Payload>, header: nat, p: Ptr) {
    match p
    case Null => live' == live
    case Addr(a) => a >= header && a - header in live && live' == live - {a - header}
  }

  /** The three kinds of bytes mm_status tells apart. */
  datatype Class = FreeBytes | UserBytes | KernelBytes

  ghost function Interval(lo: nat, hi: nat): set<nat> {
    set a: nat | a < hi && AtLeast(a, lo)
  }

  predicate AtLeast(a: nat, lo: nat) {
    lo <= a
  }

  lemma {:induction false} IntervalSize(lo: nat, hi: nat)
    requires lo <= hi
    ensures |Interval(lo, hi)| == hi - lo
    decreases hi
  {
    if lo < hi {
      IntervalSize(lo, hi - 1);
      assert Interval(lo, hi) == Interval(lo, hi - 1) + {hi - 1};
    }
  }
}
