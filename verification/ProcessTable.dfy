/**
 process.c's table of PCBs, in place: an array of slots, a slot being what a PCB pointer is in the source. Its abstract
 value is the View that the rest of the model speaks of, in which PCBs go by their pids.
 */
module ProcessTable {
  import opened Processes

  predicate Live(b: Pcb) { b.state != State.Free }

  /** Slot i holds the live process p. */
  predicate Holds(t: seq<Pcb>, i: nat, p: nat) {
    i < |t| && Live(t[i]) && t[i].pid == p
  }

  /** The live PCBs have pids of their own, none of them 0. */
  ghost predicate UniquePids(t: seq<Pcb>) {
    && (forall i: nat {:trigger Holds(t, i, 0)} :: !Holds(t, i, 0))
    && forall i: nat, j: nat, p {:trigger Holds(t, i, p), Holds(t, j, p)} :: Holds(t, i, p) && Holds(t, j, p) ==> i == j
  }

  lemma SamePid(t: seq<Pcb>, i: nat, j: nat)
    requires UniquePids(t) && i < |t| && j < |t| && Live(t[i]) && Live(t[j]) && t[i].pid == t[j].pid
    ensures i == j && t[i].pid > 0
  {
    assert Holds(t, i, t[i].pid) && Holds(t, j, t[i].pid);
    assert !Holds(t, i, 0);
  }

  ghost predicate HasPid(t: seq<Pcb>, p: nat) {
    exists i: nat {:trigger Holds(t, i, p)} :: Holds(t, i, p)
  }

  ghost function SlotOf(t: seq<Pcb>, p: nat): nat
    requires HasPid(t, p)
    ensures Holds(t, SlotOf(t, p), p)
  {
    var i: nat :| Holds(t, i, p);
    i
  }

  ghost function Pids(t: seq<Pcb>): set<nat> {
    set i | 0 <= i < |t| && Live(t[i]) :: t[i].pid
  }

  lemma PidsIs(t: seq<Pcb>, p: nat)
    ensures p in Pids(t) <==> HasPid(t, p)
  {
    if p in Pids(t) {
      var i :| 0 <= i < |t| && Live(t[i]) && t[i].pid == p;
      assert Holds(t, i, p);
    }
  }

  /** The table as process_get sees it. */
  ghost function ByPid(t: seq<Pcb>): Procs {
    map p | p in Pids(t) :: (PidsIs(t, p); t[SlotOf(t, p)])
  }

  lemma ByPidAt(t: seq<Pcb>, i: nat)
    requires UniquePids(t) && i < |t| && Live(t[i])
    ensures t[i].pid in ByPid(t) && ByPid(t)[t[i].pid] == t[i]
  {
    var p := t[i].pid;
    assert Holds(t, i, p);
    PidsIs(t, p);
    assert Holds(t, SlotOf(t, p), p);
  }

  lemma ByPidIs(t: seq<Pcb>, m: Procs)
    requires UniquePids(t)
    requires forall p {:trigger HasPid(t, p)} :: HasPid(t, p) <==> p in m
    requires forall i: nat {:trigger t[i]} :: i < |t| && Live(t[i]) ==> t[i].pid in m && m[t[i].pid] == t[i]
    ensures ByPid(t) == m
  {
    forall p ensures p in ByPid(t) <==> p in m { PidsIs(t, p); }
    forall p | p in m ensures ByPid(t)[p] == m[p] {
      assert HasPid(t, p);
      var i := SlotOf(t, p);
      ByPidAt(t, i);
    }
  }

  /** A live PCB is overwritten by another of the same pid. */
  lemma ByPidWrite(t: seq<Pcb>, i: nat, b: Pcb)
    requires UniquePids(t) && i < |t| && Live(t[i]) && Live(b) && b.pid == t[i].pid
    ensures UniquePids(t[i := b]) && ByPid(t[i := b]) == ByPid(t)[b.pid := b]
  {
    var t' := t[i := b];
    forall j: nat, p ensures Holds(t', j, p) <==> Holds(t, j, p) { }
    forall p ensures HasPid(t', p) <==> HasPid(t, p) {
      if HasPid(t, p) { assert Holds(t', SlotOf(t, p), p); }
      if HasPid(t', p) { assert Holds(t, SlotOf(t', p), p); }
    }
    forall j: nat, k: nat, p | Holds(t', j, p) && Holds(t', k, p)
      ensures j == k
    {
      assert Holds(t, j, p) && Holds(t, k, p);
    }
    forall j: nat ensures !Holds(t', j, 0) { assert !Holds(t, j, 0); }
    ByPidAt(t, i);
    forall p ensures HasPid(t', p) <==> p in ByPid(t)[b.pid := b] { PidsIs(t, p); }
    forall j: nat | j < |t'| && Live(t'[j])
      ensures t'[j].pid in ByPid(t)[b.pid := b] && ByPid(t)[b.pid := b][t'[j].pid] == t'[j]
    {
      if j != i {
        ByPidAt(t, j);
        if t[j].pid == t[i].pid { SamePid(t, i, j); }
      }
    }
    ByPidIs(t', ByPid(t)[b.pid := b]);
  }

  lemma FreeUnique(t: seq<Pcb>, i: nat, b: Pcb)
    requires UniquePids(t) && i < |t| && !Live(b)
    ensures UniquePids(t[i := b])
  {
    var t' := t[i := b];
    forall j: nat, p ensures Holds(t', j, p) <==> Holds(t, j, p) && j != i { }
    forall j: nat ensures !Holds(t', j, 0) { assert !Holds(t, j, 0); }
    forall j: nat, k: nat, p | Holds(t', j, p) && Holds(t', k, p)
      ensures j == k
    {
      assert Holds(t, j, p) && Holds(t, k, p);
    }
  }

  /** A live PCB gives up its slot. */
  lemma ByPidFree(t: seq<Pcb>, i: nat, b: Pcb)
    requires UniquePids(t) && i < |t| && Live(t[i]) && !Live(b)
    ensures UniquePids(t[i := b]) && ByPid(t[i := b]) == ByPid(t) - {t[i].pid}
  {
    var t' := t[i := b];
    FreeUnique(t, i, b);
    forall j: nat, p ensures Holds(t', j, p) <==> Holds(t, j, p) && j != i { }
    forall p ensures HasPid(t', p) <==> p in ByPid(t) - {t[i].pid} {
      PidsIs(t, p);
      if HasPid(t', p) { assert Holds(t, SlotOf(t', p), p) && (p == t[i].pid ==> Holds(t, i, p)); }
      if HasPid(t, p) && p != t[i].pid { assert Holds(t', SlotOf(t, p), p); }
    }
    forall j: nat | j < |t'| && Live(t'[j]) ensures t'[j].pid in ByPid(t) - {t[i].pid} && ByPid(t)[t'[j].pid] == t'[j] {
      ByPidAt(t, j);
      if t[j].pid == t[i].pid { SamePid(t, i, j); }
    }
    ByPidIs(t', ByPid(t) - {t[i].pid});
  }

  lemma FillUnique(t: seq<Pcb>, i: nat, b: Pcb)
    requires UniquePids(t) && i < |t| && !Live(t[i]) && Live(b) && b.pid > 0 && !HasPid(t, b.pid)
    ensures UniquePids(t[i := b])
  {
    var t' := t[i := b];
    forall j: nat, p ensures Holds(t', j, p) <==> Holds(t, j, p) || (j == i && p == b.pid) { }
    forall j: nat ensures !Holds(t', j, 0) { assert !Holds(t, j, 0); }
    forall j: nat, k: nat, p | Holds(t', j, p) && Holds(t', k, p) ensures j == k {
      assert Holds(t, j, p) ==> HasPid(t, p);
      assert Holds(t, k, p) ==> HasPid(t, p);
    }
  }

  /** A free slot takes a PCB with a new pid. */
  lemma ByPidFill(t: seq<Pcb>, i: nat, b: Pcb)
    requires UniquePids(t) && i < |t| && !Live(t[i]) && Live(b) && b.pid > 0 && b.pid !in ByPid(t)
    ensures UniquePids(t[i := b]) && ByPid(t[i := b]) == ByPid(t)[b.pid := b]
  {
    var t' := t[i := b];
    PidsIs(t, b.pid);
    FillUnique(t, i, b);
    forall j: nat, p ensures Holds(t', j, p) <==> Holds(t, j, p) || (j == i && p == b.pid) { }
    forall p ensures HasPid(t', p) <==> p in ByPid(t)[b.pid := b] {
      PidsIs(t, p);
      if HasPid(t', p) && p != b.pid { assert Holds(t, SlotOf(t', p), p); }
      if HasPid(t, p) { assert Holds(t', SlotOf(t, p), p); }
      if p == b.pid { assert Holds(t', i, p); }
    }
    forall j: nat | j < |t'| && Live(t'[j])
      ensures t'[j].pid in ByPid(t)[b.pid := b] && ByPid(t)[b.pid := b][t'[j].pid] == t'[j]
    {
      if j != i {
        ByPidAt(t, j);
        PidsIs(t, t[j].pid);
      }
    }
    ByPidIs(t', ByPid(t)[b.pid := b]);
  }

  function LiveCount(t: seq<Pcb>): nat {
    if t == [] then 0 else LiveCount(t[..|t| - 1]) + if Live(t[|t| - 1]) then 1 else 0
  }

  lemma PrefixUnique(t: seq<Pcb>)
    requires t != [] && UniquePids(t)
    ensures var f := t[..|t| - 1];
            UniquePids(f) && Pids(t) == Pids(f) + (if Live(t[|t| - 1]) then {t[|t| - 1].pid} else {})
    ensures Live(t[|t| - 1]) ==> t[|t| - 1].pid !in Pids(t[..|t| - 1])
  {
    var n := |t| - 1;
    var f := t[..n];
    forall j: nat, p ensures Holds(f, j, p) <==> Holds(t, j, p) && j != n { }
    forall j: nat ensures !Holds(f, j, 0) { assert !Holds(t, j, 0); }
    forall j: nat, k: nat, p | Holds(f, j, p) && Holds(f, k, p)
      ensures j == k
    {
      assert Holds(t, j, p) && Holds(t, k, p);
    }
    if Live(t[n]) {
      PidsIs(f, t[n].pid);
      forall j: nat ensures !Holds(f, j, t[n].pid) { assert Holds(t, n, t[n].pid); }
    }
    PrefixPids(t);
  }

  lemma PrefixPids(t: seq<Pcb>)
    requires t != []
    ensures Pids(t) == Pids(t[..|t| - 1]) + (if Live(t[|t| - 1]) then {t[|t| - 1].pid} else {})
  {
    var n := |t| - 1;
    var f := t[..n];
    forall p ensures p in Pids(t) <==> p in Pids(f) || (Live(t[n]) && p == t[n].pid) {
      if p in Pids(t) {
        var i :| 0 <= i < |t| && Live(t[i]) && t[i].pid == p;
        assert i < n ==> f[i] == t[i];
      }
      if p in Pids(f) {
        var i :| 0 <= i < |f| && Live(f[i]) && f[i].pid == p;
        assert t[i] == f[i];
      }
    }
  }

  /** As many live slots as pids. */
  lemma {:induction false} CountPids(t: seq<Pcb>)
    requires UniquePids(t)
    ensures |Pids(t)| == LiveCount(t)
  {
    if t != [] {
      PrefixUnique(t);
      CountPids(t[..|t| - 1]);
    } else {
      assert Pids(t) == {};
    }
  }

  lemma {:induction false} LiveCountFull(t: seq<Pcb>)
    ensures LiveCount(t) <= |t| && (LiveCount(t) == |t| <==> forall i :: 0 <= i < |t| ==> Live(t[i]))
  {
    if t != [] {
      var f := t[..|t| - 1];
      LiveCountFull(f);
      assert forall i :: 0 <= i < |f| ==> f[i] == t[i];
    }
  }

  /** The table is full when there are as many processes as slots. */
  lemma FullTable(t: seq<Pcb>)
    requires UniquePids(t)
    ensures |ByPid(t)| <= |t| && (|ByPid(t)| == |t| <==> forall i :: 0 <= i < |t| ==> Live(t[i]))
  {
    CountPids(t);
    LiveCountFull(t);
    assert ByPid(t).Keys == Pids(t);
    assert |ByPid(t).Keys| == |ByPid(t)|;
  }

  /** Every slot is as live as before, under the same pid. */
  ghost predicate SamePids(t: seq<Pcb>, t': seq<Pcb>) {
    |t| == |t'| && forall i {:trigger t'[i]} :: 0 <= i < |t| ==> Live(t'[i]) == Live(t[i]) && t'[i].pid == t[i].pid
  }

  lemma SamePidsUnique(t: seq<Pcb>, t': seq<Pcb>)
    requires UniquePids(t) && SamePids(t, t')
    ensures UniquePids(t') && forall p {:trigger HasPid(t', p)} :: HasPid(t', p) <==> HasPid(t, p)
  {
    forall i: nat, p ensures Holds(t', i, p) <==> Holds(t, i, p) { }
    forall i: nat ensures !Holds(t', i, 0) { assert !Holds(t, i, 0); }
    forall i: nat, j: nat, p | Holds(t', i, p) && Holds(t', j, p)
      ensures i == j
    {
      assert Holds(t, i, p) && Holds(t, j, p);
    }
    forall p ensures HasPid(t', p) <==> HasPid(t, p) {
      if HasPid(t, p) { assert Holds(t', SlotOf(t, p), p); }
      if HasPid(t', p) { assert Holds(t, SlotOf(t', p), p); }
    }
  }

  class Table {
    const slots: array<Pcb>
    var current: Option<nat>
    var force: bool
    var nextPid: nat

    ghost predicate Valid()
      reads this, slots
    {
      && slots.Length == MAX_PROCESSES && UniquePids(slots[..])
      && (current.Some? ==> current.value < slots.Length && Live(slots[current.value]))
    }

    ghost function Procs(): Procs
      reads this, slots
    {
      ByPid(slots[..])
    }

    ghost function Cur(): Option<nat>
      reads this, slots
    {
      if current.Some? && current.value < slots.Length then Some(slots[current.value].pid) else None
    }

    ghost function Value(): View
      reads this, slots
    {
      View(Procs(), Cur(), force)
    }

    /** process_init. */
    constructor ()
      ensures Valid() && fresh(slots) && Value() == View(map[], None, false) && nextPid == 0
    {
      slots := new Pcb[MAX_PROCESSES](_ => Pcb(0, 0, 0, 0, State.Free, 0, 0, 0, 0, 0, 0, {}, {}, None, None, 0));
      current, force, nextPid := None, false, 0;
      new;
      forall i: nat, p ensures !Holds(slots[..], i, p) { }
      assert Pids(slots[..]) == {};
      assert ByPid(slots[..]) == map[];
    }

    /** process_get. */
    method Get(pid: nat) returns (r: Option<nat>)
      requires Valid()
      ensures r.Some? <==> pid in Procs()
      ensures r.Some? ==>
              && r.value < slots.Length && Live(slots[r.value])
              && slots[r.value].pid == pid && Procs()[pid] == slots[r.value]
    {
      ghost var t := slots[..];
      PidsIs(t, pid);
      assert HasPid(t, pid) ==> Holds(t, SlotOf(t, pid), pid);
      if pid == 0 {
        return None;
      }
      for i := 0 to MAX_PROCESSES
        invariant forall j :: 0 <= j < i ==> !(slots[j].pid == pid && Live(slots[j]))
      {
        if slots[i].pid == pid && Live(slots[i]) {
          ByPidAt(slots[..], i);
          return Some(i);
        }
      }
      return None;
    }

    /** Overwriting the fields of a live PCB. */
    method Put(i: nat, b: Pcb)
      requires Valid() && i < slots.Length && Live(slots[i]) && Live(b) && b.pid == slots[i].pid
      modifies slots
      ensures Valid() && slots[..] == old(slots[..])[i := b] && SamePids(old(slots[..]), slots[..])
      ensures Value() == old(Value()).(procs := old(Procs())[b.pid := b])
    {
      ByPidWrite(slots[..], i, b);
      slots[i] := b;
      assert slots[..] == old(slots[..])[i := b];
    }

    /** process_block. */
    method Block(pid: nat)
      requires Valid()
      modifies this`force, slots
      ensures Valid() && Value() == ProcessBlock(old(Value()), pid) && SamePids(old(slots[..]), slots[..])
    {
      var r := Get(pid);
      if r.None? || slots[r.value].state in {State.Free, Zombie} {
        return;
      }
      if slots[r.value].state == Blocked {
        return;
      }
      Put(r.value, slots[r.value].(state := Blocked));
      if current == r {
        force := true;
      }
      assert current.Some? && Cur() == Some(pid) ==> current == r by { SameSlot(r.value, pid); }
    }

    lemma SameSlot(i: nat, pid: nat)
      requires Valid() && i < slots.Length && Live(slots[i]) && slots[i].pid == pid
      ensures Cur() == Some(pid) <==> current == Some(i)
    {
      if Cur() == Some(pid) { SamePid(slots[..], i, current.value); }
    }

    /** process_unblock. */
    method Unblock(pid: nat)
      requires Valid()
      modifies this`force, slots
      ensures Valid() && Value() == ProcessUnblock(old(Value()), pid) && SamePids(old(slots[..]), slots[..])
    {
      var r := Get(pid);
      if r.None? || slots[r.value].state != Blocked {
        return;
      }
      if current.Some? { CurrentIn(); }
      Put(r.value, slots[r.value].(state := State.Ready, waitTicks := 0));
      if current.Some? && slots[r.value].priority > slots[current.value].priority {
        force := true;
      }
    }

    lemma CurrentIn()
      requires Valid() && current.Some?
      ensures Cur().value in Procs() && Procs()[Cur().value] == slots[current.value]
    {
      ByPidAt(slots[..], current.value);
    }
  }
}
