/**
 semaphore.c in place: the table of semaphores with their values, queues and open counts, working on the table of
 processes. Each system call is shown to do what SemaphoreSpec says.
 */
module SemaphoreTable {
  import opened Processes
  import opened ProcessTable
  import opened WaitQueues
  import Spec = SemaphoreSpec

  class Semaphore {
    var name: string
    var value: int
    const queue: WaitQueue
    var opens: int

    ghost predicate Valid()
      reads this, queue, queue.buf
    {
      queue.Valid()
    }

    ghost function Value(): Spec.Sem
      reads this, queue, queue.buf
      requires Valid()
    {
      Spec.Sem(name, value, queue.Contents(), opens)
    }

    constructor ()
      ensures Valid() && fresh(queue) && fresh(queue.buf) && Value() == Spec.Sem("", 0, [], 0)
    {
      queue := new WaitQueue();
      name, value, opens := "", 0, 0;
    }
  }

  /** The process out of the queue of semaphore i, with its reference returned. */
  function Withdrawn(w: Spec.World, pid: nat, i: nat): Spec.World
    requires i < |w.sems| && pid in w.view.procs
  {
    var s := w.sems[i].(queue := Spec.Remove(w.sems[i].queue, pid));
    if i in w.view.procs[pid].openedSems then
      Spec.World(w.sems[i := s.(opens := s.opens - 1)], Spec.ClearOpened(w.view, Some(pid), i))
    else Spec.World(w.sems[i := s], w.view)
  }

  /** A unit given back to the value, for a process that was waiting. */
  function Compensated(w: Spec.World, pid: nat, i: nat): Spec.World
    requires i < |w.sems|
  {
    Spec.World(w.sems[i := w.sems[i].(value := w.sems[i].value + 1)], Spec.ClearHeld(w.view, Some(pid), i))
  }

  lemma CleanupIs(w: Spec.World, pid: nat, i: nat)
    requires i < |w.sems| && pid in w.view.procs && w.sems[i].opens > 0
    ensures var w1 := Withdrawn(w, pid, i);
            Spec.CleanupOne(w, pid, i) ==
              if pid in w.sems[i].queue then Compensated(w1, pid, i)
              else if i in w.view.procs[pid].heldSems then
                Spec.GiveBack(w1.(view := Spec.ClearHeld(w1.view, Some(pid), i)), i)
              else w1
  {
    var w1 := Withdrawn(w, pid, i);
    assert Compensated(w1, pid, i).sems == w.sems[i := Compensated(w1, pid, i).sems[i]];
  }

  /** What a semaphore is made of. */
  function PartsOf(s: Semaphore): set<object> {
    {s, s.queue, s.queue.buf}
  }

  lemma CleanupRound(w: Spec.World, pid: nat, i: nat)
    requires i < |w.sems| && pid in w.view.procs
    ensures Spec.CleanupFrom(w, pid, i) == Spec.CleanupFrom(Spec.CleanupOne(w, pid, i), pid, i + 1)
  {
  }

  class SemTable {
    const sems: seq<Semaphore>
    const procs: Table
    ghost var all: seq<Spec.Sem>

    /** Everything the semaphores are made of. */
    ghost const parts: set<object>

    /** What semaphore i is made of. */
    ghost function Own(i: nat): set<object>
      requires i < |sems|
    {
      PartsOf(sems[i])
    }

    ghost predicate Apart(i: nat, j: nat)
      requires i < |sems| && j < |sems|
    {
      Own(i) !! Own(j)
    }

    ghost predicate Separate() {
      && |sems| == Spec.MAX_SEMS
      && (forall i: nat, j: nat {:trigger Apart(i, j)} :: i < |sems| && j < |sems| && i != j ==> Apart(i, j))
      && procs !in parts && procs.slots !in parts && this !in parts
    }

    ghost predicate SemAt(i: nat)
      requires i < |sems| == |all|
      reads this, Own(i)
    {
      sems[i].Valid() && sems[i].Value() == all[i]
    }

    ghost predicate Valid()
      reads this, parts, procs, procs.slots
    {
      && Separate() && |all| == |sems| && procs.Valid()
      && forall i: nat {:trigger SemAt(i)} :: i < |sems| ==> Own(i) <= parts && SemAt(i)
    }

    ghost function Value(): Spec.World
      reads this, procs, procs.slots
    {
      Spec.World(all, procs.Value())
    }

    /** sem_init. */
    constructor (p: Table)
      requires p.Valid()
      ensures Valid() && procs == p && fresh(parts) && all == seq(Spec.MAX_SEMS, _ => Spec.Sem("", 0, [], 0))
    {
      var ss: seq<Semaphore> := [];
      ghost var made: set<object> := {};
      while |ss| < Spec.MAX_SEMS
        invariant |ss| <= Spec.MAX_SEMS && fresh(made)
        invariant forall i :: 0 <= i < |ss| ==>
                  PartsOf(ss[i]) <= made && ss[i].Valid() && ss[i].Value() == Spec.Sem("", 0, [], 0)
        invariant forall i, j :: 0 <= i < j < |ss| ==> PartsOf(ss[i]) !! PartsOf(ss[j])
      {
        var s := new Semaphore();
        ss, made := ss + [s], made + PartsOf(s);
      }
      sems, procs, parts := ss, p, made;
      all := seq(Spec.MAX_SEMS, _ => Spec.Sem("", 0, [], 0));
      new;
      forall i: nat | i < |sems| ensures Own(i) <= parts && SemAt(i) { assert sems[i] == ss[i]; }
    }

    /** A step that touches nothing but semaphore i leaves the others what they were. */
    twostate lemma OthersAsBefore(i: nat)
      requires old(Valid()) && i < |sems| == |all| && all == old(all)[i := all[i]] && SemAt(i) && procs.Valid()
      requires forall o: object :: o in parts && o !in Own(i) ==> unchanged(o)
      ensures Valid()
    {
      forall j: nat | j < |sems| ensures Own(j) <= parts && SemAt(j) {
        assert old(SemAt(j));
        if j != i { assert Apart(i, j); }
      }
    }

    // ---------------------------------------------------------------- small steps

    /** The plain fields of one semaphore are overwritten. */
    method Put(i: nat, name: string, value: int, opens: int)
      requires Valid() && i < |sems|
      modifies sems[i], this`all
      ensures Valid()
      ensures Value() ==
              old(Value()).(sems := old(all)[i := old(all)[i].(name := name, value := value, opens := opens)])
    {
      assert SemAt(i);
      var s := sems[i];
      s.name, s.value, s.opens := name, value, opens;
      all := all[i := all[i].(name := name, value := value, opens := opens)];
      OthersAsBefore(i);
    }

    method Enqueue(i: nat, pid: nat)
      requires Valid() && i < |sems|
      modifies sems[i].queue, sems[i].queue.buf, this`all
      ensures Valid()
      ensures Value() == old(Value()).(sems := old(all)[i := old(all)[i].(queue := Spec.Push(old(all)[i].queue, pid))])
    {
      assert SemAt(i);
      sems[i].queue.Push(pid);
      all := all[i := all[i].(queue := Spec.Push(all[i].queue, pid))];
      OthersAsBefore(i);
    }

    method Dequeue(i: nat) returns (pid: nat)
      requires Valid() && i < |sems| && all[i].queue != []
      modifies sems[i].queue, sems[i].queue.buf, this`all
      ensures Valid() && pid == old(all)[i].queue[0]
      ensures Value() == old(Value()).(sems := old(all)[i := old(all)[i].(queue := old(all)[i].queue[1..])])
    {
      assert SemAt(i);
      pid := sems[i].queue.Pop();
      all := all[i := all[i].(queue := all[i].queue[1..])];
      OthersAsBefore(i);
    }

    method Unqueue(i: nat, pid: nat) returns (found: bool)
      requires Valid() && i < |sems|
      modifies sems[i].queue, sems[i].queue.buf, this`all
      ensures Valid() && found == (pid in old(all)[i].queue)
      ensures Value() ==
              old(Value()).(sems := old(all)[i := old(all)[i].(queue := Spec.Remove(old(all)[i].queue, pid))])
    {
      assert SemAt(i);
      found := sems[i].queue.RemovePid(pid);
      all := all[i := all[i].(queue := Spec.Remove(all[i].queue, pid))];
      OthersAsBefore(i);
    }

    method ClearQueue(i: nat)
      requires Valid() && i < |sems|
      modifies sems[i].queue, sems[i].queue.buf, this`all
      ensures Valid() && Value() == old(Value()).(sems := old(all)[i := old(all)[i].(queue := [])])
    {
      assert SemAt(i);
      sems[i].queue.Clear();
      all := all[i := all[i].(queue := [])];
      OthersAsBefore(i);
    }

    // ---------------------------------------------------------------- the bitmaps of a PCB

    /** The pid in a slot; none for a null pointer. */
    ghost function PidIn(slot: Option<nat>): Option<nat>
      reads procs, procs.slots
    {
      if slot.Some? && slot.value < procs.slots.Length then Some(procs.slots[slot.value].pid) else None
    }

    ghost predicate IsSlot(slot: Option<nat>)
      reads procs, procs.slots
    {
      slot.Some? ==> slot.value < procs.slots.Length && Live(procs.slots[slot.value])
    }

    method SetBits(slot: Option<nat>, held: set<nat>, open: set<nat>)
      requires Valid() && IsSlot(slot)
      modifies procs.slots
      ensures Valid() && all == old(all) && SamePids(old(procs.slots[..]), procs.slots[..])
      ensures slot.None? ==> procs.Value() == old(procs.Value())
      ensures slot.Some? ==> var pid := old(procs.slots[slot.value].pid);
        && pid in old(procs.Procs())
        && procs.Value() ==
           var b := old(procs.Procs()[pid]).(heldSems := held, openedSems := open);
           old(procs.Value()).(procs := old(procs.Procs())[pid := b])
    {
      if slot.Some? {
        ByPidAt(procs.slots[..], slot.value);
        procs.Put(slot.value, procs.slots[slot.value].(heldSems := held, openedSems := open));
      }
      forall j: nat | j < |sems| ensures Own(j) <= parts && SemAt(j) { assert old(SemAt(j)); }
    }

    /** cur->opened_sems |= 1 << i, unless cur is null; the other changes of bits likewise. */
    method SetOpened(slot: Option<nat>, i: nat)
      requires Valid() && IsSlot(slot)
      modifies procs.slots
      ensures Valid() && all == old(all) && SamePids(old(procs.slots[..]), procs.slots[..])
      ensures procs.Value() == Spec.SetOpened(old(procs.Value()), old(PidIn(slot)), i)
    {
      if slot.Some? {
        ByPidAt(procs.slots[..], slot.value);
        var b := procs.slots[slot.value];
        SetBits(slot, b.heldSems, b.openedSems + {i});
      }
    }

    method SetHeld(slot: Option<nat>, i: nat)
      requires Valid() && IsSlot(slot)
      modifies procs.slots
      ensures Valid() && all == old(all) && SamePids(old(procs.slots[..]), procs.slots[..])
      ensures procs.Value() == Spec.SetHeld(old(procs.Value()), old(PidIn(slot)), i)
    {
      if slot.Some? {
        ByPidAt(procs.slots[..], slot.value);
        var b := procs.slots[slot.value];
        SetBits(slot, b.heldSems + {i}, b.openedSems);
      }
    }

    method ClearHeld(slot: Option<nat>, i: nat)
      requires Valid() && IsSlot(slot)
      modifies procs.slots
      ensures Valid() && all == old(all) && SamePids(old(procs.slots[..]), procs.slots[..])
      ensures procs.Value() == Spec.ClearHeld(old(procs.Value()), old(PidIn(slot)), i)
    {
      if slot.Some? {
        ByPidAt(procs.slots[..], slot.value);
        var b := procs.slots[slot.value];
        SetBits(slot, b.heldSems - {i}, b.openedSems);
      }
    }

    method ClearOpened(slot: Option<nat>, i: nat)
      requires Valid() && IsSlot(slot)
      modifies procs.slots
      ensures Valid() && all == old(all) && SamePids(old(procs.slots[..]), procs.slots[..])
      ensures procs.Value() == Spec.ClearOpened(old(procs.Value()), old(PidIn(slot)), i)
    {
      if slot.Some? {
        ByPidAt(procs.slots[..], slot.value);
        var b := procs.slots[slot.value];
        SetBits(slot, b.heldSems, b.openedSems - {i});
      }
    }

    // ---------------------------------------------------------------- the system calls

    /** find_sem. */
    method Find(name: string) returns (r: Option<nat>)
      requires Valid()
      ensures r == Spec.Find(Value(), name)
    {
      for i := 0 to |sems|
        invariant Spec.FindFrom(all, name, 0) == Spec.FindFrom(all, name, i)
      {
        assert SemAt(i);
        if sems[i].opens > 0 && sems[i].name == name {
          return Some(i);
        }
      }
      return None;
    }

    method FindFree() returns (r: Option<nat>)
      requires Valid()
      ensures r == Spec.FreeFrom(all, 0)
    {
      for i := 0 to |sems|
        invariant Spec.FreeFrom(all, 0) == Spec.FreeFrom(all, i)
      {
        assert SemAt(i);
        if sems[i].opens == 0 {
          return Some(i);
        }
      }
      return None;
    }

    /** One more open of semaphore i. */
    method Reopen(i: nat)
      requires Valid() && i < |sems|
      modifies parts, this`all
      ensures Valid() && Value() == old(Value()).(sems := old(all)[i := old(all)[i].(opens := old(all)[i].opens + 1)])
    {
      assert SemAt(i);
      Put(i, sems[i].name, sems[i].value, sems[i].opens + 1);
    }

    /** A free entry becomes a semaphore of the given name and value. */
    method Begin(i: nat, name: string, initial: nat)
      requires Valid() && i < |sems|
      modifies parts, this`all
      ensures Valid()
      ensures Value() ==
              old(Value()).(sems := old(all)[i := Spec.Sem(Spec.Stored(name), Spec.ToSigned(initial), [], 1)])
    {
      assert SemAt(i);
      Put(i, if |name| < Spec.SEM_NAME_LEN then name else name[..Spec.SEM_NAME_LEN - 1],
          if initial < 0x8000_0000_0000_0000 then initial else initial - 0x1_0000_0000_0000_0000, 1);
      ClearQueue(i);
      assert all == old(all)[i := Spec.Sem(Spec.Stored(name), Spec.ToSigned(initial), [], 1)];
    }

    method SemOpen(name: string, initial: nat) returns (r: int)
      requires Valid()
      modifies parts, this`all, procs.slots
      ensures Valid() && (Value(), r) == Spec.SemOpen(old(Value()), name, initial)
    {
      var found := Find(name);
      var i;
      if found.Some? {
        i := found.value;
        Reopen(i);
      } else {
        var free := FindFree();
        if free.None? {
          return 0;
        }
        i := free.value;
        Begin(i, name, initial);
      }
      SetOpened(procs.current, i);
      return 1;
    }

    method SemWait(name: string) returns (r: int)
      requires Valid()
      modifies parts, this`all, procs`force, procs.slots
      ensures Valid() && (Value(), r) == Spec.SemWait(old(Value()), name)
    {
      var found := Find(name);
      if found.None? {
        return -1;
      }
      var i := found.value;
      assert SemAt(i);
      Put(i, sems[i].name, sems[i].value - 1, sems[i].opens);
      assert SemAt(i);
      if sems[i].value < 0 {
        if procs.current.None? {
          return -1;
        }
        var pid := procs.slots[procs.current.value].pid;
        Enqueue(i, pid);
        assert all == old(all)[i := all[i]];
        Block(pid);
      } else {
        SetHeld(procs.current, i);
      }
      return 0;
    }

    /** process_block and process_unblock, which the semaphores do not notice. */
    method Block(pid: nat)
      requires Valid()
      modifies procs`force, procs.slots
      ensures Valid() && all == old(all) && procs.Value() == ProcessBlock(old(procs.Value()), pid)
      ensures SamePids(old(procs.slots[..]), procs.slots[..])
    {
      procs.Block(pid);
      forall j: nat | j < |sems| ensures Own(j) <= parts && SemAt(j) { assert old(SemAt(j)); }
    }

    method Unblock(pid: nat)
      requires Valid()
      modifies procs`force, procs.slots
      ensures Valid() && all == old(all) && procs.Value() == ProcessUnblock(old(procs.Value()), pid)
      ensures SamePids(old(procs.slots[..]), procs.slots[..])
    {
      procs.Unblock(pid);
      forall j: nat | j < |sems| ensures Own(j) <= parts && SemAt(j) { assert old(SemAt(j)); }
    }

    /** The end of sem_post, and of a death: the first in the queue gets the unit. */
    method GiveBack(i: nat)
      requires Valid() && i < |sems|
      modifies parts, this`all, procs`force, procs.slots
      ensures Valid() && Value() == Spec.GiveBack(old(Value()), i) && SamePids(old(procs.slots[..]), procs.slots[..])
    {
      assert SemAt(i);
      Put(i, sems[i].name, sems[i].value + 1, sems[i].opens);
      assert SemAt(i);
      if sems[i].value <= 0 && sems[i].queue.count > 0 {
        var pid := Dequeue(i);
        assert all == old(all)[i := all[i]];
        var woken := procs.Get(pid);
        SetHeld(woken, i);
        Unblock(pid);
      }
    }

    method SemPost(name: string) returns (r: int)
      requires Valid()
      modifies parts, this`all, procs`force, procs.slots
      ensures Valid() && (Value(), r) == Spec.SemPost(old(Value()), name)
    {
      var found := Find(name);
      if found.None? {
        return -1;
      }
      ClearHeld(procs.current, found.value);
      GiveBack(found.value);
      return 0;
    }

    method SemClose(name: string) returns (r: int)
      requires Valid()
      modifies parts, this`all, procs.slots
      ensures Valid() && (Value(), r) == Spec.SemClose(old(Value()), name)
    {
      var found := Find(name);
      if found.None? {
        return -1;
      }
      var i := found.value;
      ClearHeld(procs.current, i);
      ClearOpened(procs.current, i);
      assert SemAt(i);
      if sems[i].opens - 1 <= 0 {
        Put(i, "", sems[i].value, 0);
        ClearQueue(i);
        assert all == old(all)[i := all[i]];
      } else {
        Put(i, sems[i].name, sems[i].value, sems[i].opens - 1);
      }
      return 0;
    }

    // ---------------------------------------------------------------- death

    /** The process leaves the queue of semaphore i and returns its reference. */
    method Withdraw(p: nat, pid: nat, i: nat) returns (queued: bool)
      requires Valid() && i < |sems| && IsSlot(Some(p)) && procs.slots[p].pid == pid && all[i].opens > 0
      modifies parts, this`all, procs.slots
      ensures Valid() && SamePids(old(procs.slots[..]), procs.slots[..]) && queued == (pid in old(all)[i].queue)
      ensures pid in old(procs.Procs()) && Value() == Withdrawn(old(Value()), pid, i)
    {
      ByPidAt(procs.slots[..], p);
      assert SemAt(i);
      queued := Unqueue(i, pid);
      if i in procs.slots[p].openedSems {
        ClearOpened(Some(p), i);
        assert SemAt(i);
        if sems[i].opens > 0 {
          Put(i, sems[i].name, sems[i].value, sems[i].opens - 1);
          assert all == old(all)[i := all[i]];
        }
      }
    }

    method Compensate(p: nat, pid: nat, i: nat)
      requires Valid() && i < |sems| && IsSlot(Some(p)) && procs.slots[p].pid == pid
      modifies parts, this`all, procs.slots
      ensures Valid() && SamePids(old(procs.slots[..]), procs.slots[..]) && Value() == Compensated(old(Value()), pid, i)
    {
      assert SemAt(i);
      Put(i, sems[i].name, sems[i].value + 1, sems[i].opens);
      ClearHeld(Some(p), i);
    }

    method Surrender(p: nat, pid: nat, i: nat)
      requires Valid() && i < |sems| && IsSlot(Some(p)) && procs.slots[p].pid == pid
      modifies parts, this`all, procs`force, procs.slots
      ensures Valid() && SamePids(old(procs.slots[..]), procs.slots[..])
      ensures Value() == Spec.GiveBack(old(Value()).(view := Spec.ClearHeld(old(procs.Value()), Some(pid), i)), i)
    {
      ClearHeld(Some(p), i);
      GiveBack(i);
    }

    /** One turn of the loop of sem_cleanup_for_process, p being the slot of pid. */
    method CleanupOne(p: nat, pid: nat, i: nat)
      requires Valid() && i < |sems| && IsSlot(Some(p)) && procs.slots[p].pid == pid
      modifies parts, this`all, procs`force, procs.slots
      ensures Valid() && pid in old(procs.Procs()) && Value() == Spec.CleanupOne(old(Value()), pid, i)
      ensures IsSlot(Some(p)) && procs.slots[p].pid == pid
    {
      ByPidAt(procs.slots[..], p);
      assert SemAt(i);
      if sems[i].opens <= 0 {
        return;
      }
      CleanupIs(Value(), pid, i);
      var held := i in procs.slots[p].heldSems;
      var queued := Withdraw(p, pid, i);
      if queued {
        Compensate(p, pid, i);
      } else if held {
        Surrender(p, pid, i);
      }
    }

    /** sem_cleanup_for_process. */
    method SemCleanup(pid: nat)
      requires Valid()
      modifies parts, this`all, procs`force, procs.slots
      ensures Valid() && Value() == Spec.SemCleanup(old(Value()), pid)
    {
      var r := procs.Get(pid);
      if r.None? {
        return;
      }
      var p := r.value;
      CleanupLoop(p, pid);
      SetBits(Some(p), {}, {});
    }

    method CleanupLoop(p: nat, pid: nat)
      requires Valid() && IsSlot(Some(p)) && procs.slots[p].pid == pid && pid in procs.Procs()
      modifies parts, this`all, procs`force, procs.slots
      ensures Valid() && Value() == Spec.CleanupFrom(old(Value()), pid, 0) && IsSlot(Some(p))
      ensures procs.slots[p].pid == pid
    {
      ghost var done := Spec.CleanupFrom(Value(), pid, 0);
      for i := 0 to Spec.MAX_SEMS
        invariant Valid() && pid in procs.Procs() && IsSlot(Some(p)) && procs.slots[p].pid == pid
        invariant Spec.CleanupFrom(Value(), pid, i) == done
      {
        CleanupRound(Value(), pid, i);
        CleanupOne(p, pid, i);
      }
    }
  }
}
