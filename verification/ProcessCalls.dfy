/**
 process.c, and the tick and the voluntary switch of scheduler.c, in place: on the table of PCBs, the run queue and the
 kernel's share of the heap. Each is shown to do what KernelSpec says.
 */
module ProcessCalls {
  import opened Processes
  import opened ProcessTable
  import opened SchedulerTable
  import Queues = Scheduler
  import Spec = KernelSpec

  /** The slot after a tick. */
  function Older(b: Pcb, waits: bool): Pcb {
    if waits && b.state == State.Ready then b.(waitTicks := b.waitTicks + 1) else b
  }

  /** A burial and a dispatch of two processes do not get in each other's way. */
  lemma Commute(k: Spec.Kernel, c: nat, n: nat)
    requires c != n && c in Spec.Tab(k) && n in Spec.Tab(k)
    ensures c in Spec.Tab(Spec.Dispatch(k, n)) && n in Spec.Tab(Spec.Bury(k, c))
    ensures Spec.Bury(Spec.Dispatch(k, n), c) == Spec.Dispatch(Spec.Bury(k, c), n)
  {
    assert Spec.Tab(Spec.Bury(Spec.Dispatch(k, n), c)) == Spec.Tab(Spec.Dispatch(Spec.Bury(k, c), n));
  }

  class Kernel {
    const procs: Table
    const sched: Scheduler
    var blocks: set<nat>
    var badFrees: nat

    ghost predicate Valid()
      reads this, procs, procs.slots, sched, sched.runQueue
    {
      sched.procs == procs && sched.Valid()
    }

    ghost function Value(): Spec.Kernel
      reads this, procs, procs.slots, sched, sched.runQueue
      requires Valid()
    {
      Spec.Kernel(procs.Value(), sched.Queue(), procs.nextPid, blocks, badFrees)
    }

    constructor (p: Table, s: Scheduler)
      requires p.Valid() && s.Valid() && s.procs == p
      ensures Valid() && procs == p && sched == s && Value() == Spec.Kernel(p.Value(), s.Queue(), p.nextPid, {}, 0)
    {
      procs, sched, blocks, badFrees := p, s, {}, 0;
    }

    ghost predicate IsSlot(p: nat)
      reads procs, procs.slots
    {
      p < procs.slots.Length && Live(procs.slots[p])
    }

    /** The fields of a live PCB are overwritten. */
    method Put(p: nat, b: Pcb)
      requires Valid() && IsSlot(p) && Live(b) && b.pid == procs.slots[p].pid
      modifies procs.slots
      ensures Valid() && Value() == Spec.With(old(Value()), b.pid, b) && procs.slots[p] == b
      ensures SamePids(old(procs.slots[..]), procs.slots[..])
      ensures forall q :: 0 <= q < procs.slots.Length && q != p ==> procs.slots[q] == old(procs.slots[q])
    {
      procs.Put(p, b);
      assert forall q :: 0 <= q < procs.slots.Length ==> procs.slots[q] == procs.slots[..][q];
      sched.Undisturbed();
    }

    /** mm_free of a block the kernel may own, or of nothing. */
    method Release(a: Option<nat>)
      requires Valid()
      modifies this`blocks, this`badFrees
      ensures Valid() && Value() == Spec.Release(old(Value()), a)
    {
      if a.Some? {
        if a.value in blocks {
          blocks := blocks - {a.value};
        } else {
          badFrees := badFrees + 1;
        }
      }
    }

    lemma Found(p: nat)
      requires Valid() && IsSlot(p)
      ensures procs.slots[p].pid in procs.Procs() && procs.Procs()[procs.slots[p].pid] == procs.slots[p]
    {
      ByPidAt(procs.slots[..], p);
    }

    /** A PCB that is in no queue gives up its blocks and its slot. */
    method Bury(p: nat)
      requires Valid() && IsSlot(p) && procs.current != Some(p) && sched.idle != Some(p)
      requires p !in sched.runQueue[..sched.size]
      modifies this`blocks, this`badFrees, procs.slots
      ensures Valid() && old(procs.slots[p].pid) in old(procs.Procs())
      ensures Value() == Spec.Bury(old(Value()), old(procs.slots[p].pid))
    {
      Found(p);
      var b := procs.slots[p];
      Release(b.stack);
      Release(b.argv);
      var gone := b.(stack := None, argv := None, state := State.Free, pid := 0);
      ByPidFree(procs.slots[..], p, gone);
      procs.slots[p] := gone;
      assert procs.slots[..] == old(procs.slots[..])[p := gone];
      StillCurrent(p);
      sched.Undisturbed();
    }

    twostate lemma StillCurrent(p: nat)
      requires old(procs.Valid()) && p < procs.slots.Length && unchanged(procs) && procs.current != Some(p)
      requires UniquePids(procs.slots[..])
      requires forall q :: 0 <= q < procs.slots.Length && q != p ==> procs.slots[q] == old(procs.slots[q])
      ensures procs.Valid() && procs.Cur() == old(procs.Cur())
    {
    }

    // ---------------------------------------------------------------- dispatching

    method SetCurrent(n: nat)
      requires Valid() && IsSlot(n)
      modifies procs`current
      ensures Valid() && Value() == old(Value()).(view := old(procs.Value()).(cur := Some(procs.slots[n].pid)))
      ensures procs.current == Some(n)
    {
      procs.current := Some(n);
      sched.Undisturbed();
    }

    /** The chosen one runs, with its aging reset. */
    method Dispatch(n: nat)
      requires Valid() && IsSlot(n)
      modifies procs`current, procs.slots
      ensures Valid() && procs.slots[n].pid in old(procs.Procs())
      ensures Value() == Spec.Dispatch(old(Value()), procs.slots[n].pid)
      ensures procs.current == Some(n) && SamePids(old(procs.slots[..]), procs.slots[..])
      ensures forall q :: 0 <= q < procs.slots.Length && q != n ==> procs.slots[q] == old(procs.slots[q])
    {
      Found(n);
      Put(n, procs.slots[n].(waitTicks := 0, state := Running));
      SetCurrent(n);
    }

    // ---------------------------------------------------------------- the switch

    /** What the walks of the scheduler rely on. */
    lemma ShapeIs()
      requires Valid() && (sched.idle.Some? ==> procs.slots[sched.idle.value].state != Zombie)
      ensures Spec.Shape(Value())
    {
      sched.Here();
      if procs.current.Some? { Found(procs.current.value); }
      if sched.idle.Some? { Found(sched.idle.value); }
    }

    lemma IdleLives()
      requires Valid() && Spec.Shape(Value()) && sched.idle.Some?
      ensures procs.slots[sched.idle.value].state != Zombie
    {
      Found(sched.idle.value);
    }

    /** The switch away from a zombie. It is buried as soon as its successor is current. */
    method SwitchAndBury(c: nat, n: nat)
      requires Valid() && IsSlot(c) && IsSlot(n) && c != n && procs.current == Some(c) && sched.idle != Some(c)
      modifies procs`current, procs.slots, sched`size, sched`idx, sched.runQueue, this`blocks, this`badFrees
      ensures Valid()
      ensures var (cp, np) := (old(procs.slots[c].pid), old(procs.slots[n].pid));
              var k1 := old(Value()).(queue := Queues.Remove(old(sched.Queue()), cp));
              cp in Spec.Tab(k1) && np in Spec.Tab(Spec.Bury(k1, cp)) && Value() == Spec.Dispatch(Spec.Bury(k1, cp), np)
    {
      Found(c);
      Found(n);
      if procs.slots[c].pid == procs.slots[n].pid { SamePid(procs.slots[..], c, n); }
      sched.Remove(c);
      Commute(Value(), procs.slots[c].pid, procs.slots[n].pid);
      Dispatch(n);
      Bury(c);
    }

    method Switch()
      requires Valid() && Spec.Shape(Value())
      modifies procs`current, procs.slots, sched`size, sched`idx, sched.runQueue, this`blocks, this`badFrees
      ensures Valid() && Value() == Spec.Switch(old(Value()))
    {
      sched.Here();
      Queues.ChosenIsReady(procs.Procs(), sched.Queue());
      ghost var k := Value();
      var next := sched.NextReady();
      var cur := procs.current;
      if cur.Some? { Found(cur.value); }
      if next.None? {
        if cur.Some? && procs.slots[cur.value].state == State.Ready {
          Put(cur.value, procs.slots[cur.value].(state := Running));
        }
        return;
      }
      Found(next.value);
      if cur.Some? && procs.slots[cur.value].state == Zombie {
        if sched.idle.Some? { Found(sched.idle.value); }
        SwitchAndBury(cur.value, next.value);
      } else {
        Dispatch(next.value);
      }
    }

    /** scheduler_yield_impl. */
    method YieldImpl()
      requires Valid() && Spec.Shape(Value())
      modifies procs`current, procs.slots, sched`size, sched`idx, sched.runQueue, this`blocks, this`badFrees
      ensures Valid() && Value() == Spec.YieldImpl(old(Value()))
    {
      Pause();
      Switch();
    }

    method Pause()
      requires Valid() && Spec.Shape(Value())
      modifies procs.slots
      ensures Valid() && Value() == Spec.Pause(old(Value())) && Spec.Shape(Value())
    {
      if procs.current.Some? {
        var c := procs.current.value;
        Found(c);
        if sched.idle.Some? { IdleLives(); }
        var b := procs.slots[c];
        Put(c, b.(state := if b.state == Running then State.Ready else b.state, quanta := b.priority));
        ShapeIs();
      }
    }

    // ---------------------------------------------------------------- the tick

    /** The aging loop of scheduler_tick. */
    method AgeSlots()
      requires Valid()
      modifies procs.slots
      ensures forall q :: 0 <= q < procs.slots.Length ==>
              procs.slots[q] ==
                Older(old(procs.slots[q]), q in sched.runQueue[..sched.size] && procs.current != Some(q))
    {
      for i := 0 to sched.size
        invariant forall q :: 0 <= q < procs.slots.Length ==>
                  procs.slots[q] == Older(old(procs.slots[q]), q in sched.runQueue[..i] && procs.current != Some(q))
      {
        var p := sched.runQueue[i];
        assert sched.runQueue[..sched.size][i] == p;
        assert sched.runQueue[..i + 1] == sched.runQueue[..i] + [p];
        NotBefore(i);
        if procs.current != Some(p) && procs.slots[p].state == State.Ready {
          procs.slots[p] := procs.slots[p].(waitTicks := procs.slots[p].waitTicks + 1);
        }
      }
    }

    twostate lemma NotBefore(i: nat)
      requires old(Valid()) && i < sched.size && unchanged(sched) && unchanged(sched.runQueue)
      ensures sched.runQueue[i] !in sched.runQueue[..i] && sched.runQueue[i] < procs.slots.Length
    {
      assert old(sched.runQueue[..sched.size]) == sched.runQueue[..sched.size];
      assert forall j :: 0 <= j <= i ==> sched.runQueue[..sched.size][j] == sched.runQueue[j];
    }

    /** Everybody queued and ready, but the current, has waited one tick more. */
    method Age()
      requires Valid() && Spec.Shape(Value())
      modifies procs.slots
      ensures Valid() && Value() == Spec.Aged(old(Value())) && Spec.Shape(Value())
    {
      if sched.idle.Some? { IdleLives(); }
      ghost var t := procs.slots[..];
      AgeSlots();
      AgedIs(t, procs.slots[..], sched.runQueue[..sched.size], procs.current);
      sched.Undisturbed();
      ShapeIs();
    }

    /** scheduler_tick. */
    method Tick()
      requires Valid() && Spec.Shape(Value())
      modifies procs`current, procs.slots, sched`size, sched`idx, sched.runQueue, this`blocks, this`badFrees
      ensures Valid() && Value() == Spec.Tick(old(Value()))
    {
      Age();
      Spend();
    }

    method Spend()
      requires Valid() && Spec.Shape(Value())
      modifies procs`current, procs.slots, sched`size, sched`idx, sched.runQueue, this`blocks, this`badFrees
      ensures Valid() && Value() == Spec.Spent(old(Value()))
    {
      if procs.current.Some? {
        var c := procs.current.value;
        Found(c);
        if procs.slots[c].state == Running {
          var left := if procs.slots[c].quanta > 0 then procs.slots[c].quanta - 1 else 0;
          if left > 0 {
            Put(c, procs.slots[c].(quanta := left));
            return;
          }
          Rest(c);
        }
      }
      Switch();
    }

    /** The current process has used up its turn. */
    method Rest(c: nat)
      requires Valid() && Spec.Shape(Value()) && procs.current == Some(c)
      modifies procs.slots
      ensures Valid() && Spec.Shape(Value()) && old(procs.slots[c].pid) in old(procs.Procs())
      ensures Value() ==
              Spec.With(old(Value()), old(procs.slots[c].pid),
                        old(procs.Procs()[procs.slots[c].pid]).(state := State.Ready,
                                                                quanta := old(procs.slots[c].priority)))
    {
      Found(c);
      if sched.idle.Some? { IdleLives(); }
      Put(c, procs.slots[c].(state := State.Ready, quanta := procs.slots[c].priority));
      ShapeIs();
    }

    // ---------------------------------------------------------------- process.c

    method FreeSlot() returns (r: Option<nat>)
      requires Valid()
      ensures r.Some? <==> |procs.Procs()| < MAX_PROCESSES
      ensures r.Some? ==> r.value < procs.slots.Length && !Live(procs.slots[r.value])
    {
      FullTable(procs.slots[..]);
      for i := 0 to MAX_PROCESSES
        invariant forall j :: 0 <= j < i ==> Live(procs.slots[j])
      {
        if procs.slots[i].state == State.Free {
          return Some(i);
        }
      }
      return None;
    }

    /** The free slot takes the new PCB. */
    method Fill(p: nat, b: Pcb)
      requires Valid() && p < procs.slots.Length && !Live(procs.slots[p]) && Live(b) && b.pid > 0
      requires b.pid !in procs.Procs()
      modifies procs.slots
      ensures Valid() && Value() == Spec.With(old(Value()), b.pid, b) && procs.slots[p] == b
    {
      ByPidFill(procs.slots[..], p, b);
      procs.slots[p] := b;
      assert procs.slots[..] == old(procs.slots[..])[p := b];
      sched.Undisturbed();
    }

    /** The stack, and the copy of the arguments if there are any: both, or neither is kept. */
    method Allocate(stack: nat, wantsArgs: bool, args: Option<nat>) returns (ok: bool)
      requires Valid()
      modifies this`blocks, this`badFrees
      ensures Valid() && ok == (wantsArgs ==> args.Some?)
      ensures var k := old(Value()).(blocks := old(blocks) + {stack});
              Value() == if !ok then Spec.Release(k, Some(stack))
                         else if wantsArgs then k.(blocks := k.blocks + {args.value}) else k
    {
      blocks := blocks + {stack};
      if wantsArgs {
        if args.None? {
          Release(Some(stack));
          return false;
        }
        blocks := blocks + {args.value};
      }
      return true;
    }

    /** process_create; `stack` and `args` are what mm_malloc_kernel returns for the stack and for the copy of argv. */
    method Create(fg: nat, wantsArgs: bool, stack: Option<nat>, args: Option<nat>) returns (r: int)
      requires Valid() && procs.nextPid + 1 !in procs.Procs() && Queues.Known(procs.Procs(), sched.Queue().pids)
      modifies procs`nextPid, procs.slots, sched`size, sched`idx, sched.runQueue, this`blocks, this`badFrees
      ensures Valid() && (Value(), r) == Spec.Create(old(Value()), fg, wantsArgs, stack, args)
    {
      var slot := FreeSlot();
      if slot.None? || stack.None? {
        return -1;
      }
      r := CreateIn(slot.value, fg, wantsArgs, stack.value, args);
    }

    /** The same, given a free slot and a stack. */
    method CreateIn(p: nat, fg: nat, wantsArgs: bool, stack: nat, args: Option<nat>) returns (r: int)
      requires Valid() && procs.nextPid + 1 !in procs.Procs() && Queues.Known(procs.Procs(), sched.Queue().pids)
      requires p < procs.slots.Length && !Live(procs.slots[p]) && |procs.Procs()| < MAX_PROCESSES
      modifies procs`nextPid, procs.slots, sched`size, sched`idx, sched.runQueue, this`blocks, this`badFrees
      ensures Valid() && (Value(), r) == Spec.Create(old(Value()), fg, wantsArgs, Some(stack), args)
    {
      var ok := Allocate(stack, wantsArgs, args);
      if !ok {
        return -1;
      }
      ghost var k := Value();
      Enter(p, fg, stack, if wantsArgs then args else None);
      r := procs.nextPid;
      assert (Value(), r) == (Spec.Entered(k, fg, stack, if wantsArgs then args else None), k.nextPid + 1);
    }

    /** The new PCB, in a free slot and under a new pid. */
    method Populate(p: nat, fg: nat, stack: nat, argv: Option<nat>)
      requires Valid() && p < procs.slots.Length && !Live(procs.slots[p]) && procs.nextPid + 1 !in procs.Procs()
      modifies procs`nextPid, procs.slots
      ensures Valid() && Value() == Spec.Populated(old(Value()), fg, stack, argv)
      ensures procs.nextPid == old(procs.nextPid) + 1 && IsSlot(p) && procs.slots[p].pid == procs.nextPid
    {
      procs.nextPid := procs.nextPid + 1;
      sched.Undisturbed();
      var pid := procs.nextPid;
      var parent := if procs.current.Some? then procs.slots[procs.current.value].pid else 0;
      Fill(p, Spec.Fresh(pid, fg, parent, stack, argv));
    }

    /** The rest of process_create, which cannot fail. */
    method Enter(p: nat, fg: nat, stack: nat, argv: Option<nat>)
      requires Valid() && p < procs.slots.Length && !Live(procs.slots[p]) && procs.nextPid + 1 !in procs.Procs()
      modifies procs`nextPid, procs.slots, sched`size, sched`idx, sched.runQueue
      ensures Valid() && Queues.Known(old(procs.Procs()), old(sched.Queue()).pids)
      ensures Value() == Spec.Entered(old(Value()), fg, stack, argv) && procs.nextPid == old(procs.nextPid) + 1
    {
      sched.Here();
      assert p !in sched.runQueue[..sched.size];
      Populate(p, fg, stack, argv);
      sched.Here();
      Found(p);
      sched.Add(p);
    }

    /** A parent blocked in waitpid for p is woken with the value in its saved RAX slot. */
    method WakeParent(p: nat, retval: int)
      requires Valid() && IsSlot(p)
      modifies procs.slots
      ensures Valid() && old(procs.slots[p].pid) in old(procs.Procs())
      ensures Value() == Spec.WakeParent(old(Value()), old(procs.slots[p].pid), retval)
      ensures SamePids(old(procs.slots[..]), procs.slots[..])
    {
      Found(p);
      var parent := procs.Get(procs.slots[p].parent);
      if parent.Some? {
        var b := procs.slots[parent.value];
        if b.state == Blocked && b.waitingFor == procs.slots[p].pid {
          Put(parent.value, b.(savedRax := retval, waitingFor := 0, state := State.Ready, waitTicks := 0));
        }
      }
    }

    method Force()
      requires Valid()
      modifies procs`force
      ensures Valid() && Value() == Spec.Forced(old(Value()))
    {
      procs.force := true;
      sched.Undisturbed();
    }

    /** The last part of process_exit. */
    method ExitEnd(retval: int)
      requires Valid() && procs.current.Some?
      modifies procs`force, procs.slots
      ensures Valid() && old(procs.Cur()).Some? && old(procs.Cur()).value in old(procs.Procs())
      ensures Value() == Spec.ExitEnd(old(Value()), retval)
    {
      var c := procs.current.value;
      Found(c);
      WakeParent(c, retval);
      Found(c);
      Put(c, procs.slots[c].(state := Zombie));
      Force();
    }

    /** process_kill between the cleaning up of semaphores and pipes and that of the FDs. */
    method KillMiddle(p: nat)
      requires Valid() && IsSlot(p)
      modifies procs.slots, sched`size, sched`idx, sched.runQueue
      ensures Valid() && old(procs.slots[p].pid) in old(procs.Procs())
      ensures Value() == Spec.KillMiddle(old(Value()), old(procs.slots[p].pid))
    {
      Found(p);
      SameCurrent(p);
      WakeParent(p, -1);
      Found(p);
      if procs.current == Some(p) {
        Put(p, procs.slots[p].(state := Zombie));
      } else {
        sched.Remove(p);
      }
    }

    lemma SameCurrent(p: nat)
      requires Valid() && IsSlot(p)
      ensures procs.current == Some(p) <==> procs.Cur() == Some(procs.slots[p].pid)
    {
      if procs.current.Some? && procs.Cur() == Some(procs.slots[p].pid) {
        SamePid(procs.slots[..], procs.current.value, p);
      }
    }

    method KillEnd(p: nat)
      requires Valid() && IsSlot(p)
      requires procs.current != Some(p) ==> sched.idle != Some(p) && p !in sched.runQueue[..sched.size]
      modifies procs`force, procs.slots, this`blocks, this`badFrees
      ensures Valid() && old(procs.slots[p].pid) in old(procs.Procs())
      ensures Value() == Spec.KillEnd(old(Value()), old(procs.slots[p].pid))
    {
      Found(p);
      SameCurrent(p);
      if procs.current == Some(p) {
        Force();
      } else {
        Bury(p);
      }
    }

    /** process_nice. */
    method Nice(pid: nat, priority: nat)
      requires Valid() && Queues.Known(procs.Procs(), sched.Queue().pids)
      modifies procs.slots, sched`size, sched`idx, sched.runQueue
      ensures Valid() && Value() == Spec.Nice(old(Value()), pid, priority)
    {
      var p := procs.Get(pid);
      if p.None? {
        return;
      }
      var b := procs.slots[p.value];
      var n := priority % 256;
      if n < MIN_PRIORITY {
        n := MIN_PRIORITY;
      }
      if n > MAX_PRIORITY {
        n := MAX_PRIORITY;
      }
      Put(p.value, b.(priority := n, waitTicks := 0, quanta := n));
      if b.state != State.Free && b.state != Zombie {
        Requeue(p.value);
      }
    }

    method Requeue(p: nat)
      requires Valid() && IsSlot(p)
      modifies sched`size, sched`idx, sched.runQueue
      ensures Valid() && procs.slots[p].pid in procs.Procs()
      ensures var q := Queues.Remove(old(sched.Queue()), procs.slots[p].pid);
              Queues.Known(procs.Procs(), q.pids)
                && Value() == old(Value()).(queue := Queues.Add(procs.Procs(), q, procs.slots[p].pid))
    {
      Found(p);
      sched.Remove(p);
      sched.Here();
      sched.Add(p);
    }

    /** process_waitpid. Its branch for a zombie never runs (KernelTheorems.WaitPidKeeps); a zombie it met would have to
        have left the run queue and the CPU. */
    method WaitPid(pid: nat) returns (r: int)
      requires Valid()
      requires pid in procs.Procs() && procs.Procs()[pid].state == Zombie ==>
               procs.Cur() != Some(pid) && sched.Queue().idle != Some(pid) && pid !in sched.Queue().pids
      modifies procs`force, procs.slots, this`blocks, this`badFrees
      ensures Valid() && (Value(), r) == Spec.WaitPid(old(Value()), pid)
    {
      var child := procs.Get(pid);
      if child.None? {
        return -1;
      }
      var c := child.value;
      if procs.slots[c].state == Zombie {
        r := procs.slots[c].retval;
        SameCurrent(c);
        sched.IsIdle(c);
        sched.NotQueued(c);
        Bury(c);
        return;
      }
      if procs.current.Some? {
        var me := procs.current.value;
        Found(me);
        Put(me, procs.slots[me].(state := Blocked, waitingFor := pid));
      }
      Force();
      return 0;
    }

    /** sys_block. */
    method SysBlock(pid: nat) returns (r: int)
      requires Valid()
      modifies procs`force, procs.slots
      ensures Valid() && (Value(), r) == Spec.BlockCall(old(Value()), pid)
    {
      var p := procs.Get(pid);
      if p.None? || procs.slots[p.value].state in {State.Free, Zombie} {
        return -1;
      }
      var b := procs.slots[p.value];
      if b.state == Blocked && b.waitingFor != 0 {
        return -1;
      }
      if b.state == Blocked {
        procs.Unblock(pid);
      } else {
        procs.Block(pid);
      }
      StillQueued();
      return 0;
    }

    twostate lemma StillQueued()
      requires old(Valid()) && unchanged(sched) && unchanged(sched.runQueue) && procs.Valid()
      requires SamePids(old(procs.slots[..]), procs.slots[..])
      ensures Valid() && sched.Queue() == old(sched.Queue())
    {
      assert forall q :: 0 <= q < procs.slots.Length ==> procs.slots[q] == procs.slots[..][q];
      assert old(forall i :: 0 <= i < sched.size ==> Live(procs.slots[sched.runQueue[i]])) by {
        forall i | 0 <= i < old(sched.size)
          ensures old(Live(procs.slots[sched.runQueue[i]]))
        {
          assert old(sched.runQueue[..sched.size][i]) == old(sched.runQueue[i]);
        }
      }
      sched.Undisturbed();
    }

    /** sys_yield. */
    method SysYield()
      requires Valid()
      modifies procs`force, procs.slots
      ensures Valid() && Value() == Spec.YieldCall(old(Value()))
    {
      if procs.current.Some? {
        var c := procs.current.value;
        Found(c);
        Put(c, procs.slots[c].(state := State.Ready));
        Force();
      }
    }

    // ---------------------------------------------------------------- leaving the kernel

    method SaveRax(r: int)
      requires Valid()
      modifies procs.slots
      ensures Valid() && Value() == Spec.SaveRax(old(Value()), r)
    {
      if procs.current.Some? {
        var c := procs.current.value;
        Found(c);
        Put(c, procs.slots[c].(savedRax := r));
      }
    }

    /** The end of every interrupt handler but the timer's. */
    method Leave()
      requires Valid() && Spec.Shape(Value())
      modifies procs`current, procs`force, procs.slots, sched`size, sched`idx, sched.runQueue, this`blocks,
        this`badFrees
      ensures Valid() && Value() == Spec.Leave(old(Value()))
    {
      if procs.force {
        procs.force := false;
        sched.Undisturbed();
        YieldImpl();
      }
    }
  }

  /** The table after the aging loop, by pid. */
  lemma AgedIs(t: seq<Pcb>, t': seq<Pcb>, q: seq<nat>, cur: Option<nat>)
    requires UniquePids(t) && SlotsOk(t, q) && |t'| == |t| && (cur.Some? ==> cur.value < |t| && Live(t[cur.value]))
    requires forall i :: 0 <= i < |t| ==> t'[i] == Older(t[i], i in q && cur != Some(i))
    ensures UniquePids(t') && SamePids(t, t')
    ensures ByPid(t') == Spec.AgedProcs(ByPid(t), PidsOf(t, q), if cur.Some? then Some(t[cur.value].pid) else None)
  {
    var m := Spec.AgedProcs(ByPid(t), PidsOf(t, q), if cur.Some? then Some(t[cur.value].pid) else None);
    SamePidsUnique(t, t');
    forall p ensures HasPid(t', p) <==> p in m { PidsIs(t, p); }
    forall i: nat | i < |t'| && Live(t'[i]) ensures t'[i].pid in m && m[t'[i].pid] == t'[i] { AgedSlot(t, q, cur, i); }
    ByPidIs(t', m);
  }

  lemma AgedSlot(t: seq<Pcb>, q: seq<nat>, cur: Option<nat>, i: nat)
    requires UniquePids(t) && SlotsOk(t, q) && (cur.Some? ==> cur.value < |t| && Live(t[cur.value])) && i < |t|
    requires Live(t[i])
    ensures t[i].pid in ByPid(t) && ByPid(t)[t[i].pid] == t[i]
    ensures t[i].pid in PidsOf(t, q) <==> i in q
    ensures cur == Some(i) <==> cur.Some? && t[cur.value].pid == t[i].pid
  {
    ByPidAt(t, i);
    if t[i].pid in PidsOf(t, q) {
      var k :| 0 <= k < |q| && PidsOf(t, q)[k] == t[i].pid;
      SamePid(t, i, q[k]);
    }
    if i in q {
      var k :| 0 <= k < |q| && q[k] == i;
      assert PidsOf(t, q)[k] == t[i].pid;
    }
    if cur.Some? && t[cur.value].pid == t[i].pid { SamePid(t, i, cur.value); }
  }
}
