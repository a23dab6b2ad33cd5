/**
 What a system call leaves for its caller and for everybody else: the result in the caller's saved RAX slot, the child
 a creation makes, and what the calls on processes answer and do.
 */
module CallResults {
  import opened Processes
  import opened Scheduler
  import opened KernelSpec
  import opened KernelTheorems
  import opened KernelRuns

  // ---------------------------------------------------------------- the saved RAX slot

  /** p waits for x, which ends. */
  predicate WaitsOn(k: Kernel, p: nat, x: nat)
    requires p in Tab(k)
  {
    Tab(k)[p].waitingFor == x && x != 0
  }

  /** What p, alive before and after the entry, finds in its saved RAX slot. */
  ghost function SlotAfter(k: Kernel, e: Event, p: nat): int
    requires KernelInv(k) && Enabled(k, e) && p in Tab(k)
  {
    if e.Syscall? && Cur(k) == Some(p) then Called(k, e.call, e.rax).1
    else if e.Syscall? && e.call.Exit? && WaitsOn(k, p, Cur(k).value) then e.call.retval
    else if Victim(k, e).Some? && WaitsOn(k, p, Victim(k, e).value) then -1
    else Tab(k)[p].savedRax
  }

  predicate SameSlot(k: Kernel, k': Kernel, p: nat) {
    p in Tab(k) && (p in Tab(k') ==> Tab(k')[p].savedRax == Tab(k)[p].savedRax)
  }

  lemma LeaveSlot(k: Kernel, p: nat)
    requires Shape(k) && p in Tab(k)
    ensures SameSlot(k, Leave(k), p)
  {
    if k.view.force {
      var k0 := k.(view := k.view.(force := false));
      SwitchTab(Pause(k0), p);
    }
  }

  lemma TickSlot(k: Kernel, p: nat)
    requires KernelInv(k) && p in Tab(k)
    ensures Shape(k) && SameSlot(k, Tick(k), p)
  {
    TickSame(k, p);
  }

  lemma WakeSlot(k: Kernel, x: nat, v: int, p: nat)
    requires Mid(k) && x in Tab(k) && p in Tab(k)
    ensures p in Tab(WakeParent(k, x, v))
    ensures Tab(WakeParent(k, x, v))[p].savedRax == if WaitsOn(k, p, x) then v else Tab(k)[p].savedRax
  {
    assert WaitOk(Tab(k), p) && PcbOk(Tab(k)[x], x, k.nextPid);
  }

  lemma SoftSlot(v: View, v': View, p: nat)
    requires Soft(v, v') && p in v.procs
    ensures p in v'.procs && v'.procs[p].savedRax == v.procs[p].savedRax
    ensures v'.procs[p].waitingFor == v.procs[p].waitingFor && v'.procs[p].retval == v.procs[p].retval
  {
    assert SoftAt(v, v', p);
  }

  /** An exit leaves its value for the parent that waits for it, and no other trace in anybody's slot. */
  lemma ExitSlot(k: Kernel, v: int, cleaned: View, p: nat)
    requires KernelInv(k) && CallLegal(k, Exit(v, cleaned)) && p in Tab(k)
    ensures var k1 := ExitEnd(k.(view := cleaned), v);
            && p in Tab(k1)
            && Tab(k1)[p].savedRax == if WaitsOn(k, p, Cur(k).value) then v else Tab(k)[p].savedRax
  {
    var x := Cur(k).value;
    SetRetvalKeeps(k, x, v);
    SoftKeeps(SetRetval(k, x, v), cleaned);
    SoftSlot(SetRetval(k, x, v).view, cleaned, p);
    WakeSlot(k.(view := cleaned), x, v, p);
  }

  lemma KillSlot(k: Kernel, x: nat, cleaned: View, released: View, p: nat)
    requires KernelInv(k) && KillLegal(k, x, cleaned, released) && Killable(k, x) && p in Tab(k)
    ensures var k1 := Killed(k, x, cleaned, released);
            p in Tab(k1) ==> Tab(k1)[p].savedRax == if WaitsOn(k, p, x) then -1 else Tab(k)[p].savedRax
  {
    SetRetvalKeeps(k, x, -1);
    SoftKeeps(SetRetval(k, x, -1), cleaned);
    SoftSlot(SetRetval(k, x, -1).view, cleaned, p);
    var k1 := k.(view := cleaned);
    assert k1 == SetRetval(k, x, -1).(view := cleaned);
    WakeSlot(k1, x, -1, p);
    assert p in Tab(KillMiddle(k1, x));
    SoftSlot(KillMiddle(k1, x).view, released, p);
  }

  /** Before the result is stored, a call has changed no slot but that of a parent whose child it ends. */
  lemma CalledSlot(k: Kernel, call: Call, rax: int, p: nat)
    requires KernelInv(k) && Enabled(k, Syscall(call, rax)) && p in Tab(k) && Cur(k) != Some(p)
    ensures var k1 := Called(k, call, rax).0;
            p in Tab(k1) ==> Tab(k1)[p].savedRax == SlotAfter(k, Syscall(call, rax), p)
  {
    match call
    case Creation(fg, wantsArgs, stack, args) =>
      assert PcbOk(Tab(k)[p], p, k.nextPid);
      if Create(k, fg, wantsArgs, stack, args).1 == -1 {
        CreateFails(k, fg, wantsArgs, stack, args);
      } else {
        CreateIs(k, fg, wantsArgs, stack, args);
      }
    case Exit(v, cleaned) => ExitSlot(k, v, cleaned, p);
    case Kill(x, cleaned, released) => if Killable(k, x) { KillSlot(k, x, cleaned, released, p); }
    case WaitFor(x) => WaitPidKeeps(k, x);
    case Service(after, _) => SoftSlot(k.view, after, p);
    case _ =>
  }

  /** Whatever the entry into the kernel: whoever lives on finds in its saved RAX slot the result of the call it has
      made; a parent that was waiting finds what its child left, or -1 if it was killed; nobody else finds anything
      new. */
  lemma SlotIs(k: Kernel, e: Event, p: nat)
    requires KernelInv(k) && Enabled(k, e) && p in Tab(k) && p in Tab(KernelTheorems.After(k, e))
    ensures Tab(KernelTheorems.After(k, e))[p].savedRax == SlotAfter(k, e, p)
  {
    match e
    case Timer => TickSlot(k, p);
    case Keyboard(after) =>
      SoftKeeps(k, after);
      SoftSlot(k.view, after, p);
      LeaveKeeps(k.(view := after));
      LeaveSlot(k.(view := after), p);
    case CtrlC(cleaned, released) =>
      if |Foreground(Tab(k))| > 1 {
        var x := Newest(Tab(k), k.nextPid);
        KilledKeeps(k, x, cleaned, released);
        var k1 := Killed(k, x, cleaned, released);
        LeaveKeeps(k1);
        if Killable(k, x) { KillSlot(k, x, cleaned, released, p); }
        if p in Tab(k1) { LeaveSlot(k1, p); } else { KeysShrink(k1, p); }
      }
    case Syscall(call, rax) => CallSlot(k, call, rax, p);
  }

  lemma CallSlot(k: Kernel, call: Call, rax: int, p: nat)
    requires KernelInv(k) && Enabled(k, Syscall(call, rax)) && p in Tab(k)
    requires p in Tab(KernelTheorems.After(k, Syscall(call, rax)))
    ensures Tab(KernelTheorems.After(k, Syscall(call, rax)))[p].savedRax == SlotAfter(k, Syscall(call, rax), p)
  {
    var (k1, r) := Called(k, call, rax);
    CallKeeps(k, call, rax);
    CurStays(k, call, rax);
    SaveRaxKeeps(k1, r);
    LeaveKeeps(SaveRax(k1, r));
    if Cur(k) != Some(p) { CalledSlot(k, call, rax, p); }
    if p in Tab(k1) {
      LeaveSlot(SaveRax(k1, r), p);
    } else {
      KeysShrink(SaveRax(k1, r), p);
    }
  }

  // ---------------------------------------------------------------- creation

  predicate CanCreate(k: Kernel, wantsArgs: bool, stack: Option<nat>, args: Option<nat>) {
    |Tab(k)| < MAX_PROCESSES && stack.Some? && (wantsArgs ==> args.Some?)
  }

  /** A child as it begins. */
  predicate IsNewborn(b: Pcb, pid: nat, parent: nat, fg: nat, stack: Option<nat>, argv: Option<nat>) {
    && b.pid == pid && b.parent == parent && b.foreground == fg
    && b.state == (if (fg / 2) % 2 == 1 then Blocked else State.Ready)
    && b.priority == b.quanta == 3 && b.waitTicks == 0 && b.waitingFor == 0 && b.retval == 0
    && b.stdin == 0 && b.stdout == 1 && b.heldSems == {} && b.openedSems == {}
    && b.stack == stack && b.argv == argv
  }

  /** A call that asks for no switch changes what its own code changes, and the slot of its caller. */
  lemma CalmCall(k: Kernel, call: Call, rax: int)
    requires KernelInv(k) && Enabled(k, Syscall(call, rax)) && !Called(k, call, rax).0.view.force
    ensures KernelInv(KernelTheorems.After(k, Syscall(call, rax)))
    ensures KernelTheorems.After(k, Syscall(call, rax)) == SaveRax(Called(k, call, rax).0, Called(k, call, rax).1)
    ensures Cur(KernelTheorems.After(k, Syscall(call, rax))) == Cur(k)
  {
    StepKeeps(k, Syscall(call, rax));
    CurStays(k, call, rax);
  }

  /** A creation answers with the pid of a new process, the child of the caller, if there is room and memory; else with
      -1, and nothing has changed. */
  lemma CreationIs(k: Kernel, fg: nat, wantsArgs: bool, stack: Option<nat>, args: Option<nat>, rax: int)
    requires KernelInv(k) && Enabled(k, Syscall(Creation(fg, wantsArgs, stack, args), rax))
    ensures var c := Cur(k).value;
            var k' := KernelTheorems.After(k, Syscall(Creation(fg, wantsArgs, stack, args), rax));
            var p := k.nextPid + 1;
            && c in Tab(k) && p !in Tab(k) && Cur(k') == Cur(k)
            && KernelInv(k')
            && (CanCreate(k, wantsArgs, stack, args) ==>
                && Tab(k').Keys == Tab(k).Keys + {p} && Tab(k')[c] == Tab(k)[c].(savedRax := p)
                && IsNewborn(Tab(k')[p], p, c, fg, stack, if wantsArgs then args else None) && k'.queue.idle != Some(p))
            && (!CanCreate(k, wantsArgs, stack, args) ==>
                Tab(k') == Tab(k)[c := Tab(k)[c].(savedRax := -1)] && k'.queue == k.queue && k'.blocks == k.blocks)
            && forall q :: q in Tab(k) && q != c ==> q in Tab(k') && Tab(k')[q] == Tab(k)[q]
  {
    CreateCalled(k, fg, wantsArgs, stack, args);
    CalmCall(k, Creation(fg, wantsArgs, stack, args), rax);
  }

  /** The call's own code. */
  lemma CreateCalled(k: Kernel, fg: nat, wantsArgs: bool, stack: Option<nat>, args: Option<nat>)
    requires KernelInv(k) && FreshBlocks(k, stack, args)
    ensures var c := Cur(k).value;
            var (k1, r) := Create(k, fg, wantsArgs, stack, args);
            var p := k.nextPid + 1;
            && c in Tab(k) && p !in Tab(k) && Cur(k1) == Cur(k) && !k1.view.force && k1.queue.idle == k.queue.idle
            && k.queue.idle != Some(p)
            && (CanCreate(k, wantsArgs, stack, args) ==>
                && r == p && Tab(k1) == Tab(k)[p := Tab(k1)[p]] && p in Tab(k1)
                && IsNewborn(Tab(k1)[p], p, c, fg, stack, if wantsArgs then args else None))
            && (!CanCreate(k, wantsArgs, stack, args) ==> r == -1 && k1 == k)
  {
    var p := k.nextPid + 1;
    assert p in Tab(k) ==> PcbOk(Tab(k)[p], p, k.nextPid);
    if CanCreate(k, wantsArgs, stack, args) {
      CreateIs(k, fg, wantsArgs, stack, args);
    } else {
      CreateFails(k, fg, wantsArgs, stack, args);
    }
  }

  // ---------------------------------------------------------------- waiting for a child

  /** Waiting for what does not exist answers -1 at once; waiting for a live child puts the caller to sleep, with 0 in
      its slot for the time being. */
  lemma WaitForIs(k: Kernel, p: nat, rax: int)
    requires KernelInv(k) && Enabled(k, Syscall(WaitFor(p), rax))
    ensures var c := Cur(k).value;
            var k' := KernelTheorems.After(k, Syscall(WaitFor(p), rax));
            && c in Tab(k) && c in Tab(k')
            && (p in Tab(k) ==> WaitsFor(k', c, p, 0) && Tab(k')[c].state == Blocked && Cur(k') != Cur(k))
            && (p !in Tab(k) ==> Tab(k') == Tab(k)[c := Tab(k)[c].(savedRax := -1)] && Cur(k') == Cur(k))
  {
    var c := Cur(k).value;
    var e := Syscall(WaitFor(p), rax);
    StepKeeps(k, e);
    if p in Tab(k) {
      assert PcbOk(Tab(k)[p], p, k.nextPid);
      WaitPidKeeps(k, p);
      WaiterSleeps(k, p, rax);
    } else {
      CalmCall(k, WaitFor(p), rax);
    }
  }

  lemma WaiterSleeps(k: Kernel, p: nat, rax: int)
    requires KernelInv(k) && Enabled(k, Syscall(WaitFor(p), rax)) && p in Tab(k) && p != 0
    ensures var k' := KernelTheorems.After(k, Syscall(WaitFor(p), rax));
            KernelInv(k') && WaitsFor(k', Cur(k).value, p, 0) && Tab(k')[Cur(k).value].state == Blocked
              && Cur(k') != Cur(k)
  {
    var c := Cur(k).value;
    var k' := KernelTheorems.After(k, Syscall(WaitFor(p), rax));
    var k1 := Called(k, WaitFor(p), rax).0;
    WaitPidKeeps(k, p);
    CallKeeps(k, WaitFor(p), rax);
    SaveRaxKeeps(k1, 0);
    LeaveKeeps(SaveRax(k1, 0));
    LeaveSame(SaveRax(k1, 0), c);
    assert WaitOk(Tab(k'), c);
    OneRuns(k');
  }

  // ---------------------------------------------------------------- ends

  /** p has been woken with v in its slot, and has not waited for the CPU yet. */
  predicate JustWoken(k: Kernel, p: nat, v: int) { Woken(k, p, v) && Tab(k)[p].waitTicks == 0 }

  lemma LeaveWoken(k: Kernel, p: nat, v: int)
    requires Shape(k) && JustWoken(k, p, v) && IsReady(Tab(k)[p]) && Cur(k) != Some(p)
    ensures JustWoken(Leave(k), p, v)
  {
    if k.view.force {
      var k0 := k.(view := k.view.(force := false));
      SwitchTab(Pause(k0), p);
    }
  }

  lemma WakesJust(k: Kernel, x: nat, v: int, p: nat)
    requires Mid(k) && x in Tab(k) && p in Tab(k) && WaitsOn(k, p, x)
    ensures JustWoken(WakeParent(k, x, v), p, v) && IsReady(Tab(WakeParent(k, x, v))[p]) && p != x
    ensures WakeParent(k, x, v).queue == k.queue && Cur(WakeParent(k, x, v)) == Cur(k)
  {
    assert WaitOk(Tab(k), p);
  }

  lemma ExitWakes(k: Kernel, v: int, cleaned: View, p: nat)
    requires KernelInv(k) && CallLegal(k, Exit(v, cleaned)) && p in Tab(k) && WaitsOn(k, p, Cur(k).value)
    ensures var k1 := ExitEnd(k.(view := cleaned), v);
            JustWoken(k1, p, v) && IsReady(Tab(k1)[p]) && Cur(k1) == Cur(k) != Some(p)
  {
    var x := Cur(k).value;
    SetRetvalKeeps(k, x, v);
    SoftKeeps(SetRetval(k, x, v), cleaned);
    SoftSlot(SetRetval(k, x, v).view, cleaned, p);
    WakesJust(k.(view := cleaned), x, v, p);
  }

  lemma ExitGoes(k: Kernel, v: int, cleaned: View, rax: int)
    requires KernelInv(k) && Enabled(k, Syscall(Exit(v, cleaned), rax))
    ensures Cur(k).value !in Tab(KernelTheorems.After(k, Syscall(Exit(v, cleaned), rax)))
  {
    CallKeeps(k, Exit(v, cleaned), rax);
    var k1 := ExitEnd(k.(view := cleaned), v);
    SaveRaxKeeps(k1, rax);
    ZombieLeaves(SaveRax(k1, rax));
  }

  /** Who exits is gone, and a parent that waited for it is awake with the value. */
  lemma ExitIs(k: Kernel, v: int, cleaned: View, rax: int)
    requires KernelInv(k) && Enabled(k, Syscall(Exit(v, cleaned), rax))
    ensures var k' := KernelTheorems.After(k, Syscall(Exit(v, cleaned), rax));
            && Cur(k).value !in Tab(k')
            && forall p {:trigger WaitsOn(k, p, Cur(k).value)} :: p in Tab(k) && WaitsOn(k, p, Cur(k).value) ==>
                 JustWoken(k', p, v)
  {
    var k' := KernelTheorems.After(k, Syscall(Exit(v, cleaned), rax));
    ExitGoes(k, v, cleaned, rax);
    forall p | p in Tab(k) && WaitsOn(k, p, Cur(k).value)
      ensures JustWoken(k', p, v)
    {
      ExitJust(k, v, cleaned, rax, p);
    }
  }

  lemma ExitJust(k: Kernel, v: int, cleaned: View, rax: int, p: nat)
    requires KernelInv(k) && Enabled(k, Syscall(Exit(v, cleaned), rax)) && p in Tab(k) && WaitsOn(k, p, Cur(k).value)
    ensures JustWoken(KernelTheorems.After(k, Syscall(Exit(v, cleaned), rax)), p, v)
  {
    ExitWakes(k, v, cleaned, p);
    CallKeeps(k, Exit(v, cleaned), rax);
    var k1 := ExitEnd(k.(view := cleaned), v);
    SaveRaxKeeps(k1, rax);
    LeaveKeeps(SaveRax(k1, rax));
    LeaveWoken(SaveRax(k1, rax), p, v);
  }

  /** What the dying process itself is left with. */
  lemma ExitRetval(k: Kernel, v: int, cleaned: View)
    requires KernelInv(k) && CallLegal(k, Exit(v, cleaned))
    ensures var b := Tab(ExitEnd(k.(view := cleaned), v));
            Cur(k).value in b && b[Cur(k).value].state == Zombie && b[Cur(k).value].retval == v
  {
    var x := Cur(k).value;
    SoftSlot(SetRetval(k, x, v).view, cleaned, x);
  }

  // ---------------------------------------------------------------- kills

  lemma KillWakes(k: Kernel, x: nat, cleaned: View, released: View, p: nat)
    requires KernelInv(k) && KillLegal(k, x, cleaned, released) && Killable(k, x) && p in Tab(k) && WaitsOn(k, p, x)
    ensures var k1 := Killed(k, x, cleaned, released);
            JustWoken(k1, p, -1) && IsReady(Tab(k1)[p]) && Cur(k1) == Cur(k) != Some(p)
  {
    SetRetvalKeeps(k, x, -1);
    SoftKeeps(SetRetval(k, x, -1), cleaned);
    SoftSlot(SetRetval(k, x, -1).view, cleaned, p);
    var k1 := k.(view := cleaned);
    assert k1 == SetRetval(k, x, -1).(view := cleaned);
    assert WaitOk(Tab(k), p) && StateAt(k.view, p);
    WakesJust(k1, x, -1, p);
    var k2 := KillMiddle(k1, x);
    assert p in Tab(k2) && JustWoken(k2, p, -1);
    assert SoftAt(k2.view, released, p);
  }

  /** Whoever is killed is off the table at the end of the kill, or a zombie if it is the current process. */
  lemma KillEnds(k: Kernel, x: nat, cleaned: View, released: View)
    requires KernelInv(k) && KillLegal(k, x, cleaned, released) && Killable(k, x)
    ensures var k1 := Killed(k, x, cleaned, released);
            && Cur(k1) == Cur(k) && (Cur(k) != Some(x) ==> x !in Tab(k1)) && (Cur(k) == Some(x) ==> CurIs(k1, Zombie))
  {
    var k2 := KillMiddle(k.(view := cleaned), x);
    assert x in Tab(k2);
    assert SoftAt(k2.view, released, x);
  }

  /** The end of a kill, as a system call or not. */
  ghost function Depart(k: Kernel, rax: Option<int>): Kernel
    requires Mid(k)
  {
    var k1 := if rax.Some? then SaveRax(k, rax.value) else k;
    if rax.Some? then SaveRaxKeeps(k, rax.value); LeaveKeeps(k1); Leave(k1) else LeaveKeeps(k1); Leave(k1)
  }

  lemma KillDeparts(k: Kernel, x: nat, cleaned: View, released: View, rax: Option<int>)
    requires KernelInv(k) && KillLegal(k, x, cleaned, released) && Killable(k, x)
    requires Mid(Killed(k, x, cleaned, released))
    ensures x !in Tab(Depart(Killed(k, x, cleaned, released), rax))
  {
    var k1 := Killed(k, x, cleaned, released);
    KillEnds(k, x, cleaned, released);
    if rax.Some? { SaveRaxKeeps(k1, rax.value); }
    var k2 := if rax.Some? then SaveRax(k1, rax.value) else k1;
    LeaveKeeps(k2);
    if Cur(k) == Some(x) { ZombieLeaves(k2); } else { KeysShrink(k2, x); }
  }

  lemma KillDepartsWoken(k: Kernel, x: nat, cleaned: View, released: View, rax: Option<int>, p: nat)
    requires KernelInv(k) && KillLegal(k, x, cleaned, released) && Killable(k, x)
    requires Mid(Killed(k, x, cleaned, released))
    requires p in Tab(k) && WaitsOn(k, p, x)
    ensures JustWoken(Depart(Killed(k, x, cleaned, released), rax), p, -1)
  {
    var k1 := Killed(k, x, cleaned, released);
    KillWakes(k, x, cleaned, released, p);
    if rax.Some? { SaveRaxKeeps(k1, rax.value); }
    var k2 := if rax.Some? then SaveRax(k1, rax.value) else k1;
    LeaveKeeps(k2);
    LeaveWoken(k2, p, -1);
  }

  /** The newest of the processes in the foreground. */
  lemma {:induction false} NewestIs(ps: Procs, n: nat)
    ensures var x := Newest(ps, n);
            && (x == 0 || (x <= n && x in ps && ps[x].foreground != 0))
            && forall p :: p in ps && x < p <= n ==> ps[p].foreground == 0
    decreases n
  {
    if n > 0 { NewestIs(ps, n - 1); }
  }

  /** A kill, and Ctrl+C unless there is only one process in the foreground, does away with its victim, which for Ctrl+C
      is the newest in the foreground; a parent that waited for it is awake with -1. */
  lemma VictimGoes(k: Kernel, e: Event)
    requires KernelInv(k) && Enabled(k, e) && Victim(k, e).Some?
    ensures var k' := KernelTheorems.After(k, e);
            var x := Victim(k, e).value;
            && x in Tab(k) && x !in Tab(k')
            && (e.CtrlC? ==> Tab(k)[x].foreground != 0 && forall p :: p in Tab(k) && p > x ==>
                Tab(k)[p].foreground == 0)
            && forall p {:trigger WaitsOn(k, p, x)} :: p in Tab(k) && WaitsOn(k, p, x) ==> JustWoken(k', p, -1)
  {
    var x := Victim(k, e).value;
    var (cleaned, released) := if e.CtrlC? then (e.cleaned, e.released) else (e.call.cleaned, e.call.released);
    var rax := if e.CtrlC? then None else Some(e.rax);
    KilledKeeps(k, x, cleaned, released);
    var k1 := Killed(k, x, cleaned, released);
    assert KernelTheorems.After(k, e) == Depart(k1, rax);
    KillDeparts(k, x, cleaned, released, rax);
    if e.CtrlC? {
      NewestIs(Tab(k), k.nextPid);
      forall p | p in Tab(k) && p > x ensures Tab(k)[p].foreground == 0 { assert PcbOk(Tab(k)[p], p, k.nextPid); }
      assert PcbOk(Tab(k)[x], x, k.nextPid);
    }
    forall p | p in Tab(k) && WaitsOn(k, p, x) ensures JustWoken(Depart(k1, rax), p, -1) {
      KillDepartsWoken(k, x, cleaned, released, rax, p);
    }
  }

  /** And there is a victim whenever there is more than one process in the foreground. */
  lemma CtrlCHits(k: Kernel, cleaned: View, released: View)
    requires KernelInv(k) && |Foreground(Tab(k))| > 1
    ensures Victim(k, CtrlC(cleaned, released)).Some?
  {
    NewestIs(Tab(k), k.nextPid);
    var x := Newest(Tab(k), k.nextPid);
    assert Foreground(Tab(k)) != {};
    var p :| p in Foreground(Tab(k));
    assert PcbOk(Tab(k)[p], p, k.nextPid);
    assert StateAt(k.view, x);
    OneRuns(k);
  }

  // ---------------------------------------------------------------- sys_block, sys_unblock, nice

  /** sys_block blocks whoever is awake, and wakes whoever is blocked, unless it waits for a child. */
  lemma BlockIs(k: Kernel, p: nat, rax: int)
    requires KernelInv(k) && Enabled(k, Syscall(Block(p), rax)) && k.queue.idle != Some(p)
    ensures var k' := KernelTheorems.After(k, Syscall(Block(p), rax));
            && (p !in Tab(k) ==> Called(k, Block(p), rax).1 == -1 && Cur(k') == Cur(k))
            && (p in Tab(k) && Tab(k)[p].waitingFor != 0 ==>
                Called(k, Block(p), rax).1 == -1 && p in Tab(k') && Tab(k')[p] == Tab(k)[p])
            && (p in Tab(k) && Tab(k)[p].waitingFor == 0 ==>
                && Called(k, Block(p), rax).1 == 0 && p in Tab(k')
                && (Tab(k)[p].state == Blocked <==> Tab(k')[p].state != Blocked))
  {
    OneRuns(k);
    CallKeeps(k, Block(p), rax);
    StepKeeps(k, Syscall(Block(p), rax));
    if p in Tab(k) {
      assert WaitOk(Tab(k), p) && StateAt(k.view, p);
      BlockedLeaves(k, p, rax);
    } else {
      CalmCall(k, Block(p), rax);
    }
  }

  lemma BlockedLeaves(k: Kernel, p: nat, rax: int)
    requires KernelInv(k) && Enabled(k, Syscall(Block(p), rax)) && k.queue.idle != Some(p) && p in Tab(k)
    ensures var k' := KernelTheorems.After(k, Syscall(Block(p), rax));
            var b := Tab(Called(k, Block(p), rax).0);
            && p in Tab(k') && p in b && (b[p].state == Blocked <==> Tab(k')[p].state == Blocked)
            && (Tab(k)[p].waitingFor != 0 ==> Tab(k')[p] == Tab(k)[p])
  {
    var (k1, r) := Called(k, Block(p), rax);
    CallKeeps(k, Block(p), rax);
    SaveRaxKeeps(k1, r);
    LeaveKeeps(SaveRax(k1, r));
    OneRuns(k);
    assert WaitOk(Tab(k), p) && StateAt(k1.view, p);
    LeaveBlocked(SaveRax(k1, r), p);
  }

  /** Leaving the kernel neither blocks nor wakes anybody but idle. */
  lemma LeaveBlocked(k: Kernel, p: nat)
    requires Mid(k) && p in Tab(k) && k.queue.idle != Some(p) && Tab(k)[p].state != Zombie
    ensures p in Tab(Leave(k)) && (Tab(Leave(k))[p].state == Blocked <==> Tab(k)[p].state == Blocked)
    ensures Tab(k)[p].state == Blocked && Cur(k) != Some(p) ==> Tab(Leave(k))[p] == Tab(k)[p]
  {
    LeaveKeeps(k);
    if k.view.force { SwitchBlocked(Pause(k.(view := k.view.(force := false))), p); }
  }

  lemma SwitchBlocked(k: Kernel, p: nat)
    requires Shape(k) && p in Tab(k) && k.queue.idle != Some(p) && Tab(k)[p].state != Zombie
    ensures p in Tab(Switch(k)) && (Tab(Switch(k))[p].state == Blocked <==> Tab(k)[p].state == Blocked)
    ensures Tab(k)[p].state == Blocked ==> Tab(Switch(k))[p] == Tab(k)[p]
  {
    ChosenIsReady(Tab(k), k.queue);
    var (next, q) := NextReady(Tab(k), k.queue);
    if next.Some? && CurIs(k, Zombie) { BuryTab(k.(queue := Remove(q, Cur(k).value)), Cur(k).value); }
  }

  /** sys_unblock wakes whoever is blocked, and else changes nothing. */
  lemma UnblockIs(k: Kernel, p: nat, rax: int)
    requires KernelInv(k) && Enabled(k, Syscall(Unblock(p), rax)) && p in Tab(k) && Tab(k)[p].state == Blocked
    ensures var k' := KernelTheorems.After(k, Syscall(Unblock(p), rax));
            p in Tab(k') && Tab(k')[p].state in {State.Ready, Running} && Tab(k')[p].waitTicks == 0
  {
    var k1 := Called(k, Unblock(p), rax).0;
    CallKeeps(k, Unblock(p), rax);
    SaveRaxKeeps(k1, rax);
    LeaveKeeps(SaveRax(k1, rax));
    OneRuns(k);
    LeaveWoken(SaveRax(k1, rax), p, Tab(k)[p].savedRax);
  }

  /** The priority a process has after nice, of which the lowest byte counts. */
  predicate IsNiced(n: nat, r: nat) {
    var m := n % 256;
    MIN_PRIORITY <= r <= MAX_PRIORITY && (if m < 1 then r == 1 else if m > 5 then r == 5 else r == m)
  }

  lemma NiceIs(k: Kernel, p: nat, n: nat, rax: int)
    requires KernelInv(k) && Enabled(k, Syscall(Renice(p, n), rax))
    ensures var k' := KernelTheorems.After(k, Syscall(Renice(p, n), rax));
            && Cur(k') == Cur(k) && Tab(k').Keys == Tab(k).Keys
            && (p in Tab(k) ==>
                && IsNiced(n, Tab(k')[p].priority) && Tab(k')[p].quanta == Tab(k')[p].priority
                && Tab(k')[p].waitTicks == 0
                && Tab(k')[p].state == Tab(k)[p].state)
            && forall q :: q in Tab(k) && q != p && Cur(k) != Some(q) ==> Tab(k')[q] == Tab(k)[q]
  {
    CalmCall(k, Renice(p, n), rax);
    assert Tab(KernelTheorems.After(k, Syscall(Renice(p, n), rax))).Keys == Tab(k).Keys;
  }

  // ---------------------------------------------------------------- the timer

  /** The PCB of one not on the CPU, after a tick: dispatched; a tick older, if it is ready; or as it was. */
  function Ticked(b: Pcb, runs: bool, ages: bool): Pcb {
    if runs then b.(waitTicks := 0, state := Running) else if ages then b.(waitTicks := b.waitTicks + 1) else b
  }

  lemma SwitchOne(k: Kernel, p: nat)
    requires Shape(k) && p in Tab(k) && !CurIs(k, Zombie) && NextReady(Tab(k), k.queue).0.Some?
    ensures p in Tab(Switch(k))
    ensures Tab(Switch(k))[p] == Ticked(Tab(k)[p], Cur(Switch(k)) == Some(p), false)
  {
    ChosenIsReady(Tab(k), k.queue);
  }

  /** A tick: the current process has one tick less of its turn, or its turn is over and restored and the CPU goes to
      the one chosen; of the others just those that are ready, and are not idle, have waited one tick more. */
  lemma TickIs(k: Kernel, p: nat)
    requires KernelInv(k) && p in Tab(k)
    ensures var k' := KernelTheorems.After(k, Timer);
            var b := Tab(k)[p];
            && p in Tab(k')
            && (Cur(k) != Some(p) ==>
                Tab(k')[p] == Ticked(b, Cur(k') == Some(p), k.queue.idle != Some(p) && IsReady(b)))
            && (Cur(k) == Some(p) && b.quanta > 1 ==> Cur(k') == Cur(k) && Tab(k')[p] == b.(quanta := b.quanta - 1))
            && (Cur(k) == Some(p) && b.quanta == 1 ==>
                Tab(k')[p] == Ticked(b.(state := State.Ready, quanta := b.priority), Cur(k') == Some(p), false))
  {
    TickKeeps(k);
    AgedKeeps(k);
    OneRuns(k);
    var c := Cur(k).value;
    assert StateAt(k.view, c) && StateAt(Aged(k).view, c) && WaitOk(Tab(Aged(k)), c);
    assert p in k.queue.pids <==> k.queue.idle != Some(p);
    if Tab(k)[c].quanta <= 1 {
      var b := Tab(Aged(k))[c].(state := State.Ready, quanta := Tab(Aged(k))[c].priority);
      var k1 := With(Aged(k), c, b);
      OwnChange(Aged(k), b);
      ChoiceOk(k1);
      SwitchOne(k1, p);
    }
  }

  // ---------------------------------------------------------------- a child and its parent

  /** Whoever has created a process may wait for it, and then does. */
  lemma ChildIsAwaited(k: Kernel, fg: nat, wantsArgs: bool, stack: Option<nat>, args: Option<nat>, rax: int)
    requires KernelInv(k) && Enabled(k, Syscall(Creation(fg, wantsArgs, stack, args), rax))
    requires CanCreate(k, wantsArgs, stack, args)
    ensures var k1 := KernelTheorems.After(k, Syscall(Creation(fg, wantsArgs, stack, args), rax));
            var e := Syscall(WaitFor(k.nextPid + 1), rax);
            && KernelInv(k1) && Enabled(k1, e)
            && WaitsFor(KernelTheorems.After(k1, e), Cur(k).value, k.nextPid + 1, 0)
  {
    CreationIs(k, fg, wantsArgs, stack, args, rax);
    WaitForIs(KernelTheorems.After(k, Syscall(Creation(fg, wantsArgs, stack, args), rax)), k.nextPid + 1, rax);
  }

  function Create3(stack: nat): Event { Syscall(Creation(1, false, Some(stack), None), 0) }

  const Wait3: Event := Syscall(WaitFor(3), 0)

  function Exit3(k: Kernel, v: int): Event
    requires 3 in Tab(k)
  {
    Syscall(Exit(v, SetRetval(k, 3, v).view), 0)
  }

  /** The shell waits for its child, 3, which is the only one that can run. */
  lemma ChildRuns(k: Kernel)
    requires KernelInv(k) && Cur(k) == Some(2) && k.queue == RunQueue([2, 3], 0, Some(1)) && 2 in Tab(k) && 3 in Tab(k)
    requires Tab(k)[3].parent == 2 && IsReady(Tab(k)[3])
    ensures Enabled(k, Wait3)
    ensures var k' := KernelTheorems.After(k, Wait3);
            KernelInv(k') && WaitsFor(k', 2, 3, 0) && Cur(k') == Some(3) && k'.queue.idle == Some(1) && 3 in Tab(k')
  {
    WaitForIs(k, 3, 0);
    StepKeeps(k, Wait3);
    OneRuns(k);
    WaitPidKeeps(k, 3);
    var k1 := SaveRax(WaitPid(k, 3).0, 0);
    SaveRaxKeeps(WaitPid(k, 3).0, 0);
    LeaveIdle(k1);
    var k2 := Pause(k1.(view := k1.view.(force := false)));
    assert k2.queue.pids[1] == 3 && IsReady(Tab(k2)[3]) && Tab(k2)[2].state == Blocked;
    Selection(Tab(k2), k2.queue);
  }

  lemma ChildExits(k: Kernel, v: int)
    requires KernelInv(k) && WaitsFor(k, 2, 3, 0) && Cur(k) == Some(3) && k.queue.idle == Some(1) && 3 in Tab(k)
    ensures Enabled(k, Exit3(k, v)) && KernelInv(KernelTheorems.After(k, Exit3(k, v)))
    ensures Woken(KernelTheorems.After(k, Exit3(k, v)), 2, v)
  {
    var v1 := SetRetval(k, 3, v).view;
    forall p | p in v1.procs ensures SoftAt(v1, v1, p) { }
    ExitIs(k, v, v1, 0);
    StepKeeps(k, Exit3(k, v));
    assert WaitsOn(k, 2, 3);
  }

  /** From boot: the shell creates a process and waits for it, the process exits with v, and the shell finds v. */
  lemma ChildReports(a: nat, b: nat, stack: nat, v: int) returns (es: seq<Event>)
    requires a != b && stack != a && stack != b
    ensures RunsFromBoot(a, b, es) && |es| == 3 && es[0] == Create3(stack) && es[1] == Wait3
    ensures es[2].Syscall? && es[2].call.Exit? && es[2].call.retval == v
    ensures Woken(EndFromBoot(a, b, es), 2, v) && 3 !in Tab(EndFromBoot(a, b, es))
  {
    BootKeeps(a, b);
    ShellBoots(a, b);
    es := ReportsFrom(Start(Booted(a, b)), stack, v);
  }

  lemma ReportsFrom(k: Kernel, stack: nat, v: int) returns (es: seq<Event>)
    requires KernelInv(k) && ShellAlone(k) && stack !in k.blocks
    ensures Runs(k, es) && |es| == 3 && es[0] == Create3(stack) && es[1] == Wait3
    ensures es[2].Syscall? && es[2].call.Exit? && es[2].call.retval == v
    ensures Woken(End(k, es), 2, v) && 3 !in Tab(End(k, es))
  {
    ShellCreates(k, 1, stack);
    CreationIs(k, 1, false, Some(stack), None, 0);
    var k1 := KernelTheorems.After(k, Create3(stack));
    ChildRuns(k1);
    var k2 := KernelTheorems.After(k1, Wait3);
    ChildExits(k2, v);
    ExitIs(k2, v, SetRetval(k2, 3, v).view, 0);
    OneBefore(k2, Exit3(k2, v), []);
    OneBefore(k1, Wait3, [Exit3(k2, v)] + []);
    OneBefore(k, Create3(stack), [Wait3] + ([Exit3(k2, v)] + []));
    es := [Create3(stack)] + ([Wait3] + ([Exit3(k2, v)] + []));
  }
}
