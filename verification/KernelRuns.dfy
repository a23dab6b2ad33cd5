/**
 Whole runs of the kernel from boot on, and what a parent that waits for a child can rely on.
 */
module KernelRuns {
  import opened Processes
  import opened Scheduler
  import opened KernelSpec
  import opened KernelTheorems

  // ---------------------------------------------------------------- boot

  const Empty: Kernel := Kernel(View(map[], None, false), RunQueue([], 0, None), 0, {}, 0)

  /** The idle process leaves the run queue it was put into. */
  function SetIdle(k: Kernel, p: nat): Kernel
    requires p in Tab(k)
  {
    var k1 := With(k, p, Tab(k)[p].(priority := MIN_PRIORITY, quanta := 1));
    k1.(queue := Remove(k1.queue.(idle := Some(p)), p))
  }

  /** scheduler_start. */
  function Start(k: Kernel): Kernel
    requires Known(Tab(k), k.queue.pids) && CursorOk(k.queue)
  {
    var (next, q) := NextReady(Tab(k), k.queue);
    if next.Some? && next.value in Tab(k) then
      var k1 := With(k.(queue := q), next.value, Tab(k)[next.value].(state := Running));
      k1.(view := k1.view.(cur := next))
    else k
  }

  /** The state the kernel starts the first process from: idle and the shell. */
  function Booted(s: nat, t: nat): Kernel {
    Kernel(View(map[1 := Fresh(1, 0, 0, s, None).(priority := MIN_PRIORITY, quanta := 1), 2 := Fresh(2, 1, 0, t, None)],
                None, false),
           RunQueue([2], 0, Some(1)), 2, {s, t}, 0)
  }

  /** After the creation of idle. */
  function IdleCreated(s: nat): Kernel {
    Kernel(View(map[1 := Fresh(1, 0, 0, s, None)], None, false), RunQueue([1], 0, None), 1, {s}, 0)
  }

  /** After idle has been taken out of the queue. */
  function IdleSet(s: nat): Kernel {
    Kernel(View(map[1 := Fresh(1, 0, 0, s, None).(priority := MIN_PRIORITY, quanta := 1)], None, false),
           RunQueue([], 0, Some(1)), 1, {s}, 0)
  }

  lemma CreateIdle(s: nat)
    ensures Create(Empty, 0, false, Some(s), None).0 == IdleCreated(s)
  {
    var k1 := Create(Empty, 0, false, Some(s), None).0;
    assert k1.queue.pids == [1];
    assert k1.blocks == {s};
  }

  lemma SetIdleIs(s: nat)
    ensures SetIdle(IdleCreated(s), 1) == IdleSet(s)
  {
    var k2 := SetIdle(IdleCreated(s), 1);
    assert k2.queue.pids == [];
    assert Tab(k2) == Tab(IdleSet(s));
  }

  lemma CreateShell(s: nat, t: nat)
    requires s != t
    ensures Create(IdleSet(s), 1, false, Some(t), None).0 == Booted(s, t)
  {
    var k3 := Create(IdleSet(s), 1, false, Some(t), None).0;
    assert k3.queue.pids == [2];
    assert Tab(k3) == Tab(Booted(s, t));
    assert k3.blocks == {s, t};
  }

  /** What the kernel's start-up code has built when it starts the scheduler. */
  lemma BootIs(s: nat, t: nat)
    requires s != t
    ensures var k1 := Create(Empty, 0, false, Some(s), None).0;
            && 1 in Tab(k1) && Known(Tab(SetIdle(k1, 1)), SetIdle(k1, 1).queue.pids)
            && Create(SetIdle(k1, 1), 1, false, Some(t), None).0 == Booted(s, t)
  {
    CreateIdle(s);
    SetIdleIs(s);
    CreateShell(s, t);
  }

  lemma ShellFirst(s: nat, t: nat)
    requires s != t
    ensures NextReady(Tab(Booted(s, t)), Booted(s, t).queue).0 == Some(2)
    ensures Start(Booted(s, t)).queue == RunQueue([2], 0, Some(1))
  {
    var k0 := Booted(s, t);
    assert IsReady(Tab(k0)[2]);
    assert Highest(Tab(k0), [2], 1) == 4 by { assert Highest(Tab(k0), [2], 0) == -1; }
  }

  /** The first process to run is the shell, and the invariant holds. */
  lemma BootKeeps(s: nat, t: nat)
    requires s != t
    ensures var k := Start(Booted(s, t)); KernelInv(k) && Cur(k) == Some(2) && k.queue.idle == Some(1)
  {
    ShellFirst(s, t);
    var k := Start(Booted(s, t));
    forall p: nat, a ensures Owner(Tab(k), p, a) <==> (p == 1 && a == s) || (p == 2 && a == t) { }
    forall a | a in k.blocks ensures SomeOwner(Tab(k), a) { assert Owner(Tab(k), if a == s then 1 else 2, a); }
    assert Tab(k).Keys == {1, 2};
  }

  lemma StartIs(s: nat, t: nat)
    requires s != t
    ensures var v := Start(Booted(s, t)).view;
            && v.procs.Keys == {1, 2} && v.procs[1].heldSems == {} && v.procs[1].openedSems == {}
            && v.procs[2].heldSems == {} && v.procs[2].openedSems == {}
  {
    BootKeeps(s, t);
    assert Tab(Booted(s, t)).Keys == {1, 2};
  }

  /** As the kernel starts: the shell runs in the foreground, on the terminal, and only idle is there besides. */
  predicate ShellAlone(k: Kernel) {
    && Tab(k).Keys == {1, 2} && k.queue == RunQueue([2], 0, Some(1)) && k.nextPid == 2 && Cur(k) == Some(2)
    && !k.view.force
    && Tab(k)[2].foreground == 1 && Tab(k)[2].stdin == 0 && Tab(k)[2].priority == DEFAULT_PRIORITY
  }

  lemma ShellBoots(s: nat, t: nat)
    requires s != t
    ensures ShellAlone(Start(Booted(s, t))) && Start(Booted(s, t)).blocks == {s, t}
  {
    BootKeeps(s, t);
    StartIs(s, t);
  }

  /** The first process it creates. */
  lemma ShellCreates(k: Kernel, fg: nat, stack: nat)
    requires ShellAlone(k) && fg <= 1
    ensures Known(Tab(k), k.queue.pids)
    ensures var (k', r) := Create(k, fg, false, Some(stack), None);
            && r == 3 && k'.queue == RunQueue([2, 3], 0, Some(1)) && Cur(k') == Cur(k) && !k'.view.force
            && Tab(k').Keys == {1, 2, 3} && Tab(k')[2] == Tab(k)[2]
            && IsReady(Tab(k')[3]) && Tab(k')[3].foreground == fg && Tab(k')[3].stdin == 0
  {
    assert |Tab(k).Keys| == 2;
    assert Create(k, fg, false, Some(stack), None).0.queue.pids == [2, 3];
  }

  // ---------------------------------------------------------------- runs

  ghost predicate Runs(k: Kernel, es: seq<Event>)
    requires KernelInv(k)
    decreases |es|
  {
    if es == [] then true
    else
      Enabled(k, es[0]) && (StepKeeps(k, es[0]); Runs(KernelTheorems.After(k, es[0]), es[1..]))
  }

  ghost function End(k: Kernel, es: seq<Event>): Kernel
    requires KernelInv(k) && Runs(k, es)
    decreases |es|
  {
    if es == [] then k
    else
      StepKeeps(k, es[0]);
      End(KernelTheorems.After(k, es[0]), es[1..])
  }

  lemma {:induction false} RunKeeps(k: Kernel, es: seq<Event>)
    requires KernelInv(k) && Runs(k, es)
    ensures KernelInv(End(k, es))
    decreases |es|
  {
    if es != [] {
      StepKeeps(k, es[0]);
      RunKeeps(KernelTheorems.After(k, es[0]), es[1..]);
    }
  }

  lemma OneBefore(k: Kernel, e: Event, es: seq<Event>)
    requires KernelInv(k) && Enabled(k, e) && KernelInv(KernelTheorems.After(k, e))
    requires Runs(KernelTheorems.After(k, e), es)
    ensures Runs(k, [e] + es) && End(k, [e] + es) == End(KernelTheorems.After(k, e), es)
  {
    assert ([e] + es)[1..] == es;
  }

  ghost predicate RunsFromBoot(s: nat, t: nat, es: seq<Event>)
    requires s != t
  {
    BootKeeps(s, t);
    Runs(Start(Booted(s, t)), es)
  }

  ghost function EndFromBoot(s: nat, t: nat, es: seq<Event>): Kernel
    requires s != t && RunsFromBoot(s, t, es)
  {
    BootKeeps(s, t);
    End(Start(Booted(s, t)), es)
  }

  /** From boot, at every return to a process: only the current process runs, there is no zombie, the queue lists the
      others in descending priority with room to spare, and the kernel heap holds the stacks and arguments of the live
      processes and nothing else, no block having been freed twice. */
  lemma EveryRunFromBoot(s: nat, t: nat, es: seq<Event>)
    requires s != t && RunsFromBoot(s, t, es)
    ensures var k := EndFromBoot(s, t, es);
            && (forall p :: p in Tab(k) ==>
                (Tab(k)[p].state == Running <==> Cur(k) == Some(p)) && Tab(k)[p].state != Zombie)
            && QueueOk(Tab(k), k.queue) && |k.queue.pids| < |Tab(k)| <= MAX_PROCESSES
            && OwnersOk(Tab(k), k.blocks) && k.badFrees == 0
  {
    BootKeeps(s, t);
    RunKeeps(Start(Booted(s, t)), es);
    var k := EndFromBoot(s, t, es);
    OneRuns(k);
    QueueHasRoom(k);
  }

  // ---------------------------------------------------------------- waitpid

  /** p waits for its child c, and its saved RAX slot holds r. */
  predicate WaitsFor(k: Kernel, p: nat, c: nat, r: int) {
    p in Tab(k) && Tab(k)[p].waitingFor == c && c != 0 && Tab(k)[p].savedRax == r
  }

  /** p has been woken with r in its saved RAX slot. */
  predicate Woken(k: Kernel, p: nat, r: int) {
    p in Tab(k) && Tab(k)[p].waitingFor == 0 && Tab(k)[p].savedRax == r && Tab(k)[p].state in {State.Ready, Running}
  }

  /** A waiting parent is blocked and has its child, alive. */
  lemma WaiterHasChild(k: Kernel, p: nat, c: nat, r: int)
    requires KernelInv(k) && WaitsFor(k, p, c, r)
    ensures Tab(k)[p].state == Blocked && c in Tab(k) && Tab(k)[c].parent == p
    ensures Tab(k)[c].state in {State.Ready, Running, Blocked}
  {
    assert WaitOk(Tab(k), p) && IsChild(Tab(k), c, p) && StateAt(k.view, c);
  }

  predicate Same(k: Kernel, k': Kernel, p: nat) {
    p in Tab(k) && p in Tab(k') && Tab(k')[p].waitingFor == Tab(k)[p].waitingFor
      && Tab(k')[p].savedRax == Tab(k)[p].savedRax
  }

  lemma BuryTab(k: Kernel, p: nat)
    requires p in Tab(k)
    ensures Tab(Bury(k, p)) == Tab(k) - {p}
  {
  }

  /** p as it was, or with the change that the dispatch, or the return to it, makes. */
  predicate Dispatched(a: Pcb, b: Pcb) {
    b == a || b == a.(waitTicks := 0, state := Running) || b == a.(state := Running)
  }

  /** What a switch does to the table: the current process may leave, the chosen one runs. */
  lemma SwitchTab(k: Kernel, p: nat)
    requires Shape(k)
    ensures p in Tab(Switch(k)) ==> p in Tab(k) && Dispatched(Tab(k)[p], Tab(Switch(k))[p])
    ensures p in Tab(k) && !(CurIs(k, Zombie) && Cur(k) == Some(p)) ==> p in Tab(Switch(k))
  {
    ChosenIsReady(Tab(k), k.queue);
    var (next, q) := NextReady(Tab(k), k.queue);
    if next.Some? && CurIs(k, Zombie) { BuryTab(k.(queue := Remove(q, Cur(k).value)), Cur(k).value); }
  }

  /** The idle process stays who it is. */
  lemma SwitchIdle(k: Kernel)
    requires Shape(k)
    ensures Switch(k).queue.idle == k.queue.idle
  {
    ChosenIsReady(Tab(k), k.queue);
  }

  lemma LeaveIdle(k: Kernel)
    requires Mid(k)
    ensures Shape(k) && Leave(k).queue.idle == k.queue.idle
  {
    LeaveKeeps(k);
    if k.view.force { SwitchIdle(Pause(k.(view := k.view.(force := false)))); }
  }

  lemma TickIdle(k: Kernel)
    requires KernelInv(k)
    ensures Shape(k) && Tick(k).queue.idle == k.queue.idle
  {
    TickKeeps(k);
    AgedKeeps(k);
    var c := Cur(k).value;
    assert StateAt(k.view, c);
    if Tab(k)[c].quanta <= 1 {
      SwitchIdle(With(Aged(k), c, Tab(Aged(k))[c].(state := State.Ready, quanta := Tab(Aged(k))[c].priority)));
    }
  }

  /** A zombie on the CPU is buried on the way out. */
  lemma ZombieLeaves(k: Kernel)
    requires Mid(k) && CurIs(k, Zombie)
    ensures Shape(k) && Cur(k).value !in Tab(Leave(k))
  {
    LeaveKeeps(k);
    var c := Cur(k).value;
    PauseKeeps(k);
    var k1 := Pause(k.(view := k.view.(force := false)));
    assert k1 == Pause(k).(view := Pause(k).view.(force := false));
    ChoiceOk(k1);
    var (next, q) := NextReady(Tab(k1), k1.queue);
    BuryTab(k1.(queue := Remove(q, c)), c);
  }

  /** Nobody's saved RAX slot changes in a switch. */
  lemma SwitchSame(k: Kernel, p: nat)
    requires Shape(k) && p in Tab(k) && (Cur(k) == Some(p) ==> Tab(k)[p].state != Zombie)
    ensures Same(k, Switch(k), p)
  {
    SwitchTab(k, p);
  }

  lemma LeaveSame(k: Kernel, p: nat)
    requires Shape(k) && p in Tab(k) && (Cur(k) == Some(p) ==> Tab(k)[p].state != Zombie)
    ensures Same(k, Leave(k), p)
  {
    if k.view.force {
      var k0 := k.(view := k.view.(force := false));
      SwitchSame(Pause(k0), p);
    }
  }

  /** A process that is ready and not the current one is afterwards ready or running. */
  lemma LeaveReady(k: Kernel, p: nat)
    requires Shape(k) && p in Tab(k) && Cur(k) != Some(p) && IsReady(Tab(k)[p])
    ensures p in Tab(Leave(k)) && Tab(Leave(k))[p].state in {State.Ready, Running}
  {
    if k.view.force {
      var k0 := k.(view := k.view.(force := false));
      SwitchTab(Pause(k0), p);
    }
  }

  /** The victim of an entry into the kernel, if it has one. */
  ghost function Victim(k: Kernel, e: Event): Option<nat> {
    match e
    case Syscall(Kill(pid, _, _), _) => if Killable(k, pid) then Some(pid) else None
    case CtrlC(_, _) =>
      var pid := Newest(Tab(k), k.nextPid);
      if |Foreground(Tab(k))| > 1 && Killable(k, pid) then Some(pid) else None
    case _ => None
  }

  lemma WakeIs(k: Kernel, x: nat, v: int, p: nat, c: nat, r: int)
    requires Mid(k) && x in Tab(k) && x != p && WaitsFor(k, p, c, r)
    ensures if x == c then Woken(WakeParent(k, x, v), p, v) && IsReady(Tab(WakeParent(k, x, v))[p])
            else WaitsFor(WakeParent(k, x, v), p, c, r)
  {
    assert WaitOk(Tab(k), p) && PcbOk(Tab(k)[x], x, k.nextPid);
  }

  lemma SoftSame(k: Kernel, v: View, p: nat)
    requires Soft(k.view, v) && p in Tab(k)
    ensures Same(k, k.(view := v), p) && Tab(k)[p].retval == v.procs[p].retval
    ensures IsReady(Tab(k)[p]) ==> IsReady(v.procs[p])
  {
    assert SoftAt(k.view, v, p);
  }

  /** What one call's own code means for a waiter that is not its victim. */
  lemma KilledWaiter(k: Kernel, x: nat, cleaned: View, released: View, p: nat, c: nat, r: int)
    requires KernelInv(k) && KillLegal(k, x, cleaned, released) && WaitsFor(k, p, c, r) && Killable(k, x)
    ensures var k' := Killed(k, x, cleaned, released);
            && (x == p ==> p !in Tab(k'))
            && (x == c ==> Woken(k', p, -1) && IsReady(Tab(k')[p]))
            && (x != c && x != p ==> WaitsFor(k', p, c, r))
  {
    assert StateAt(k.view, p) && WaitOk(Tab(k), p);
    SetRetvalKeeps(k, x, -1);
    var k0 := SetRetval(k, x, -1);
    SoftKeeps(k0, cleaned);
    SoftSame(k0, cleaned, p);
    var k1 := k.(view := cleaned);
    assert k1 == k0.(view := cleaned);
    if x != p { WakeIs(k1, x, -1, p, c, r); }
    WakeKeeps(k1, x, -1);
    var k2 := KillMiddle(k1, x);
    assert p in Tab(k2) && x in Tab(k2);
    SoftSame(k2, released, p);
    assert x in released.procs && Killed(k, x, cleaned, released) == KillEnd(k2.(view := released), x);
  }

  lemma CalledWaiter(k: Kernel, call: Call, rax: int, p: nat, c: nat, r: int)
    requires KernelInv(k) && Cur(k) != k.queue.idle && CallLegal(k, call) && WaitsFor(k, p, c, r)
    requires !call.Kill? && !call.Exit?
    ensures WaitsFor(Called(k, call, rax).0, p, c, r)
  {
    assert StateAt(k.view, p) && WaitOk(Tab(k), p) && PcbOk(Tab(k)[p], p, k.nextPid);
    if call.Service? { SoftSame(k, call.after, p); }
    if call.WaitFor? { WaitPidKeeps(k, call.pid); }
    if call.Creation? && Called(k, call, rax).1 != -1 { CreateIs(k, call.fg, call.wantsArgs, call.stack, call.args); }
    if call.Creation? && Called(k, call, rax).1 == -1 {
      CreateFails(k, call.fg, call.wantsArgs, call.stack, call.args);
    }
  }

  lemma ExitWaiter(k: Kernel, v: int, cleaned: View, p: nat, c: nat, r: int)
    requires KernelInv(k) && Cur(k) != k.queue.idle && CallLegal(k, Exit(v, cleaned)) && WaitsFor(k, p, c, r)
    ensures var k' := ExitEnd(k.(view := cleaned), v);
            if Cur(k) == Some(c) then Woken(k', p, v) && IsReady(Tab(k')[p]) else WaitsFor(k', p, c, r)
  {
    var x := Cur(k).value;
    assert StateAt(k.view, p) && StateAt(k.view, x) && WaitOk(Tab(k), p);
    SetRetvalKeeps(k, x, v);
    SoftKeeps(SetRetval(k, x, v), cleaned);
    SoftSame(SetRetval(k, x, v), cleaned, p);
    WakeIs(k.(view := cleaned), x, v, p, c, r);
  }

  /** The end of a call, for one that is not the caller. */
  lemma EndSame(k: Kernel, rax: int, p: nat)
    requires Mid(k) && p in Tab(k) && Cur(k) != Some(p)
    ensures Shape(SaveRax(k, rax)) && Same(k, Leave(SaveRax(k, rax)), p)
    ensures IsReady(Tab(k)[p]) ==> Tab(Leave(SaveRax(k, rax)))[p].state in {State.Ready, Running}
  {
    SaveRaxKeeps(k, rax);
    LeaveKeeps(SaveRax(k, rax));
    LeaveSame(SaveRax(k, rax), p);
    if IsReady(Tab(k)[p]) { LeaveReady(SaveRax(k, rax), p); }
  }

  /** What an entry into the kernel can mean for p, which waits for c: it goes on waiting; or c exits and p finds c's
      value in its saved RAX slot; or c is killed and p finds -1; or p itself is killed. */
  ghost predicate WaiterAfter(k: Kernel, e: Event, k': Kernel, p: nat, c: nat, r: int) {
    || (Victim(k, e) == Some(p) && p !in Tab(k'))
    || (Victim(k, e) == Some(c) && Woken(k', p, -1))
    || (Cur(k) == Some(c) && e.Syscall? && e.call.Exit? && Woken(k', p, e.call.retval))
    || WaitsFor(k', p, c, r)
  }

  lemma TickSame(k: Kernel, p: nat)
    requires KernelInv(k) && p in Tab(k)
    ensures Shape(k) && Same(k, Tick(k), p)
  {
    AgedKeeps(k);
    assert StateAt(k.view, p) && StateAt(k.view, Cur(k).value);
    var k1 := Aged(k);
    var c := Cur(k).value;
    var b := Tab(k1)[c].(quanta := Less(Tab(k1)[c].quanta));
    if b.quanta == 0 {
      SwitchSame(With(k1, c, b.(state := State.Ready, quanta := b.priority)), p);
    }
  }

  lemma WaiterExit(k: Kernel, v: int, cleaned: View, rax: int, p: nat, c: nat, r: int)
    requires KernelInv(k) && Enabled(k, Syscall(Exit(v, cleaned), rax)) && WaitsFor(k, p, c, r)
    ensures WaiterAfter(k, Syscall(Exit(v, cleaned), rax), KernelTheorems.After(k, Syscall(Exit(v, cleaned), rax)), p,
                        c, r)
  {
    assert StateAt(k.view, p) && StateAt(k.view, Cur(k).value) && WaitOk(Tab(k), p);
    ExitWaiter(k, v, cleaned, p, c, r);
    CallKeeps(k, Exit(v, cleaned), rax);
    EndSame(ExitEnd(k.(view := cleaned), v), rax, p);
  }

  lemma WaiterKill(k: Kernel, x: nat, cleaned: View, released: View, p: nat, c: nat, r: int)
    requires KernelInv(k) && KillLegal(k, x, cleaned, released) && WaitsFor(k, p, c, r)
    ensures var k1 := Killed(k, x, cleaned, released);
            && Mid(k1) && Cur(k1) == Cur(k) && Cur(k) != Some(p)
            && (Killable(k, x) && x == p ==> p !in Tab(k1))
            && (Killable(k, x) && x == c ==> Woken(k1, p, -1) && IsReady(Tab(k1)[p]))
            && (!Killable(k, x) || (x != p && x != c) ==> WaitsFor(k1, p, c, r))
  {
    KilledKeeps(k, x, cleaned, released);
    KilledCur(k, x, cleaned, released);
    assert StateAt(k.view, p) && WaitOk(Tab(k), p);
    if Killable(k, x) { KilledWaiter(k, x, cleaned, released, p, c, r); }
  }

  lemma KilledCur(k: Kernel, x: nat, cleaned: View, released: View)
    requires KillLegal(k, x, cleaned, released)
    ensures Cur(Killed(k, x, cleaned, released)) == Cur(k)
  {
  }

  lemma KeysShrink(k: Kernel, p: nat)
    requires Shape(k) && p !in Tab(k)
    ensures p !in Tab(Leave(k))
  {
    if k.view.force { SwitchTab(Pause(k.(view := k.view.(force := false))), p); }
  }

  /** process_waitpid keeps its promise in every run: a parent that waits for a child is blocked, has it alive, and is
      only ever woken by the child's end, with the child's value, or -1 if it was killed, in its saved RAX slot. */
  lemma WaiterStep(k: Kernel, e: Event, p: nat, c: nat, r: int)
    requires KernelInv(k) && Enabled(k, e) && WaitsFor(k, p, c, r)
    ensures WaiterAfter(k, e, KernelTheorems.After(k, e), p, c, r)
  {
    assert StateAt(k.view, p) && StateAt(k.view, Cur(k).value) && WaitOk(Tab(k), p);
    match e
    case Timer => TickSame(k, p);
    case Keyboard(after) => WaiterKeyboard(k, after, p, c, r);
    case CtrlC(cleaned, released) =>
      if |Foreground(Tab(k))| > 1 { WaiterCtrlC(k, cleaned, released, p, c, r); }
    case Syscall(call, rax) =>
      match call
      case Exit(v, cleaned) => WaiterExit(k, v, cleaned, rax, p, c, r);
      case Kill(x, cleaned, released) => WaiterKillCall(k, x, cleaned, released, rax, p, c, r);
      case _ => WaiterCall(k, call, rax, p, c, r);
  }

  lemma WaiterKeyboard(k: Kernel, after: View, p: nat, c: nat, r: int)
    requires KernelInv(k) && Enabled(k, Keyboard(after)) && WaitsFor(k, p, c, r)
    ensures WaitsFor(KernelTheorems.After(k, Keyboard(after)), p, c, r)
  {
    SoftKeeps(k, after);
    assert StateAt(k.view, p) && WaitOk(Tab(k), p);
    SoftSame(k, after, p);
    assert StateAt(after, p) && WaitOk(after.procs, p);
    LeaveKeeps(k.(view := after));
    LeaveSame(k.(view := after), p);
  }

  lemma WaiterCall(k: Kernel, call: Call, rax: int, p: nat, c: nat, r: int)
    requires KernelInv(k) && Enabled(k, Syscall(call, rax)) && WaitsFor(k, p, c, r) && !call.Kill? && !call.Exit?
    ensures WaitsFor(KernelTheorems.After(k, Syscall(call, rax)), p, c, r)
  {
    assert StateAt(k.view, p) && StateAt(k.view, Cur(k).value) && WaitOk(Tab(k), p);
    CalledWaiter(k, call, rax, p, c, r);
    CallKeeps(k, call, rax);
    CurStays(k, call, rax);
    EndSame(Called(k, call, rax).0, Called(k, call, rax).1, p);
  }

  lemma CurStays(k: Kernel, call: Call, rax: int)
    requires KernelInv(k) && Cur(k) != k.queue.idle && CallLegal(k, call)
    ensures Cur(Called(k, call, rax).0) == Cur(k)
  {
  }

  lemma WaiterKillCall(k: Kernel, x: nat, cleaned: View, released: View, rax: int, p: nat, c: nat, r: int)
    requires KernelInv(k) && Enabled(k, Syscall(Kill(x, cleaned, released), rax)) && WaitsFor(k, p, c, r)
    ensures WaiterAfter(k, Syscall(Kill(x, cleaned, released), rax),
                        KernelTheorems.After(k, Syscall(Kill(x, cleaned, released), rax)), p, c, r)
  {
    WaiterKill(k, x, cleaned, released, p, c, r);
    var k1 := Killed(k, x, cleaned, released);
    if p in Tab(k1) {
      EndSame(k1, rax, p);
    } else {
      SaveRaxKeeps(k1, rax);
      LeaveKeeps(SaveRax(k1, rax));
      KeysShrink(SaveRax(k1, rax), p);
    }
  }

  lemma WaiterCtrlC(k: Kernel, cleaned: View, released: View, p: nat, c: nat, r: int)
    requires KernelInv(k) && Enabled(k, CtrlC(cleaned, released)) && WaitsFor(k, p, c, r) && |Foreground(Tab(k))| > 1
    ensures WaiterAfter(k, CtrlC(cleaned, released), KernelTheorems.After(k, CtrlC(cleaned, released)), p, c, r)
  {
    var x := Newest(Tab(k), k.nextPid);
    WaiterKill(k, x, cleaned, released, p, c, r);
    var k1 := Killed(k, x, cleaned, released);
    LeaveKeeps(k1);
    if p in Tab(k1) {
      LeaveSame(k1, p);
      if IsReady(Tab(k1)[p]) { LeaveReady(k1, p); }
    } else {
      KeysShrink(k1, p);
    }
  }
}
