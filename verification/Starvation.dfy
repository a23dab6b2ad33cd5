/**
 Aging gives no more than four points: while a process that it would need more to catch up with is ready or running, a
 process never gets the CPU, and its wait has no bound.
 */
module Starvation {
  import opened Processes
  import opened Scheduler
  import opened Ranks
  import opened KernelSpec
  import opened KernelTheorems
  import opened KernelRuns

  // ---------------------------------------------------------------- who gets the CPU

  predicate BowsTo(k: Kernel, x: nat, y: nat)
    requires x in Tab(k) && y in Tab(k)
  {
    k.queue.idle != Some(y) && IsReady(Tab(k)[y]) && Outranks(Tab(k)[y], Tab(k)[x])
  }

  /** Nobody who is ready outranks x. */
  ghost predicate MayRun(k: Kernel, x: nat) {
    x in Tab(k) && forall y {:trigger BowsTo(k, x, y)} :: y in Tab(k) ==> !BowsTo(k, x, y)
  }

  lemma NextRuns(k: Kernel)
    requires Shape(k) && NextReady(Tab(k), k.queue).0.Some?
    ensures Cur(Switch(k)) == NextReady(Tab(k), k.queue).0
  {
    ChosenIsReady(Tab(k), k.queue);
  }

  lemma SwitchPicks(k: Kernel, x: nat)
    requires Base(k) && Shape(k) && NextReady(Tab(k), k.queue).0.Some?
    requires Cur(Switch(k)) == Some(x) && k.queue.idle != Some(x) && x in Tab(Switch(k))
    ensures MayRun(Switch(k), x)
  {
    var k' := Switch(k);
    SwitchIdle(k);
    NextRuns(k);
    SwitchTab(k, x);
    forall y | y in Tab(k') ensures !BowsTo(k', x, y) {
      SwitchTab(k, y);
      if k.queue.idle != Some(y) && IsReady(Tab(k')[y]) {
        assert y in k.queue.pids;
        ChoiceBest(Tab(k), k.queue, x, y);
      }
    }
  }

  /** The end of a handler. */
  lemma LeavePicks(k: Kernel, x: nat)
    requires Mid(k)
    ensures Shape(k) && KernelInv(Leave(k))
    ensures Cur(Leave(k)) == Some(x) && (k.view.force || Cur(k) != Some(x)) && k.queue.idle != Some(x) ==>
            MayRun(Leave(k), x)
  {
    LeaveKeeps(k);
    if k.view.force {
      var k0 := k.(view := k.view.(force := false));
      PauseKeeps(k);
      assert Pause(k0) == Pause(k).(view := Pause(k).view.(force := false));
      ChoiceOk(Pause(k0));
      if Cur(Leave(k)) == Some(x) && k.queue.idle != Some(x) { SwitchPicks(Pause(k0), x); }
    }
  }

  lemma TickPicks(k: Kernel, x: nat)
    requires KernelInv(k) && k.queue.idle != Some(x)
    ensures Shape(k) && KernelInv(Tick(k)) && (Cur(Tick(k)) == Some(x) != Cur(k) ==> MayRun(Tick(k), x))
  {
    TickKeeps(k);
    AgedKeeps(k);
    var c := Cur(k).value;
    assert StateAt(k.view, c) && StateAt(Aged(k).view, c) && WaitOk(Tab(Aged(k)), c);
    if Tab(k)[c].quanta <= 1 && Cur(Tick(k)) == Some(x) {
      var b := Tab(Aged(k))[c].(state := State.Ready, quanta := Tab(Aged(k))[c].priority);
      var k1 := With(Aged(k), c, b);
      OwnChange(Aged(k), b);
      ChoiceOk(k1);
      SwitchPicks(k1, x);
    }
  }

  /** Whatever the entry into the kernel, whoever gets the CPU by it, but for idle, is outranked by nobody who is
      ready. */
  lemma NobodyReadyOutranks(k: Kernel, e: Event, x: nat)
    requires KernelInv(k) && Enabled(k, e) && Cur(KernelTheorems.After(k, e)) == Some(x) != Cur(k)
    requires KernelTheorems.After(k, e).queue.idle != Some(x)
    ensures MayRun(KernelTheorems.After(k, e), x)
  {
    match e
    case Timer =>
      TickIdle(k);
      TickPicks(k, x);
    case Keyboard(after) =>
      SoftKeeps(k, after);
      LeaveIdle(k.(view := after));
      LeavePicks(k.(view := after), x);
    case CtrlC(cleaned, released) =>
      if |Foreground(Tab(k))| > 1 {
        var pid := Newest(Tab(k), k.nextPid);
        KilledKeeps(k, pid, cleaned, released);
        KilledCur(k, pid, cleaned, released);
        LeaveIdle(Killed(k, pid, cleaned, released));
        LeavePicks(Killed(k, pid, cleaned, released), x);
      }
    case Syscall(call, rax) =>
      var (k1, r) := Called(k, call, rax);
      CallKeeps(k, call, rax);
      CurStays(k, call, rax);
      SaveRaxKeeps(k1, r);
      LeaveIdle(SaveRax(k1, r));
      LeavePicks(SaveRax(k1, r), x);
  }

  // ---------------------------------------------------------------- whole runs

  /** y is ready or running, is not idle, and outranks x. */
  predicate Overtakes(k: Kernel, x: nat, y: nat) {
    && x in Tab(k) && y in Tab(k) && k.queue.idle != Some(x) && k.queue.idle != Some(y)
    && Tab(k)[y].state in {State.Ready, Running} && Outranks(Tab(k)[y], Tab(k)[x])
  }

  ghost predicate AlwaysOvertakes(k: Kernel, es: seq<Event>, x: nat, y: nat)
    requires KernelInv(k) && Runs(k, es)
    decreases |es|
  {
    && Overtakes(k, x, y)
    && (es != [] ==> (StepKeeps(k, es[0]); AlwaysOvertakes(KernelTheorems.After(k, es[0]), es[1..], x, y)))
  }

  lemma StepStarves(k: Kernel, e: Event, x: nat, y: nat)
    requires KernelInv(k) && Enabled(k, e) && Cur(k) != Some(x) && Overtakes(KernelTheorems.After(k, e), x, y)
    ensures Cur(KernelTheorems.After(k, e)) != Some(x)
  {
    var k' := KernelTheorems.After(k, e);
    StepKeeps(k, e);
    OneRuns(k');
    assert Cur(k') == Some(x) ==> BowsTo(k', x, y);
    if Cur(k') == Some(x) { NobodyReadyOutranks(k, e, x); }
  }

  /** In any run, whatever is called and whoever comes and goes, a process gets the CPU at no point as long as somebody
      who is ready or running outranks it. */
  lemma {:induction false} NeverRuns(k: Kernel, es: seq<Event>, x: nat, y: nat)
    requires KernelInv(k) && Runs(k, es) && AlwaysOvertakes(k, es, x, y) && Cur(k) != Some(x)
    ensures Cur(End(k, es)) != Some(x)
    decreases |es|
  {
    if es != [] {
      StepKeeps(k, es[0]);
      StepStarves(k, es[0], x, y);
      NeverRuns(KernelTheorems.After(k, es[0]), es[1..], x, y);
    }
  }

  // ---------------------------------------------------------------- the wait has no bound

  /** x is ready, and y keeps it from running. */
  predicate Waits(k: Kernel, x: nat, y: nat) {
    Overtakes(k, x, y) && IsReady(Tab(k)[x]) && Cur(k) != Some(x)
  }

  lemma AgedOne(k: Kernel, x: nat, y: nat)
    requires KernelInv(k) && Waits(k, x, y)
    ensures Waits(Aged(k), x, y) && Tab(Aged(k))[x].waitTicks == Tab(k)[x].waitTicks + 1
  {
    assert x in k.queue.pids;
  }

  /** What a tick means for p: nothing more than its ageing, unless it gives up the CPU or gets it. */
  lemma TickTab(k: Kernel, p: nat)
    requires KernelInv(k) && p in Tab(k)
    ensures Shape(k) && p in Tab(Tick(k)) && p in Tab(Aged(k))
    ensures var (a, b) := (Tab(Aged(k))[p], Tab(Tick(k))[p]);
            && b.priority == a.priority && b.foreground == a.foreground
            && (Cur(k) == Some(p) ==> b.state in {State.Ready, Running})
            && (Cur(k) != Some(p) ==> Dispatched(a, b))
  {
    TickKeeps(k);
    AgedKeeps(k);
    var c := Cur(k).value;
    assert StateAt(k.view, c);
    if Tab(k)[c].quanta <= 1 {
      var b := Tab(Aged(k))[c].(state := State.Ready, quanta := Tab(Aged(k))[c].priority);
      SwitchTab(With(Aged(k), c, b), p);
    }
  }

  lemma TickWaits(k: Kernel, x: nat, y: nat)
    requires KernelInv(k) && Waits(k, x, y)
    ensures var k' := KernelTheorems.After(k, Timer);
            KernelInv(k') && Waits(k', x, y) && Tab(k')[x].waitTicks == Tab(k)[x].waitTicks + 1
  {
    AgedOne(k, x, y);
    TickTab(k, x);
    TickTab(k, y);
    TickIdle(k);
    TickKeeps(k);
    OneRuns(k);
    OneRuns(Tick(k));
    StepStarves(k, Timer, x, y);
  }

  function Timers(n: nat): seq<Event> {
    if n == 0 then [] else [Timer] + Timers(n - 1)
  }

  /** After es, x waits behind y and has waited n ticks more. */
  ghost predicate WaitedMore(k: Kernel, es: seq<Event>, x: nat, y: nat, n: nat)
    requires KernelInv(k) && x in Tab(k)
  {
    Runs(k, es) && Waits(End(k, es), x, y) && Tab(End(k, es))[x].waitTicks == Tab(k)[x].waitTicks + n
  }

  lemma OneTickMore(k: Kernel, es: seq<Event>, x: nat, y: nat, n: nat)
    requires KernelInv(k) && Waits(k, x, y)
    requires var k1 := KernelTheorems.After(k, Timer); KernelInv(k1) && x in Tab(k1) && WaitedMore(k1, es, x, y, n)
    ensures WaitedMore(k, [Timer] + es, x, y, n + 1)
  {
    TickWaits(k, x, y);
    OneBefore(k, Timer, es);
  }

  lemma {:induction false} TicksWait(k: Kernel, x: nat, y: nat, n: nat)
    requires KernelInv(k) && Waits(k, x, y)
    ensures WaitedMore(k, Timers(n), x, y, n)
    decreases n
  {
    if n > 0 {
      TickWaits(k, x, y);
      TicksWait(KernelTheorems.After(k, Timer), x, y, n - 1);
      OneTickMore(k, Timers(n - 1), x, y, n - 1);
    }
  }

  // ---------------------------------------------------------------- from boot on

  /** The shell creates a process in the background, gives it priority p and itself priority q, and goes on computing
      for n ticks. */
  function Demotion(stack: nat, p: nat, q: nat, n: nat): seq<Event> {
    [Create3(stack)] + ([Reniced(3, p)] + ([Reniced(2, q)] + Timers(n)))
  }

  function Create3(stack: nat): Event { Syscall(Creation(0, false, Some(stack), None), 0) }

  function Reniced(pid: nat, priority: nat): Event { Syscall(Renice(pid, priority), 0) }

  /** The shell, 2, runs in the foreground, and 3 is ready in the background. */
  ghost predicate TwoOfThem(k: Kernel) {
    && KernelInv(k) && Cur(k) == Some(2) && k.queue.idle == Some(1) && 2 in Tab(k) && 3 in Tab(k)
    && Tab(k)[2].foreground != 0 && Tab(k)[3].foreground == 0 && IsReady(Tab(k)[3])
  }

  /** A call that asks for no switch changes what its own code changes. */
  lemma CallIs(k: Kernel, call: Call, rax: int)
    requires KernelInv(k) && Enabled(k, Syscall(call, rax)) && !Called(k, call, rax).0.view.force
    ensures KernelInv(KernelTheorems.After(k, Syscall(call, rax)))
    ensures KernelTheorems.After(k, Syscall(call, rax)) == SaveRax(Called(k, call, rax).0, Called(k, call, rax).1)
  {
    StepKeeps(k, Syscall(call, rax));
  }

  lemma ReniceIs(k: Kernel, p: nat, n: nat)
    requires TwoOfThem(k) && p in {2, 3} && MIN_PRIORITY <= n <= MAX_PRIORITY
    ensures var e := Reniced(p, n);
            && Enabled(k, e) && TwoOfThem(KernelTheorems.After(k, e))
            && Tab(KernelTheorems.After(k, e))[p].priority == n
            && Tab(KernelTheorems.After(k, e))[5 - p].priority == Tab(k)[5 - p].priority
  {
    OneRuns(k);
    assert Clamp(n % 256) == n;
    CallIs(k, Renice(p, n), 0);
  }

  lemma CreatedIs(k: Kernel, stack: nat)
    requires KernelInv(k) && ShellAlone(k) && stack !in k.blocks
    ensures Enabled(k, Create3(stack)) && TwoOfThem(KernelTheorems.After(k, Create3(stack)))
  {
    ShellCreates(k, 0, stack);
    CallIs(k, Creation(0, false, Some(stack), None), 0);
  }

  lemma StarvesFrom(k: Kernel, stack: nat, p: nat, q: nat, n: nat)
    requires KernelInv(k) && ShellAlone(k) && stack !in k.blocks && MIN_PRIORITY <= p && p + 3 <= q <= MAX_PRIORITY
    ensures Runs(k, Demotion(stack, p, q, n))
    ensures var k' := End(k, Demotion(stack, p, q, n));
            3 in Tab(k') && IsReady(Tab(k')[3]) && Cur(k') != Some(3) && Tab(k')[3].waitTicks >= n
  {
    CreatedIs(k, stack);
    var k1 := KernelTheorems.After(k, Create3(stack));
    ReniceIs(k1, 3, p);
    var k2 := KernelTheorems.After(k1, Reniced(3, p));
    ReniceIs(k2, 2, q);
    var k3 := KernelTheorems.After(k2, Reniced(2, q));
    OneRuns(k3);
    TicksWait(k3, 3, 2, n);
    OneBefore(k2, Reniced(2, q), Timers(n));
    OneBefore(k1, Reniced(3, p), [Reniced(2, q)] + Timers(n));
    OneBefore(k, Create3(stack), [Reniced(3, p)] + ([Reniced(2, q)] + Timers(n)));
  }

  /** For every starving pair of priorities and every n there is a run from boot in which a process that is ready all
      the while waits n ticks in vain. */
  lemma StarvationHappens(a: nat, b: nat, stack: nat, p: nat, q: nat, n: nat)
    requires a != b && stack != a && stack != b && MIN_PRIORITY <= p && p + 3 <= q <= MAX_PRIORITY
    ensures RunsFromBoot(a, b, Demotion(stack, p, q, n))
    ensures var k := EndFromBoot(a, b, Demotion(stack, p, q, n));
            3 in Tab(k) && IsReady(Tab(k)[3]) && Cur(k) != Some(3) && Tab(k)[3].waitTicks >= n
  {
    BootKeeps(a, b);
    ShellBoots(a, b);
    StarvesFrom(Start(Booted(a, b)), stack, p, q, n);
  }
}
