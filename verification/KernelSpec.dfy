/**
 process.c and the kernel's entries and exits on values: the system calls on processes, the timer tick, the voluntary
 switch, and what of the kernel heap the processes own.
 */
module KernelSpec {
  import opened Processes
  import opened Scheduler

  /** `blocks` are the kernel allocations now live, `badFrees` counts calls of mm_free on anything else. */
  datatype Kernel = Kernel(view: View, queue: RunQueue, nextPid: nat, blocks: set<nat>, badFrees: nat)

  function Tab(k: Kernel): Procs { k.view.procs }

  function Cur(k: Kernel): Option<nat> { k.view.cur }

  function With(k: Kernel, p: nat, b: Pcb): Kernel {
    k.(view := k.view.(procs := k.view.procs[p := b]))
  }

  function Forced(k: Kernel): Kernel {
    k.(view := k.view.(force := true))
  }

  /** What the scheduler needs of the tables it walks. */
  ghost predicate Shape(k: Kernel) {
    && Known(Tab(k), k.queue.pids) && CursorOk(k.queue)
    && (Cur(k).Some? ==> Cur(k).value in Tab(k))
    && (k.queue.idle.Some? ==> k.queue.idle.value in Tab(k) && Tab(k)[k.queue.idle.value].state != Zombie)
  }

  // ---------------------------------------------------------------- the scheduler's entries

  function Release(k: Kernel, a: Option<nat>): Kernel {
    match a
    case None => k
    case Some(x) => if x in k.blocks then k.(blocks := k.blocks - {x}) else k.(badFrees := k.badFrees + 1)
  }

  /** The PCB gives up its stack and arguments, and its slot. */
  function Bury(k: Kernel, p: nat): Kernel
    requires p in Tab(k)
  {
    var b := Tab(k)[p];
    var k1 := Release(Release(k, b.stack), b.argv);
    k1.(view := k1.view.(procs := k1.view.procs - {p}))
  }

  function Dispatch(k: Kernel, n: nat): Kernel
    requires n in Tab(k)
  {
    var k1 := With(k, n, Tab(k)[n].(waitTicks := 0, state := Running));
    k1.(view := k1.view.(cur := Some(n)))
  }

  predicate CurIs(k: Kernel, s: State) {
    Cur(k).Some? && Cur(k).value in Tab(k) && Tab(k)[Cur(k).value].state == s
  }

  /** From the choice of the next process to the end, common to the tick and the voluntary switch. */
  function Switch(k: Kernel): Kernel
    requires Shape(k)
  {
    Selection(Tab(k), k.queue);
    var (next, q) := NextReady(Tab(k), k.queue);
    match next
    case None =>
      if CurIs(k, State.Ready) then With(k.(queue := q), Cur(k).value, Tab(k)[Cur(k).value].(state := Running))
      else k.(queue := q)
    case Some(n) =>
      if CurIs(k, Zombie) then
        var k1 := k.(queue := Remove(q, Cur(k).value));
        Dispatch(Bury(k1, Cur(k).value), n)
      else Dispatch(k.(queue := q), n)
  }

  /** scheduler_yield_impl. */
  function Pause(k: Kernel): Kernel {
    if Cur(k).Some? && Cur(k).value in Tab(k) then
      var b := Tab(k)[Cur(k).value];
      With(k, Cur(k).value, b.(state := if b.state == Running then State.Ready else b.state, quanta := b.priority))
    else k
  }

  function YieldImpl(k: Kernel): Kernel
    requires Shape(k)
  {
    Switch(Pause(k))
  }

  /** Everybody queued and ready, but the current, has waited one tick more. */
  function AgedProcs(ps: Procs, pids: seq<nat>, cur: Option<nat>): Procs {
    map p | p in ps ::
      if p in pids && cur != Some(p) && IsReady(ps[p]) then ps[p].(waitTicks := ps[p].waitTicks + 1) else ps[p]
  }

  function Aged(k: Kernel): Kernel {
    k.(view := k.view.(procs := AgedProcs(Tab(k), k.queue.pids, Cur(k))))
  }

  function Less(n: nat): nat { if n > 0 then n - 1 else 0 }

  /** A tick less for the current process, and its turn is over when there is none left. */
  function Spent(k: Kernel): Kernel
    requires Shape(k)
  {
    if CurIs(k, Running) then
      var c := Cur(k).value;
      var b := Tab(k)[c].(quanta := Less(Tab(k)[c].quanta));
      if b.quanta > 0 then With(k, c, b)
      else Switch(With(k, c, b.(state := State.Ready, quanta := b.priority)))
    else Switch(k)
  }

  /** scheduler_tick. */
  function Tick(k: Kernel): Kernel
    requires Shape(k)
  {
    Spent(Aged(k))
  }

  // ---------------------------------------------------------------- process.c

  function Fresh(pid: nat, fg: nat, parent: nat, stack: nat, argv: Option<nat>): Pcb {
    Pcb(pid, DEFAULT_PRIORITY, DEFAULT_PRIORITY, 0, if (fg / 2) % 2 == 1 then Blocked else State.Ready, fg,
        0, 1, parent, 0, 0, {}, {}, Some(stack), argv, 0)
  }

  /** The new process has its PCB. */
  function Populated(k: Kernel, fg: nat, stack: nat, argv: Option<nat>): Kernel {
    var pid := k.nextPid + 1;
    With(k, pid, Fresh(pid, fg, if Cur(k).Some? then Cur(k).value else 0, stack, argv)).(nextPid := pid)
  }

  /** The end of process_create, when all allocations have succeeded. */
  function Entered(k: Kernel, fg: nat, stack: nat, argv: Option<nat>): Kernel
    requires Known(Tab(k), k.queue.pids)
  {
    var k1 := Populated(k, fg, stack, argv);
    k1.(queue := Add(Tab(k1), k1.queue, k1.nextPid))
  }

  /** process_create; `stack` and `args` are what the kernel heap answers, `wantsArgs` whether arguments are copied. */
  function Create(k: Kernel, fg: nat, wantsArgs: bool, stack: Option<nat>, args: Option<nat>): (Kernel, int)
    requires Known(Tab(k), k.queue.pids)
  {
    if |Tab(k)| >= MAX_PROCESSES || stack.None? then (k, -1)
    else
      var k1 := k.(blocks := k.blocks + {stack.value});
      if wantsArgs && args.None? then (Release(k1, stack), -1)
      else
        var k2 := if wantsArgs then k1.(blocks := k1.blocks + {args.value}) else k1;
        (Entered(k2, fg, stack.value, if wantsArgs then args else None), k.nextPid + 1)
  }

  /** A parent blocked in waitpid for p finds the value in its saved RAX slot. */
  function WakeParent(k: Kernel, p: nat, retval: int): Kernel
    requires p in Tab(k)
  {
    var q := Tab(k)[p].parent;
    if q in Tab(k) && Tab(k)[q].state == Blocked && Tab(k)[q].waitingFor == p then
      With(k, q, Tab(k)[q].(savedRax := retval, waitingFor := 0, state := State.Ready, waitTicks := 0))
    else k
  }

  function SetRetval(k: Kernel, p: nat, retval: int): Kernel
    requires p in Tab(k)
  {
    With(k, p, Tab(k)[p].(retval := retval))
  }

  /** process_exit, after the current process's semaphores, pipes and FDs have been cleaned up. */
  function ExitEnd(k: Kernel, retval: int): Kernel
    requires Cur(k).Some? && Cur(k).value in Tab(k)
  {
    var k1 := WakeParent(k, Cur(k).value, retval);
    Forced(With(k1, Cur(k).value, Tab(k1)[Cur(k).value].(state := Zombie)))
  }

  /** process_kill between the cleaning up of semaphores and pipes and that of the FDs. */
  function KillMiddle(k: Kernel, p: nat): Kernel
    requires p in Tab(k)
  {
    var k1 := WakeParent(k, p, -1);
    if Cur(k) == Some(p) then With(k1, p, Tab(k1)[p].(state := Zombie))
    else k1.(queue := Remove(k1.queue, p))
  }

  function KillEnd(k: Kernel, p: nat): Kernel
    requires p in Tab(k)
  {
    if Cur(k) == Some(p) then Forced(k) else Bury(k, p)
  }

  function Clamp(priority: nat): nat {
    if priority < MIN_PRIORITY then MIN_PRIORITY else if priority > MAX_PRIORITY then MAX_PRIORITY else priority
  }

  /** process_nice. */
  function Nice(k: Kernel, p: nat, priority: nat): Kernel
    requires Known(Tab(k), k.queue.pids)
  {
    if p !in Tab(k) then k
    else
      var n := Clamp(priority % 256);
      var k1 := With(k, p, Tab(k)[p].(priority := n, waitTicks := 0, quanta := n));
      if Tab(k)[p].state in {State.Free, Zombie} then k1
      else
        assert Known(Tab(k1), Remove(k1.queue, p).pids) by { Scheduler.RemoveKnown(Tab(k1), k1.queue, p); }
        k1.(queue := Add(Tab(k1), Remove(k1.queue, p), p))
  }

  /** process_waitpid. */
  function WaitPid(k: Kernel, p: nat): (Kernel, int) {
    if p !in Tab(k) then (k, -1)
    else if Tab(k)[p].state == Zombie then (Bury(k, p), Tab(k)[p].retval)
    else if Cur(k).Some? && Cur(k).value in Tab(k) then
      (Forced(With(k, Cur(k).value, Tab(k)[Cur(k).value].(state := Blocked, waitingFor := p))), 0)
    else (Forced(k), 0)
  }

  /** sys_block: a toggle, that leaves alone who waits for a child. */
  function BlockCall(k: Kernel, p: nat): (Kernel, int) {
    if p !in Tab(k) || Tab(k)[p].state in {State.Free, Zombie} then (k, -1)
    else if Tab(k)[p].state == Blocked && Tab(k)[p].waitingFor != 0 then (k, -1)
    else if Tab(k)[p].state == Blocked then (k.(view := ProcessUnblock(k.view, p)), 0)
    else (k.(view := ProcessBlock(k.view, p)), 0)
  }

  function YieldCall(k: Kernel): Kernel {
    if Cur(k).Some? && Cur(k).value in Tab(k) then
      Forced(With(k, Cur(k).value, Tab(k)[Cur(k).value].(state := State.Ready)))
    else k
  }

  // ---------------------------------------------------------------- leaving the kernel

  /** The result goes to the RAX slot of the caller's saved frame. */
  function SaveRax(k: Kernel, r: int): Kernel {
    if Cur(k).Some? && Cur(k).value in Tab(k) then With(k, Cur(k).value, Tab(k)[Cur(k).value].(savedRax := r)) else k
  }

  /** The end of the handler: a switch if one was asked for. */
  function Leave(k: Kernel): Kernel
    requires Shape(k)
  {
    if k.view.force then YieldImpl(k.(view := k.view.(force := false))) else k
  }
}
