/**
 The one process the keyboard's driver knows. A second one that goes to sleep at the terminal makes the driver forget
 the first, nothing else does, and one that is forgotten sleeps until somebody unblocks or kills it.
 */
module Keyboard {
  import opened Processes
  import opened KernelSpec
  import K = KernelTheorems
  import Runs = KernelRuns
  import Run = Scheduler
  import ST = SemaphoreTheorems
  import Pipe = PipeSpec
  import PQ = PipeQueues
  import PS = PipeStreams
  import opened Interplay
  import opened System

  /** x is asleep and in no queue. */
  ghost predicate Stranded(s: System, x: nat) {
    s.k.queue.idle != Some(x) && PQ.Asleep(Tab(s.k), x) && x !in Queued(s)
  }

  /** ... and the driver does not know it either. */
  ghost predicate Forgotten(s: System, x: nat) {
    s.k.queue.idle != Some(x) && PQ.Asleep(Tab(s.k), x) && x !in Sleepers(s)
  }

  lemma ForgottenIs(s: System, x: nat)
    ensures Forgotten(s, x) <==> Stranded(s, x) && s.kbd != Some(x)
  {
  }

  /** The entry kills x. */
  ghost predicate Kills(s: System, e: Event, x: nat) {
    match e
    case Kill(pid, _) => pid == x
    case CtrlC => |K.Foreground(Tab(s.k))| > 1 && K.Newest(Tab(s.k), s.k.nextPid) == x
    case _ => false
  }

  /** sys_block, which is a toggle, or sys_unblock is aimed at x. */
  predicate Unblocks(e: Event, x: nat) {
    e.Simple? && (e.call.Block? || e.call.Unblock?) && e.call.pid == x
  }

  /** The running process goes to sleep at the terminal. */
  predicate SleepsForKey(s: System, e: Event) {
    e.PipeCall? && SleepsAtTerminal(PipeWorld(s), e.io)
  }

  /** A key wakes x. */
  predicate WakesForKey(s: System, e: Event, x: nat) {
    e == Key(true) && s.kbd == Some(x)
  }

  // ---------------------------------------------------------------- who sleeps in no queue sleeps on

  lemma StaysAsleep(v: View, v': View, q: set<nat>, x: nat)
    requires Roused(v, v', q) && x !in q && PQ.Asleep(v.procs, x)
    ensures PQ.Asleep(v'.procs, x)
  {
    assert RousedAt(v, v', q, x);
  }

  lemma RestsAsleep(v: View, v': View, gone: set<nat>, x: nat)
    requires Rested(v, v', {x}, gone) && x !in gone && PQ.Asleep(v.procs, x)
    ensures PQ.Asleep(v'.procs, x)
  {
    assert RestedAt(v, v', {x}, x);
  }

  /** The caller is awake. */
  lemma NotTheCaller(s: System, x: nat)
    requires Inv(s) && PQ.Asleep(Tab(s.k), x)
    ensures Cur(s.k) != Some(x)
  {
    K.OneRuns(s.k);
  }

  /** The end of a service that left x asleep. */
  lemma ServiceSpares(s: System, v: View, r: int, x: nat)
    requires Inv(s) && ByProcess(s) && K.Soft(s.k.view, v) && PQ.Asleep(v.procs, x) && s.k.queue.idle != Some(x)
    ensures K.Mid(s.k.(view := v))
    ensures var k' := Finish(s.k.(view := v), r); PQ.Asleep(Tab(k'), x) && k'.queue.idle == s.k.queue.idle
  {
    K.SoftKeeps(s.k, v);
    assert K.SoftAt(s.k.view, v, Cur(s.k).value) && K.StateAt(s.k.view, Cur(s.k).value);
    FinishRests(s.k.(view := v), r, {x});
    RestsAsleep(v, Finish(s.k.(view := v), r).view, {}, x);
  }

  lemma SemSpares(s: System, op: ST.Step, x: nat)
    requires Inv(s) && Legal(s, SemCall(op)) && Stranded(s, x)
    ensures Stranded(After(s, SemCall(op)), x)
  {
    var (w, w') := (SemWorld(s), ST.Next(SemWorld(s), op));
    CallerFacts(s);
    NotTheCaller(s, x);
    SemParts(s, op);
    SleepyOf(s);
    SemEffect(s, op);
    if Gentle(w, w') { StaysAsleep(w.view, w'.view, SemWaiting(w.sems), x); }
    ServiceSpares(s, w'.view, SemResult(w, op), x);
  }

  lemma PipeSpares(s: System, io: PS.Event, x: nat)
    requires Inv(s) && Legal(s, PipeCall(io)) && Stranded(s, x)
    ensures Stranded(After(s, PipeCall(io)), x)
  {
    var (p, p') := (PipeWorld(s), PS.Next(PipeWorld(s), io));
    CallerFacts(s);
    NotTheCaller(s, x);
    PipeParts(s, io);
    PipeEffect(p, io);
    if PQ.Calm(p, p') {
      WakesRouse(p.view, p'.view, PQ.AllWaiters(p.pipes));
      StaysAsleep(p.view, p'.view, PQ.AllWaiters(p.pipes), x);
    }
    ServiceSpares(s, p'.view, PipeResult(p, io), x);
  }

  lemma CreateSpares(s: System, fg: nat, wantsArgs: bool, stack: Option<nat>, args: Option<nat>, x: nat)
    requires Inv(s) && Legal(s, Creation(fg, wantsArgs, stack, args)) && Stranded(s, x)
    ensures Stranded(After(s, Creation(fg, wantsArgs, stack, args)), x)
  {
    var (k1, r) := Create(s.k, fg, wantsArgs, stack, args);
    K.CreateKeeps(s.k, fg, wantsArgs, stack, args);
    CreateRests(s.k, fg, wantsArgs, stack, args, {x});
    RestsAsleep(s.k.view, k1.view, {}, x);
    FinishRests(k1, r, {x});
    RestsAsleep(k1.view, Finish(k1, r).view, {}, x);
  }

  lemma SimpleSpares(s: System, call: K.Call, rax: int, x: nat)
    requires Inv(s) && Legal(s, Simple(call, rax)) && Stranded(s, x) && !Unblocks(Simple(call, rax), x)
    ensures Stranded(After(s, Simple(call, rax)), x)
  {
    K.CallKeeps(s.k, call, rax);
    var (k1, r) := K.Called(s.k, call, rax);
    SimpleRests(s, call, rax, {x});
    RestsAsleep(s.k.view, k1.view, {}, x);
    FinishRests(k1, r, {x});
    RestsAsleep(k1.view, Finish(k1, r).view, {}, x);
  }

  lemma TimerSpares(s: System, x: nat)
    requires Inv(s) && Stranded(s, x)
    ensures Stranded(After(s, Timer), x)
  {
    TickKeeps(s);
    TickRests(s.k, {x});
    Runs.TickIdle(s.k);
    RestsAsleep(s.k.view, Tick(s.k).view, {}, x);
  }

  lemma ExitSpares(s: System, retval: int, rax: int, x: nat)
    requires Inv(s) && Legal(s, Exit(retval, rax)) && Stranded(s, x)
    ensures Stranded(After(s, Exit(retval, rax)), x)
  {
    var c := Cur(s.k).value;
    var k0 := SetRetval(s.k, c, retval);
    var p := ExitCleaned(s, retval);
    CallerFacts(s);
    NotTheCaller(s, x);
    ExitParts(s, retval);
    var k := s.k.(view := p.view);
    var k1 := ExitEnd(k, retval);
    StaysAsleep(k0.view, p.view, Queued(s), x);
    K.CallKeeps(s.k, K.Exit(retval, p.view), rax);
    assert K.PcbOk(Tab(s.k)[c], c, s.k.nextPid);
    ExitEndRests(k, c, retval, {x});
    RestsAsleep(k.view, k1.view, {}, x);
    FinishDead(k1, rax, {x});
    RestsAsleep(k1.view, Finish(k1, rax).view, {c}, x);
  }

  /** x sleeps on through the cleaning up for another. */
  lemma ReleaseSpares(s: System, pid: nat, x: nat)
    requires Inv(s) && pid in Tab(s.k) && s.k.queue.idle != Some(pid) && Stranded(s, x) && pid != x
    ensures pid in KillView(s, pid).procs && PQ.Asleep(KillReleased(s, pid).view.procs, x)
  {
    var v0 := SetRetval(s.k, pid, -1).view;
    var k1 := s.k.(view := KillView(s, pid));
    var p1 := PipesCleaned(s, v0, pid);
    assert K.PcbOk(Tab(s.k)[pid], pid, s.k.nextPid);
    OneRests(s.k.view, pid, Tab(s.k)[pid].(retval := -1), Sleepers(s), s.k.view.cur, s.k.view.force);
    RestedParts(s.sems, s.pipes, s.fds, Just(s.kbd), s.k.view, v0);
    CleanedParts(s, v0, pid);
    StaysAsleep(v0, k1.view, SemWaiting(s.sems), x);
    KillMiddleRests(k1, pid, {x});
    RestsAsleep(k1.view, KillMiddle(k1, pid).view, {}, x);
    KillRest(s, pid);
    StaysAsleep(KillMiddle(k1, pid).view, KillReleased(s, pid).view, PQ.AllWaiters(p1.pipes), x);
  }

  lemma KilledQueues(s: System, pid: nat)
    requires Inv(s) && s.k.queue.idle != Some(pid)
    ensures Queued(Killed(s, pid)) <= Queued(s) && Killed(s, pid).k.queue.idle == s.k.queue.idle
  {
    if pid in Tab(s.k) {
      KillParts(s, pid);
      KilledIs(s.k, pid, KillView(s, pid), KillReleased(s, pid).view);
    }
  }

  lemma DeathSpares(s: System, pid: nat, rax: Option<int>, x: nat)
    requires Inv(s) && pid in Tab(s.k) && s.k.queue.idle != Some(pid) && Stranded(s, x) && pid != x
    requires K.Mid(Killed(s, pid).k) && Killed(s, pid).k.queue.idle == s.k.queue.idle
    ensures PQ.Asleep(Tab(Depart(Killed(s, pid).k, rax)), x)
  {
    ReleaseSpares(s, pid, x);
    KilledRests(s, pid, rax, {x});
    RestsAsleep(KillReleased(s, pid).view, Depart(Killed(s, pid).k, rax).view, {pid}, x);
  }

  lemma KillSpares(s: System, pid: nat, rax: Option<int>, x: nat)
    requires Inv(s) && s.k.queue.idle != Some(pid) && Stranded(s, x) && pid != x && K.Mid(Killed(s, pid).k)
    ensures var t := Killed(s, pid); Stranded(t.(k := Depart(t.k, rax)), x)
  {
    var t := Killed(s, pid);
    KilledQueues(s, pid);
    DepartRests(t.k, rax, {x});
    if pid in Tab(s.k) {
      DeathSpares(s, pid, rax, x);
    } else {
      K.OneRuns(s.k);
      RestsAsleep(t.k.view, Depart(t.k, rax).view, {}, x);
    }
  }

  /** Nothing but a kill, an unblocking or, for the one the driver knows, a key ends the sleep of a process that is in
      no queue. */
  lemma StepSpares(s: System, e: Event, x: nat)
    requires Inv(s) && Legal(s, e) && Stranded(s, x)
    requires !Kills(s, e, x) && !Unblocks(e, x) && !WakesForKey(s, e, x)
    ensures Stranded(After(s, e), x)
  {
    match e
    case Timer => TimerSpares(s, x);
    case Key(wakes) => KeyKeeps(s, wakes);
    case CtrlC =>
      if |K.Foreground(Tab(s.k))| > 1 {
        var pid := K.Newest(Tab(s.k), s.k.nextPid);
        KilledMid(s, pid);
        KillSpares(s, pid, None, x);
      }
    case SemCall(op) => SemSpares(s, op, x);
    case PipeCall(io) => PipeSpares(s, io, x);
    case Creation(fg, wantsArgs, stack, args) => CreateSpares(s, fg, wantsArgs, stack, args, x);
    case Exit(retval, rax) => ExitSpares(s, retval, rax, x);
    case Kill(pid, rax) =>
      KilledMid(s, pid);
      KillSpares(s, pid, Some(rax), x);
    case Simple(call, rax) => SimpleSpares(s, call, rax, x);
  }

  // ---------------------------------------------------------------- what does end its sleep

  lemma UnblockEnds(s: System, call: K.Call, rax: int, x: nat)
    requires Inv(s) && Legal(s, Simple(call, rax)) && PQ.Asleep(Tab(s.k), x) && Unblocks(Simple(call, rax), x)
    ensures !PQ.Asleep(Tab(After(s, Simple(call, rax)).k), x)
  {
    NotTheCaller(s, x);
    K.CallKeeps(s.k, call, rax);
    var (k1, r) := K.Called(s.k, call, rax);
    assert k1.view == ProcessUnblock(s.k.view, x);
    Runs.EndSame(k1, r, x);
  }

  lemma KillEnds(s: System, rax: Option<int>, x: nat)
    requires Inv(s) && s.k.queue.idle != Some(x) && x in Tab(s.k) && K.Mid(Killed(s, x).k)
    ensures x !in Tab(Depart(Killed(s, x).k, rax))
  {
    KillParts(s, x);
    KilledQueues(s, x);
    KilledRests(s, x, rax, {});
  }

  /** A process that sleeps in no queue sleeps on if and only if it is not killed or unblocked, nor woken by a key that
      the driver knows it waits for. */
  lemma SleepsOnIff(s: System, e: Event, x: nat)
    requires Inv(s) && Legal(s, e) && Stranded(s, x)
    ensures Stranded(After(s, e), x) <==> !Kills(s, e, x) && !Unblocks(e, x) && !WakesForKey(s, e, x)
  {
    if Kills(s, e, x) {
      KilledMid(s, x);
      KillEnds(s, if e.Kill? then Some(e.rax) else None, x);
    } else if Unblocks(e, x) {
      UnblockEnds(s, e.call, e.rax, x);
    } else if WakesForKey(s, e, x) {
      KeyKeeps(s, true);
    } else {
      StepSpares(s, e, x);
    }
  }

  /** Whom the driver knows afterwards, as far as x is concerned, which is not running. */
  lemma KnownIff(s: System, e: Event, x: nat)
    requires Inv(s) && Legal(s, e) && PQ.Asleep(Tab(s.k), x)
    ensures After(s, e).kbd == Some(x) <==>
            s.kbd == Some(x) && !Kills(s, e, x) && !SleepsForKey(s, e) && !WakesForKey(s, e, x)
  {
    NotTheCaller(s, x);
  }

  // ---------------------------------------------------------------- the driver forgets

  /** The driver forgets the process that waits for the keyboard, and leaves it asleep, if and only if the running
      process goes to sleep at the terminal. */
  lemma ForgetsIff(s: System, e: Event, x: nat)
    requires Inv(s) && Legal(s, e) && s.kbd == Some(x)
    ensures Forgotten(After(s, e), x) <==> SleepsForKey(s, e)
    ensures SleepsForKey(s, e) ==> After(s, e).kbd == Cur(s.k)
  {
    assert PQ.Asleep(Tab(s.k), x) && x in Sleepers(s);
    SleepsOnIff(s, e, x);
    KnownIff(s, e, x);
    ForgottenIs(After(s, e), x);
  }

  /** Once forgotten it stays so if and only if nobody kills or unblocks it. */
  lemma StaysForgottenIff(s: System, e: Event, x: nat)
    requires Inv(s) && Legal(s, e) && Forgotten(s, x)
    ensures Forgotten(After(s, e), x) <==> !Kills(s, e, x) && !Unblocks(e, x)
  {
    SleepsOnIff(s, e, x);
    KnownIff(s, e, x);
    ForgottenIs(After(s, e), x);
  }

  /** Nobody kills or unblocks x. */
  ghost predicate LeftAlone(s: System, es: seq<Event>, x: nat)
    requires Inv(s) && RunsFrom(s, es)
    decreases |es|
  {
    es != [] ==>
      && !Kills(s, es[0], x) && !Unblocks(es[0], x)
      && (StepKeeps(s, es[0]); LeftAlone(After(s, es[0]), es[1..], x))
  }

  /** Whatever else happens, and whatever keys are pressed, it sleeps on. */
  lemma {:induction false} ForgottenForGood(s: System, es: seq<Event>, x: nat)
    requires Inv(s) && RunsFrom(s, es) && Forgotten(s, x) && LeftAlone(s, es, x)
    ensures Forgotten(End(s, es), x)
    decreases |es|
  {
    if es != [] {
      StepKeeps(s, es[0]);
      StaysForgottenIff(s, es[0], x);
      ForgottenForGood(After(s, es[0]), es[1..], x);
    }
  }

  // ---------------------------------------------------------------- it happens

  /** A read of one byte from the standard input, with nothing typed. */
  const READ: Event := PipeCall(PS.Read(0, 1, None))

  /** The shell creates a process in the foreground, reads from the terminal, and so does the other. */
  function TwoReaders(c: nat): seq<Event> { [Creation(1, false, Some(c), None), READ, READ] }

  /** A process in the foreground whose standard input is the terminal. */
  predicate AtTerminal(s: System, p: nat) {
    p in Tab(s.k) && Tab(s.k)[p].foreground != 0 && Tab(s.k)[p].stdin == Pipe.FD_STDIN
  }

  lemma ReaderSleeps(s: System)
    requires TerminalsOk(s.fds) && Cur(s.k).Some? && AtTerminal(s, Cur(s.k).value)
    ensures SleepsForKey(s, READ)
  {
  }

  /** The shell, 2, runs, and 3 is ready. */
  ghost predicate Begun(s: System) {
    && Inv(s) && Cur(s.k) == Some(2) && s.k.queue == Run.RunQueue([2, 3], 0, Some(1)) && s.kbd == None
    && AtTerminal(s, 2) && AtTerminal(s, 3) && Run.IsReady(Tab(s.k)[3])
  }

  ghost predicate AtBoot(s: System) {
    Inv(s) && s.kbd == None && Runs.ShellAlone(s.k)
  }

  lemma BootIs(a: nat, b: nat)
    requires a != b
    ensures AtBoot(Boot(a, b)) && Boot(a, b).k.blocks == {a, b}
  {
    BootInv(a, b);
    Runs.ShellBoots(a, b);
  }

  lemma CreatedBegun(s: System, c: nat)
    requires AtBoot(s) && c !in s.k.blocks
    ensures var e := Creation(1, false, Some(c), None); Legal(s, e) && Begun(After(s, e))
  {
    StepKeeps(s, Creation(1, false, Some(c), None));
    Runs.ShellCreates(s.k, 1, c);
    CreatedKernel(s, c);
  }

  lemma CreatedKernel(s: System, c: nat)
    requires Inv(s) && K.FreshBlocks(s.k, Some(c), None) && Run.Known(Tab(s.k), s.k.queue.pids)
    requires !Create(s.k, 1, false, Some(c), None).0.view.force
    ensures var (k1, r) := Create(s.k, 1, false, Some(c), None);
            AfterCreate(s, 1, false, Some(c), None).k == SaveRax(k1, r)
  {
  }

  /** The shell sleeps, and 3 is the only one to choose. */
  lemma ShellReads(s: System)
    requires Begun(s)
    ensures Legal(s, READ) && SleepsForKey(s, READ)
    ensures var s' := After(s, READ);
            Inv(s') && s'.kbd == Some(2) && Cur(s'.k) == Some(3) && AtTerminal(s', 3) && s'.k.queue.idle == Some(1)
  {
    ReaderSleeps(s);
    CallerFacts(s);
    StepKeeps(s, READ);
    TerminalRead(PipeWorld(s), READ.io);
    var v := ProcessBlock(s.k.view, 2);
    var k := SaveRax(s.k.(view := v), PipeResult(PipeWorld(s), READ.io));
    var k1 := Pause(k.(view := k.view.(force := false)));
    assert k1.queue.pids[1] == 3;
    Run.Selection(Tab(k1), k1.queue);
  }

  lemma OneBefore(s: System, e: Event, es: seq<Event>)
    requires Inv(s) && Legal(s, e) && Inv(After(s, e)) && RunsFrom(After(s, e), es)
    ensures RunsFrom(s, [e] + es) && End(s, [e] + es) == End(After(s, e), es)
  {
    assert ([e] + es)[1..] == es;
  }

  lemma TwoReads(s: System)
    requires Begun(s)
    ensures RunsFrom(s, [READ] + [READ]) && Forgotten(End(s, [READ] + [READ]), 2)
  {
    ShellReads(s);
    var s1 := After(s, READ);
    ReaderSleeps(s1);
    ForgetsIff(s1, READ, 2);
    StepKeeps(s1, READ);
    OneBefore(s1, READ, []);
    assert [READ] + [] == [READ];
    OneBefore(s, READ, [READ]);
  }

  lemma ThreeSteps(s: System, c: nat)
    requires AtBoot(s) && c !in s.k.blocks
    ensures RunsFrom(s, TwoReaders(c)) && Forgotten(End(s, TwoReaders(c)), 2)
  {
    var e := Creation(1, false, Some(c), None);
    CreatedBegun(s, c);
    TwoReads(After(s, e));
    OneBefore(s, e, [READ] + [READ]);
    assert [e] + ([READ] + [READ]) == TwoReaders(c);
  }

  /** From boot on: a reader in the foreground is forgotten as soon as a second one reads. */
  lemma ForgottenHappens(a: nat, b: nat, c: nat)
    requires a != b && c != a && c != b
    ensures RunsFromBoot(a, b, TwoReaders(c))
    ensures Forgotten(EndFromBoot(a, b, TwoReaders(c)), 2)
  {
    BootIs(a, b);
    ThreeSteps(Boot(a, b), c);
  }
}
