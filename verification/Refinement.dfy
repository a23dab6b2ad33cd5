/**
 Every entry into the whole kernel is an entry of the kernel of processes alone, with the effects of semaphores, pipes
 and the keyboard in their places; so what is proved of that one in all runs holds of this one.
 */
module Refinement {
  import opened Processes
  import opened KernelSpec
  import K = KernelTheorems
  import Runs = KernelRuns
  import CallResults
  import Sems = SemaphoreSpec
  import ST = SemaphoreTheorems
  import Pipe = PipeSpec
  import PQ = PipeQueues
  import PS = PipeStreams
  import FdDuties
  import Traces
  import opened Interplay
  import opened System

  /** The entry as the kernel of processes sees it. */
  ghost function Seen(s: System, e: Event): K.Event
    requires Inv(s) && Legal(s, e)
  {
    match e
    case Timer => K.Timer
    case Key(wakes) => K.Keyboard(if wakes then Woken(s) else s.k.view)
    case CtrlC =>
      var pid := K.Newest(Tab(s.k), s.k.nextPid);
      if pid in Tab(s.k) then
        KillParts(s, pid);
        K.CtrlC(KillView(s, pid), KillReleased(s, pid).view)
      else K.CtrlC(s.k.view, s.k.view)
    case SemCall(op) => K.Syscall(K.Service(ST.Next(SemWorld(s), op).view, SemResult(SemWorld(s), op)), 0)
    case PipeCall(io) => K.Syscall(K.Service(PS.Next(PipeWorld(s), io).view, PipeResult(PipeWorld(s), io)), 0)
    case Creation(fg, wantsArgs, stack, args) => K.Syscall(K.Creation(fg, wantsArgs, stack, args), 0)
    case Exit(retval, rax) => K.Syscall(K.Exit(retval, ExitCleaned(s, retval).view), rax)
    case Kill(pid, rax) =>
      if pid in Tab(s.k) then
        KillParts(s, pid);
        K.Syscall(K.Kill(pid, KillView(s, pid), KillReleased(s, pid).view), rax)
      else K.Syscall(K.Kill(pid, s.k.view, s.k.view), rax)
    case Simple(call, rax) => K.Syscall(call, rax)
  }

  lemma SoftSelf(v: View)
    ensures K.Soft(v, v)
  {
    forall p | p in v.procs ensures K.SoftAt(v, v, p) { }
  }

  /** The step is the same. */
  lemma StepRefines(s: System, e: Event)
    requires Inv(s) && Legal(s, e)
    ensures K.Enabled(s.k, Seen(s, e)) && After(s, e).k == K.After(s.k, Seen(s, e))
  {
    match e
    case Timer =>
    case Key(wakes) =>
      WokenParts(s);
      SoftSelf(s.k.view);
    case CtrlC =>
      var pid := K.Newest(Tab(s.k), s.k.nextPid);
      if pid in Tab(s.k) { KillParts(s, pid); }
    case SemCall(op) => SemParts(s, op);
    case PipeCall(io) => PipeParts(s, io);
    case Creation(fg, wantsArgs, stack, args) =>
    case Exit(retval, rax) => ExitParts(s, retval);
    case Kill(pid, rax) => if pid in Tab(s.k) { KillParts(s, pid); }
    case Simple(call, rax) =>
  }

  /** So everybody's saved RAX slot is as it should be. */
  lemma SlotsRefine(s: System, e: Event, p: nat)
    requires Inv(s) && Legal(s, e) && p in Tab(s.k) && p in Tab(After(s, e).k)
    ensures K.Enabled(s.k, Seen(s, e))
    ensures Tab(After(s, e).k)[p].savedRax == CallResults.SlotAfter(s.k, Seen(s, e), p)
  {
    StepRefines(s, e);
    CallResults.SlotIs(s.k, Seen(s, e), p);
  }

  ghost function SeenRun(s: System, es: seq<Event>): seq<K.Event>
    requires Inv(s) && RunsFrom(s, es)
    decreases |es|
  {
    if es == [] then []
    else
      StepKeeps(s, es[0]);
      [Seen(s, es[0])] + SeenRun(After(s, es[0]), es[1..])
  }

  /** And so is every run. */
  lemma {:induction false} RunRefines(s: System, es: seq<Event>)
    requires Inv(s) && RunsFrom(s, es)
    ensures Runs.Runs(s.k, SeenRun(s, es)) && End(s, es).k == Runs.End(s.k, SeenRun(s, es))
    decreases |es|
  {
    if es != [] {
      StepKeeps(s, es[0]);
      StepRefines(s, es[0]);
      RunRefines(After(s, es[0]), es[1..]);
      Runs.OneBefore(s.k, Seen(s, es[0]), SeenRun(After(s, es[0]), es[1..]));
    }
  }

  // ---------------------------------------------------------------- the pipes

  /** What the pipes see of it: the system call, birth or death, and whatever else became of the processes. */
  ghost function SeenByPipes(s: System, e: Event): seq<PS.Event>
    requires Inv(s) && Legal(s, e)
  {
    var last := PS.Others(After(s, e).k.view);
    match e
    case PipeCall(io) => [io, last]
    case Creation(fg, wantsArgs, stack, args) =>
      if Create(s.k, fg, wantsArgs, stack, args).1 == -1 then [last] else [PS.Birth, last]
    case Exit(retval, _) => Dying(s, Cur(s.k).value, retval) + [last]
    case Kill(pid, _) => if pid in Tab(s.k) then Dying(s, pid, -1) + [last] else [last]
    case CtrlC =>
      var pid := K.Newest(Tab(s.k), s.k.nextPid);
      if |K.Foreground(Tab(s.k))| > 1 && pid in Tab(s.k) then Dying(s, pid, -1) + [last] else [last]
    case _ => [last]
  }

  ghost function Dying(s: System, pid: nat, retval: int): seq<PS.Event>
    requires pid in Tab(s.k)
  {
    [PS.Others(SemsCleaned(s, SetRetval(s.k, pid, retval).view, pid).view), PS.Death(pid)]
  }

  lemma OneMore(t: PS.Traced, e: PS.Event, es: seq<PS.Event>)
    requires PS.Enabled(t.s, e) && PS.Runs(PS.After(t, e), es)
    ensures PS.Runs(t, [e] + es) && PS.End(t, [e] + es) == PS.End(PS.After(t, e), es)
  {
    assert ([e] + es)[1..] == es;
  }

  /** The last of these events. */
  lemma Settles(t: PS.Traced, s: System)
    requires Inv(s) && t.s.pipes == s.pipes && t.s.fds == s.fds
    ensures PS.Runs(t, [PS.Others(s.k.view)]) && PS.End(t, [PS.Others(s.k.view)]).s == PipeWorld(s)
  {
    var e := PS.Others(s.k.view);
    assert [e] + [] == [e];
    OneMore(t, e, []);
  }

  lemma FirstAndLast(t: PS.Traced, e: PS.Event, s: System)
    requires Inv(s) && PS.Enabled(t.s, e)
    requires PS.Next(t.s, e).pipes == s.pipes && PS.Next(t.s, e).fds == s.fds
    ensures PS.Runs(t, [e, PS.Others(s.k.view)]) && PS.End(t, [e, PS.Others(s.k.view)]).s == PipeWorld(s)
  {
    var last := PS.Others(s.k.view);
    Settles(PS.After(t, e), s);
    OneMore(t, e, [last]);
    assert [e, last] == [e] + [last];
  }

  /** Giving back the streams of pid does to pipes and FDs what it does whatever else has become of the processes. */
  lemma ReleaseSame(a: Pipe.Pipes, b: Pipe.Pipes, pid: nat)
    requires a.pipes == b.pipes && a.fds == b.fds && FdDuties.SameStreams(a.view, b.view, pid)
    ensures Pipe.ReleaseFds(a, pid).pipes == Pipe.ReleaseFds(b, pid).pipes
    ensures Pipe.ReleaseFds(a, pid).fds == Pipe.ReleaseFds(b, pid).fds
  {
    var p := a.view.procs[pid];
    if p.stdin >= 0 { DecrefSame(a, b, p.stdin); }
    var a1 := if p.stdin >= 0 then Pipe.Decref(a, p.stdin) else a;
    var b1 := if p.stdin >= 0 then Pipe.Decref(b, p.stdin) else b;
    if p.stdout >= 0 { DecrefSame(a1, b1, p.stdout); }
  }

  lemma DecrefSame(a: Pipe.Pipes, b: Pipe.Pipes, f: nat)
    requires a.pipes == b.pipes && a.fds == b.fds
    ensures Pipe.Decref(a, f).pipes == Pipe.Decref(b, f).pipes && Pipe.Decref(a, f).fds == Pipe.Decref(b, f).fds
  {
  }

  /** The cleaning of semaphores wakes nobody who waits at a pipe. */
  lemma DyingEnabled(s: System, pid: nat, retval: int)
    requires Inv(s) && pid in Tab(s.k)
    ensures PS.Enabled(PipeWorld(s), Dying(s, pid, retval)[0])
  {
    var v0 := SetRetval(s.k, pid, retval).view;
    OneRests(s.k.view, pid, Tab(s.k)[pid].(retval := retval), Sleepers(s), s.k.view.cur, s.k.view.force);
    assert |v0.procs.Keys| == |Tab(s.k).Keys|;
    RestedParts(s.sems, s.pipes, s.fds, Just(s.kbd), s.k.view, v0);
    CleanedParts(s, v0, pid);
    var v1 := SemsCleaned(s, v0, pid).view;
    forall x | x in PQ.AllWaiters(s.pipes) ensures PQ.Asleep(v1.procs, x) {
      assert PQ.Asleep(v0.procs, x);
      assert RousedAt(v0, v1, SemWaiting(s.sems), x);
    }
  }

  lemma DyingRuns(t: PS.Traced, s: System, s': System, pid: nat, retval: int)
    requires Inv(s) && Inv(s') && t.s == PipeWorld(s) && pid in Tab(s.k)
    requires var v := SemsCleaned(s, SetRetval(s.k, pid, retval).view, pid).view;
             var p := Pipe.ReleaseFds(PipesCleaned(s, SetRetval(s.k, pid, retval).view, pid), pid);
             s'.pipes == p.pipes && s'.fds == p.fds
    ensures PS.Runs(t, Dying(s, pid, retval) + [PS.Others(s'.k.view)])
    ensures PS.End(t, Dying(s, pid, retval) + [PS.Others(s'.k.view)]).s == PipeWorld(s')
  {
    var d := Dying(s, pid, retval);
    var last := PS.Others(s'.k.view);
    DyingEnabled(s, pid, retval);
    var t1 := PS.After(t, d[0]);
    var t2 := PS.After(t1, d[1]);
    Settles(t2, s');
    OneMore(t1, d[1], [last]);
    OneMore(t, d[0], [d[1]] + [last]);
    assert d + [last] == [d[0]] + ([d[1]] + [last]);
  }

  lemma KilledStreams(s: System, pid: nat)
    requires Inv(s) && pid in Tab(s.k) && s.k.queue.idle != Some(pid)
    ensures pid in KillView(s, pid).procs
    ensures var p := Pipe.ReleaseFds(PipesCleaned(s, SetRetval(s.k, pid, -1).view, pid), pid);
            KillReleased(s, pid).pipes == p.pipes && KillReleased(s, pid).fds == p.fds
  {
    KillParts(s, pid);
    var p := PipesCleaned(s, SetRetval(s.k, pid, -1).view, pid);
    var v := KillMiddle(s.k.(view := KillView(s, pid)), pid).view;
    ReleaseSame(p.(view := v), p, pid);
  }

  lemma KillByPipes(t: PS.Traced, s: System, s': System, pid: nat)
    requires Inv(s) && Inv(s') && t.s == PipeWorld(s) && pid in Tab(s.k) && s.k.queue.idle != Some(pid)
    requires s'.pipes == Killed(s, pid).pipes && s'.fds == Killed(s, pid).fds
    ensures PS.Runs(t, Dying(s, pid, -1) + [PS.Others(s'.k.view)])
    ensures PS.End(t, Dying(s, pid, -1) + [PS.Others(s'.k.view)]).s == PipeWorld(s')
  {
    KillParts(s, pid);
    KilledStreams(s, pid);
    DyingRuns(t, s, s', pid, -1);
  }

  /** What becomes of pipes and FDs in an entry is a run of the pipes. */
  lemma StepByPipes(t: PS.Traced, s: System, e: Event)
    requires Inv(s) && Legal(s, e) && t.s == PipeWorld(s)
    ensures PS.Runs(t, SeenByPipes(s, e)) && PS.End(t, SeenByPipes(s, e)).s == PipeWorld(After(s, e))
  {
    var s' := After(s, e);
    StepKeeps(s, e);
    match e
    case PipeCall(io) =>
      CallerFacts(s);
      FirstAndLast(t, io, s');
    case Creation(fg, wantsArgs, stack, args) =>
      if Create(s.k, fg, wantsArgs, stack, args).1 == -1 {
        Settles(t, s');
      } else {
        BornIs(s);
        FirstAndLast(t, PS.Birth, s');
      }
    case Exit(retval, _) =>
      CallerFacts(s);
      DyingRuns(t, s, s', Cur(s.k).value, retval);
    case Kill(pid, _) => if pid in Tab(s.k) { KillByPipes(t, s, s', pid); } else { Settles(t, s'); }
    case CtrlC =>
      var pid := K.Newest(Tab(s.k), s.k.nextPid);
      if |K.Foreground(Tab(s.k))| > 1 && pid in Tab(s.k) { KillByPipes(t, s, s', pid); } else { Settles(t, s'); }
    case _ => Settles(t, s');
  }

  ghost predicate MayHappen(t: PS.Traced, e: PS.Event) { PS.Enabled(t.s, e) }

  lemma {:induction false} PipeTraces(t: PS.Traced, es: seq<PS.Event>)
    ensures PS.Runs(t, es) <==> Traces.Runs(MayHappen, PS.After, t, es)
    ensures PS.End(t, es) == Traces.End(PS.After, t, es)
    decreases |es|
  {
    if es != [] { PipeTraces(PS.After(t, es[0]), es[1..]); }
  }

  lemma RunsJoin(t: PS.Traced, a: seq<PS.Event>, b: seq<PS.Event>)
    requires PS.Runs(t, a) && PS.Runs(PS.End(t, a), b)
    ensures PS.Runs(t, a + b) && PS.End(t, a + b) == PS.End(PS.End(t, a), b)
  {
    PipeTraces(t, a);
    PipeTraces(PS.End(t, a), b);
    Traces.RunsJoin(MayHappen, PS.After, t, a, b);
    PipeTraces(t, a + b);
  }

  /** Every run of the whole is a run of the pipes, in which all that is proved of those holds. */
  lemma {:induction false} RunByPipes(t: PS.Traced, s: System, es: seq<Event>) returns (ps: seq<PS.Event>)
    requires Inv(s) && RunsFrom(s, es) && t.s == PipeWorld(s)
    ensures PS.Runs(t, ps) && PS.End(t, ps).s == PipeWorld(End(s, es))
    decreases |es|
  {
    if es == [] {
      ps := [];
    } else {
      var first := SeenByPipes(s, es[0]);
      StepKeeps(s, es[0]);
      StepByPipes(t, s, es[0]);
      var rest := RunByPipes(PS.End(t, first), After(s, es[0]), es[1..]);
      RunsJoin(t, first, rest);
      ps := first + rest;
    }
  }

  ghost function BootTrace(stack1: nat, stack2: nat): PS.Traced {
    PS.Traced(PipeWorld(Boot(stack1, stack2)), seq(Pipe.MAX_PIPES, _ => PS.Log(0, [], [])))
  }

  /** From boot on. */
  lemma PipesFromBoot(stack1: nat, stack2: nat, es: seq<Event>) returns (ps: seq<PS.Event>)
    requires stack1 != stack2 && RunsFromBoot(stack1, stack2, es)
    ensures var t := BootTrace(stack1, stack2);
            PS.Initial(t) && PS.Runs(t, ps) && PS.End(t, ps).s == PipeWorld(EndFromBoot(stack1, stack2, es))
  {
    BootInv(stack1, stack2);
    ps := RunByPipes(BootTrace(stack1, stack2), Boot(stack1, stack2), es);
  }

  lemma KernelFromBoot(stack1: nat, stack2: nat, es: seq<Event>) returns (ks: seq<K.Event>)
    requires stack1 != stack2 && RunsFromBoot(stack1, stack2, es)
    ensures Runs.RunsFromBoot(stack1, stack2, ks)
    ensures EndFromBoot(stack1, stack2, es).k == Runs.EndFromBoot(stack1, stack2, ks)
  {
    BootInv(stack1, stack2);
    Runs.BootKeeps(stack1, stack2);
    RunRefines(Boot(stack1, stack2), es);
    ks := SeenRun(Boot(stack1, stack2), es);
  }

  // ---------------------------------------------------------------- the semaphores

  /** A run of the table of semaphores, and its end. */
  ghost predicate SemRun(w: Sems.World, ops: seq<ST.Step>) { Traces.Runs(ST.Legal, ST.Next, w, ops) }

  ghost function SemEnd(w: Sems.World, ops: seq<ST.Step>): Sems.World { Traces.End(ST.Next, w, ops) }

  lemma SemOneMore(w: Sems.World, op: ST.Step, ops: seq<ST.Step>)
    requires ST.Legal(w, op) && SemRun(ST.Next(w, op), ops)
    ensures SemRun(w, [op] + ops) && SemEnd(w, [op] + ops) == SemEnd(ST.Next(w, op), ops)
  {
    assert ([op] + ops)[1..] == ops;
  }

  /** What the semaphores see: the system call or the death, and whatever else became of the processes. */
  ghost function SeenBySems(s: System, e: Event): seq<ST.Step>
    requires Inv(s) && Legal(s, e)
  {
    var last := ST.Other(After(s, e).k.view);
    match e
    case SemCall(op) => [op, last]
    case Exit(retval, _) => [ST.Other(SetRetval(s.k, Cur(s.k).value, retval).view), ST.Die(Cur(s.k).value), last]
    case Kill(pid, _) =>
      if pid in Tab(s.k) then [ST.Other(SetRetval(s.k, pid, -1).view), ST.Die(pid), last] else [last]
    case CtrlC =>
      var pid := K.Newest(Tab(s.k), s.k.nextPid);
      if |K.Foreground(Tab(s.k))| > 1 && pid in Tab(s.k) then
        [ST.Other(SetRetval(s.k, pid, -1).view), ST.Die(pid), last]
      else [last]
    case _ => [last]
  }

  /** The last of these steps, from a view on whose bitmaps no more has changed. */
  lemma SemSettles(w: Sems.World, s: System)
    requires Inv(s) && w.sems == s.sems && Rested(w.view, s.k.view, {}, {})
    ensures SemRun(w, [ST.Other(s.k.view)]) && SemEnd(w, [ST.Other(s.k.view)]) == SemWorld(s)
  {
    var v := s.k.view;
    forall p | p in w.view.procs && p in v.procs ensures ST.SameBits(w.view.procs[p], v.procs[p]) {
      assert RestedAt(w.view, v, {}, p);
    }
    forall p | p in v.procs && p !in w.view.procs ensures v.procs[p].heldSems == {} && v.procs[p].openedSems == {} {
      assert NewAt(w.view, v, p);
    }
    forall i: nat, p | i < |w.sems| && p in w.sems[i].queue && p in v.procs ensures v.procs[p].state == Blocked {
      assert ST.SemOk(s.sems[i], v.procs, i);
    }
    assert [ST.Other(v)] + [] == [ST.Other(v)];
    SemOneMore(w, ST.Other(v), []);
  }

  /** A change of view that leaves the bitmaps alone, among the processes there are. */
  lemma BitsRest(v: View, v': View)
    requires v'.procs.Keys == v.procs.Keys
    requires forall p :: p in v.procs && p in v'.procs ==> ST.SameBits(v.procs[p], v'.procs[p])
    ensures Rested(v, v', {}, {})
  {
    forall p | p in v.procs && p in v'.procs ensures RestedAt(v, v', {}, p) { }
    forall p | p in v'.procs ensures NewAt(v, v', p) { }
  }

  /** From the end of a call's own code on. */
  lemma FinishBits(v: View, k: Kernel, r: int)
    requires K.Mid(k) && !CurIs(k, Zombie) && Rested(v, k.view, {}, {})
    ensures Rested(v, Finish(k, r).view, {}, {})
  {
    FinishRests(k, r, {});
    RestedTrans(v, k.view, Finish(k, r).view, {}, {});
  }

  lemma PipeBits(s: System, io: PS.Event)
    requires Inv(s) && ByProcess(s) && IsPipeCall(io)
    ensures Rested(s.k.view, PS.Next(PipeWorld(s), io).view, {}, {})
  {
    var (p, p') := (PipeWorld(s), PS.Next(PipeWorld(s), io));
    CallerFacts(s);
    PipeEffect(p, io);
    if PQ.Calm(p, p') {
      forall x | x in p.view.procs && x in p'.view.procs ensures ST.SameBits(p.view.procs[x], p'.view.procs[x]) {
        assert PQ.WakesAt(p.view, p'.view, PQ.AllWaiters(p.pipes), x);
      }
      BitsRest(p.view, p'.view);
    } else {
      SleepRests(p.view, {});
    }
  }

  /** An entry that is no call on semaphores, and ends nobody, leaves the bitmaps alone. */
  lemma CalmBits(s: System, e: Event)
    requires Inv(s) && Legal(s, e) && !e.SemCall? && !e.Exit? && !e.Kill? && !e.CtrlC?
    ensures Rested(s.k.view, After(s, e).k.view, {}, {})
  {
    K.OneRuns(s.k);
    match e
    case Timer =>
      K.TickKeeps(s.k);
      TickRests(s.k, {});
    case Key(wakes) =>
      KeyKeeps(s, wakes);
      KeyBits(s, wakes);
    case PipeCall(io) =>
      PipeParts(s, io);
      PipeBits(s, io);
      var v := PS.Next(PipeWorld(s), io).view;
      K.SoftKeeps(s.k, v);
      CallerFacts(s);
      assert K.SoftAt(s.k.view, v, Cur(s.k).value);
      FinishBits(s.k.view, s.k.(view := v), PipeResult(PipeWorld(s), io));
    case Creation(fg, wantsArgs, stack, args) =>
      K.CreateKeeps(s.k, fg, wantsArgs, stack, args);
      CreateRests(s.k, fg, wantsArgs, stack, args, {});
      FinishBits(s.k.view, Create(s.k, fg, wantsArgs, stack, args).0, Create(s.k, fg, wantsArgs, stack, args).1);
    case Simple(call, rax) =>
      K.CallKeeps(s.k, call, rax);
      SimpleRests(s, call, rax, {});
      FinishBits(s.k.view, K.Called(s.k, call, rax).0, K.Called(s.k, call, rax).1);
  }

  lemma KeyBits(s: System, wakes: bool)
    requires Inv(s)
    ensures Rested(s.k.view, AfterKey(s, wakes).k.view, {}, {})
  {
    if wakes {
      WokenParts(s);
      var k := s.k.(view := Woken(s));
      K.SoftKeeps(s.k, Woken(s));
      K.LeaveKeeps(k);
      BitsRest(s.k.view, Woken(s));
    } else {
      SameRests(s.k.view, s.k.view, {});
    }
  }

  lemma {:induction false} UnblockAllBits(v: View, q: seq<nat>)
    ensures Rested(v, Pipe.UnblockAll(v, q), {}, {}) && Pipe.UnblockAll(v, q).procs.Keys == v.procs.Keys
    decreases |q|
  {
    if q == [] {
      SameRests(v, v, {});
    } else {
      var v1 := ProcessUnblock(v, q[0]);
      BitsRest(v, v1);
      UnblockAllBits(v1, q[1..]);
      RestedTrans(v, v1, Pipe.UnblockAll(v, q), {}, {});
    }
  }

  lemma DecrefBits(s: Pipe.Pipes, f: nat)
    ensures Rested(s.view, Pipe.Decref(s, f).view, {}, {}) && Pipe.Decref(s, f).view.procs.Keys == s.view.procs.Keys
  {
    SameRests(s.view, s.view, {});
    if f < |s.fds| && s.fds[f].pipe < |s.pipes| {
      UnblockAllBits(s.view, s.pipes[s.fds[f].pipe].readers);
      UnblockAllBits(s.view, s.pipes[s.fds[f].pipe].writers);
    }
  }

  lemma ReleaseBits(s: Pipe.Pipes, pid: nat)
    requires pid in s.view.procs
    ensures Rested(s.view, Pipe.ReleaseFds(s, pid).view, {}, {})
  {
    var b := s.view.procs[pid];
    var s1 := if b.stdin >= 0 then Pipe.Decref(s, b.stdin) else s;
    var s2 := if b.stdout >= 0 then Pipe.Decref(s1, b.stdout) else s1;
    SameRests(s.view, s.view, {});
    SameRests(s1.view, s1.view, {});
    if b.stdin >= 0 { DecrefBits(s, b.stdin); }
    if b.stdout >= 0 { DecrefBits(s1, b.stdout); }
    RestedTrans(s.view, s1.view, s2.view, {}, {});
    BitsRest(s2.view, Pipe.ReleaseFds(s, pid).view);
    RestedTrans(s.view, s2.view, Pipe.ReleaseFds(s, pid).view, {}, {});
  }

  /** From the cleaning of semaphores on, an exit changes no bitmap. */
  lemma ExitBits(s: System, retval: int, rax: int)
    requires Inv(s) && Legal(s, Exit(retval, rax)) && Cur(s.k).value in Tab(s.k)
    ensures var c := Cur(s.k).value;
            var v := SemsCleaned(s, SetRetval(s.k, c, retval).view, c).view;
            var v' := After(s, Exit(retval, rax)).k.view;
            Rested(v, v', {}, {c}) && c !in v'.procs && c in v.procs
  {
    var c := Cur(s.k).value;
    var w := SemsCleaned(s, SetRetval(s.k, c, retval).view, c);
    ExitParts(s, retval);
    ReleaseBits(PipesCleaned(s, SetRetval(s.k, c, retval).view, c), c);
    var p := ExitCleaned(s, retval);
    K.CallKeeps(s.k, K.Exit(retval, p.view), rax);
    var k := s.k.(view := p.view);
    var k1 := ExitEnd(k, retval);
    assert K.PcbOk(Tab(s.k)[c], c, s.k.nextPid);
    ExitEndRests(k, c, retval, {});
    RestedTrans(w.view, p.view, k1.view, {}, {});
    FinishDead(k1, rax, {});
    RestedTrans(w.view, k1.view, Finish(k1, rax).view, {}, {c});
  }

  lemma KillBits(s: System, pid: nat, rax: Option<int>)
    requires Inv(s) && pid in Tab(s.k) && s.k.queue.idle != Some(pid) && K.Mid(Killed(s, pid).k)
    ensures var v := KillView(s, pid);
            var v' := Depart(Killed(s, pid).k, rax).view;
            Rested(v, v', {}, {pid}) && pid !in v'.procs && pid in v.procs
  {
    KillParts(s, pid);
    var k1 := s.k.(view := KillView(s, pid));
    var v2 := KillMiddle(k1, pid).view;
    assert K.PcbOk(Tab(s.k)[pid], pid, s.k.nextPid);
    KillMiddleRests(k1, pid, {});
    ReleaseBits(PipesCleaned(s, SetRetval(s.k, pid, -1).view, pid).(view := v2), pid);
    RestedTrans(k1.view, v2, KillReleased(s, pid).view, {}, {});
    KilledIs(s.k, pid, KillView(s, pid), KillReleased(s, pid).view);
    KilledRests(s, pid, rax, {});
    RestedTrans(k1.view, KillReleased(s, pid).view, Depart(Killed(s, pid).k, rax).view, {}, {pid});
  }

  lemma WithoutRests(v: View, v1: View, v': View, c: nat)
    requires Rested(v, v', {}, {c}) && c !in v'.procs && c in v.procs && v1.procs == v.procs - {c}
    ensures Rested(v1, v', {}, {})
  {
    forall p | p in v1.procs && p in v'.procs ensures RestedAt(v1, v', {}, p) { assert RestedAt(v, v', {}, p); }
    forall p | p in v'.procs ensures NewAt(v1, v', p) { assert NewAt(v, v', p); }
  }

  ghost predicate Dies(s: System, s': System, pid: nat, retval: int)
    requires Inv(s) && pid in Tab(s.k)
  {
    var w := SemsCleaned(s, SetRetval(s.k, pid, retval).view, pid);
    s'.sems == w.sems && Rested(w.view, s'.k.view, {}, {pid}) && pid !in Tab(s'.k) && pid in w.view.procs
  }

  lemma DeathSettles(s: System, s': System, pid: nat, retval: int)
    requires Inv(s) && Inv(s') && pid in Tab(s.k) && Dies(s, s', pid, retval)
    ensures var w := ST.Next(ST.Next(SemWorld(s), ST.Other(SetRetval(s.k, pid, retval).view)), ST.Die(pid));
            SemRun(w, [ST.Other(s'.k.view)]) && SemEnd(w, [ST.Other(s'.k.view)]) == SemWorld(s')
  {
    var v0 := SetRetval(s.k, pid, retval).view;
    var w := ST.Next(ST.Next(SemWorld(s), ST.Other(v0)), ST.Die(pid));
    WithoutRests(SemsCleaned(s, v0, pid).view, w.view, s'.k.view, pid);
    SemSettles(w, s');
  }

  /** A death, as three steps of the semaphores. */
  lemma DeathBySems(s: System, s': System, pid: nat, retval: int)
    requires Inv(s) && Inv(s') && pid in Tab(s.k) && Dies(s, s', pid, retval)
    ensures var ops := [ST.Other(SetRetval(s.k, pid, retval).view), ST.Die(pid), ST.Other(s'.k.view)];
            SemRun(SemWorld(s), ops) && SemEnd(SemWorld(s), ops) == SemWorld(s')
  {
    var v0 := SetRetval(s.k, pid, retval).view;
    var w1 := ST.Next(SemWorld(s), ST.Other(v0));
    var (die, last) := (ST.Die(pid), ST.Other(s'.k.view));
    DeathSettles(s, s', pid, retval);
    assert |v0.procs.Keys| == |Tab(s.k).Keys|;
    forall i: nat, p | i < |s.sems| && p in s.sems[i].queue && p in v0.procs ensures v0.procs[p].state == Blocked {
      assert ST.SemOk(s.sems[i], Tab(s.k), i);
    }
    SemOneMore(w1, die, [last]);
    SemOneMore(SemWorld(s), ST.Other(v0), [die] + [last]);
    assert [ST.Other(v0), die, last] == [ST.Other(v0)] + ([die] + [last]);
  }

  lemma KillBySems(s: System, s': System, pid: nat, rax: Option<int>)
    requires Inv(s) && Inv(s') && pid in Tab(s.k) && s.k.queue.idle != Some(pid) && K.Mid(Killed(s, pid).k)
    requires s'.sems == Killed(s, pid).sems && s'.k == Depart(Killed(s, pid).k, rax)
    ensures var ops := [ST.Other(SetRetval(s.k, pid, -1).view), ST.Die(pid), ST.Other(s'.k.view)];
            SemRun(SemWorld(s), ops) && SemEnd(SemWorld(s), ops) == SemWorld(s')
  {
    KillParts(s, pid);
    KillBits(s, pid, rax);
    DeathBySems(s, s', pid, -1);
  }

  lemma CallBySems(s: System, op: ST.Step)
    requires Inv(s) && Legal(s, SemCall(op))
    ensures var s' := After(s, SemCall(op));
            SemRun(SemWorld(s), [op, ST.Other(s'.k.view)])
              && SemEnd(SemWorld(s), [op, ST.Other(s'.k.view)]) == SemWorld(s')
  {
    var e := SemCall(op);
    var s' := After(s, e);
    var w := ST.Next(SemWorld(s), op);
    StepKeeps(s, e);
    SemParts(s, op);
    K.SoftKeeps(s.k, w.view);
    ServiceRests(s, w.view, SemResult(SemWorld(s), op), {});
    SemSettles(w, s');
    SemOneMore(SemWorld(s), op, [ST.Other(s'.k.view)]);
    assert [op, ST.Other(s'.k.view)] == [op] + [ST.Other(s'.k.view)];
  }

  /** What becomes of the semaphores in an entry is a run of the semaphores. */
  lemma StepBySems(s: System, e: Event)
    requires Inv(s) && Legal(s, e)
    ensures SemRun(SemWorld(s), SeenBySems(s, e)) && SemEnd(SemWorld(s), SeenBySems(s, e)) == SemWorld(After(s, e))
  {
    var s' := After(s, e);
    StepKeeps(s, e);
    match e
    case SemCall(op) => CallBySems(s, op);
    case Exit(retval, rax) =>
      CallerFacts(s);
      ExitBits(s, retval, rax);
      DeathBySems(s, s', Cur(s.k).value, retval);
    case Kill(pid, rax) =>
      KilledMid(s, pid);
      if pid in Tab(s.k) { KillBySems(s, s', pid, Some(rax)); } else { NobodyDies(s, s', Some(rax)); }
    case CtrlC =>
      var pid := K.Newest(Tab(s.k), s.k.nextPid);
      KilledMid(s, pid);
      if |K.Foreground(Tab(s.k))| > 1 {
        if pid in Tab(s.k) { KillBySems(s, s', pid, None); } else { NobodyDies(s, s', None); }
      } else {
        SameRests(s.k.view, s.k.view, {});
        SemSettles(SemWorld(s), s');
      }
    case _ =>
      CalmBits(s, e);
      SemSettles(SemWorld(s), s');
  }

  /** A kill that hits nobody. */
  lemma NobodyDies(s: System, s': System, rax: Option<int>)
    requires Inv(s) && Inv(s') && s' == s.(k := Depart(s.k, rax))
    ensures SemRun(SemWorld(s), [ST.Other(s'.k.view)]) && SemEnd(SemWorld(s), [ST.Other(s'.k.view)]) == SemWorld(s')
  {
    K.OneRuns(s.k);
    DepartRests(s.k, rax, {});
    SemSettles(SemWorld(s), s');
  }

  /** Every run of the whole is a run of the semaphores. */
  lemma {:induction false} RunBySems(s: System, es: seq<Event>) returns (ops: seq<ST.Step>)
    requires Inv(s) && RunsFrom(s, es)
    ensures SemRun(SemWorld(s), ops) && SemEnd(SemWorld(s), ops) == SemWorld(End(s, es))
    decreases |es|
  {
    if es == [] {
      ops := [];
    } else {
      StepKeeps(s, es[0]);
      StepBySems(s, es[0]);
      var rest := RunBySems(After(s, es[0]), es[1..]);
      Traces.RunsJoin(ST.Legal, ST.Next, SemWorld(s), SeenBySems(s, es[0]), rest);
      ops := SeenBySems(s, es[0]) + rest;
    }
  }
}
