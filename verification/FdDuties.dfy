/**
 The references processes have to FDs by their standard streams: taken when a process begins, given back when it ends,
 whether it exits or is killed.
 */
module FdDuties {
  import opened Processes
  import opened KernelSpec
  import K = KernelTheorems
  import Sems = SemaphoreSpec
  import Pipe = PipeSpec
  import opened System

  /** How many of the two streams are FD f. */
  function Uses(b: Pcb, f: int): nat {
    (if b.stdin == f then 1 else 0) + if b.stdout == f then 1 else 0
  }

  /** A FD after n references have been given back; without any left it is free, unless it is a terminal. */
  function Remaining(fd: Pipe.Fd, n: nat): Pipe.Fd {
    if n == 0 || fd.kind == Pipe.NoFd then fd
    else if fd.refs > n then fd.(refs := fd.refs - n)
    else if fd.kind == Pipe.Terminal then fd.(refs := 0)
    else Pipe.Fd(Pipe.NoFd, 0, 0)
  }

  lemma DecrefIs(s: Pipe.Pipes, g: nat)
    ensures |Pipe.Decref(s, g).fds| == |s.fds|
    ensures forall f :: 0 <= f < |s.fds| ==> Pipe.Decref(s, g).fds[f] == Remaining(s.fds[f], if f == g then 1 else 0)
  {
  }

  /** Whoever dies gives back what its two streams hold, and no other FD changes. */
  lemma ReleaseIs(s: Pipe.Pipes, pid: nat)
    requires pid in s.view.procs
    ensures var fds' := Pipe.ReleaseFds(s, pid).fds;
            && |fds'| == |s.fds|
            && forall f :: 0 <= f < |s.fds| ==> fds'[f] == Remaining(s.fds[f], Uses(s.view.procs[pid], f))
  {
    var b := s.view.procs[pid];
    var s1 := if b.stdin >= 0 then Pipe.Decref(s, b.stdin) else s;
    if b.stdin >= 0 { DecrefIs(s, b.stdin); }
    if b.stdout >= 0 { DecrefIs(s1, b.stdout); }
  }

  // ---------------------------------------------------------------- nothing else touches the streams of the dying

  predicate SameStreams(v: View, v': View, p: nat) {
    p in v.procs && p in v'.procs && v'.procs[p].stdin == v.procs[p].stdin && v'.procs[p].stdout == v.procs[p].stdout
  }

  lemma CleanupOneStreams(w: Sems.World, pid: nat, i: nat, p: nat)
    requires i < |w.sems| && pid in w.view.procs && p in w.view.procs
    ensures SameStreams(w.view, Sems.CleanupOne(w, pid, i).view, p)
  {
  }

  lemma {:induction false} CleanupStreams(w: Sems.World, pid: nat, i: nat, p: nat)
    requires i <= |w.sems| && pid in w.view.procs && p in w.view.procs
    ensures SameStreams(w.view, Sems.CleanupFrom(w, pid, i).view, p)
    decreases |w.sems| - i
  {
    if i < |w.sems| {
      CleanupOneStreams(w, pid, i, p);
      CleanupStreams(Sems.CleanupOne(w, pid, i), pid, i + 1, p);
    }
  }

  lemma SemsStreams(s: System, v: View, pid: nat)
    requires pid in v.procs
    ensures SameStreams(v, SemsCleaned(s, v, pid).view, pid)
  {
    CleanupStreams(Sems.World(s.sems, v), pid, 0, pid);
  }

  /** The FDs after the death of a process with the streams of b. */
  ghost predicate GivenBack(fds: seq<Pipe.Fd>, fds': seq<Pipe.Fd>, b: Pcb) {
    |fds'| == |fds| && forall f :: 0 <= f < |fds| ==> fds'[f] == Remaining(fds[f], Uses(b, f))
  }

  /** Who exits gives back its streams' references. */
  lemma ExitReleases(s: System, retval: int, rax: int)
    requires Inv(s) && Legal(s, Exit(retval, rax))
    ensures Cur(s.k).value in Tab(s.k)
    ensures GivenBack(s.fds, After(s, Exit(retval, rax)).fds, Tab(s.k)[Cur(s.k).value])
  {
    var c := Cur(s.k).value;
    CallerFacts(s);
    ExitParts(s, retval);
    var k0 := SetRetval(s.k, c, retval);
    SemsStreams(s, k0.view, c);
    ReleaseIs(PipesCleaned(s, k0.view, c), c);
  }

  /** And so does who is killed. */
  lemma KillReleases(s: System, pid: nat)
    requires Inv(s) && s.k.queue.idle != Some(pid) && pid in Tab(s.k)
    ensures GivenBack(s.fds, Killed(s, pid).fds, Tab(s.k)[pid])
  {
    KillParts(s, pid);
    var k0 := SetRetval(s.k, pid, -1);
    SemsStreams(s, k0.view, pid);
    var v2 := KillMiddle(s.k.(view := KillView(s, pid)), pid).view;
    ReleaseIs(PipesCleaned(s, k0.view, pid).(view := v2), pid);
  }

  /** Whoever the entry kills. */
  lemma VictimReleases(s: System, e: Event, pid: nat)
    requires Inv(s) && Legal(s, e) && pid in Tab(s.k)
    requires (e.Kill? && e.pid == pid)
             || (e.CtrlC? && |K.Foreground(Tab(s.k))| > 1 && pid == K.Newest(Tab(s.k), s.k.nextPid))
    ensures GivenBack(s.fds, After(s, e).fds, Tab(s.k)[pid])
  {
    KilledMid(s, pid);
    KillReleases(s, pid);
  }

  /** A process begins with a reference to each of the two terminals; a creation that fails takes none. */
  lemma CreateTakes(s: System, fg: nat, wantsArgs: bool, stack: Option<nat>, args: Option<nat>)
    requires Inv(s) && Legal(s, Creation(fg, wantsArgs, stack, args))
    ensures var fds' := After(s, Creation(fg, wantsArgs, stack, args)).fds;
            if Create(s.k, fg, wantsArgs, stack, args).1 == -1 then fds' == s.fds
            else fds' == s.fds[0 := s.fds[0].(refs := s.fds[0].refs + 1)][1 := s.fds[1].(refs := s.fds[1].refs + 1)]
  {
  }
}
