/**
 What a failing sys_pipe or sys_pipe_open leaves behind: a pipe in use that no FD names. An anonymous one is lost for
 good, and such a failure does occur.
 */
module PipeLeaks {
  import opened Processes
  import opened PipeSpec
  import opened PipeRefs
  import opened PipeQueues
  import opened PipeStreams

  /** Pipe i is in use, and no reference to it counts. */
  predicate Orphan(pipes: seq<Pipe>, i: nat) {
    i < |pipes| && pipes[i].inUse && pipes[i].openRead == 0 && pipes[i].openWrite == 0
  }

  /** Such a pipe is named by no FD. */
  lemma OrphanUnnamed(pipes: seq<Pipe>, fds: seq<Fd>, i: nat)
    requires RefInv(pipes, fds) && Orphan(pipes, i)
    ensures forall f :: 0 <= f < |fds| ==> !Names(fds[f], i)
  {
    forall f | 0 <= f < |fds| ensures !Names(fds[f], i) {
      assert CountsOk(pipes[i], fds, i) && FdOk(fds[f], pipes);
      NoRefs(fds, ReadEnd, i, f);
      NoRefs(fds, WriteEnd, i, f);
    }
  }

  // ---------------------------------------------------------------- the failing call

  /** A read end made and given back leaves a pipe that nobody else refers to free again. */
  lemma OneFdIsNoTrace(s: Pipes, name: Option<string>)
    requires RefInv(s.pipes, s.fds) && SysPipe(s, name).1.None? && Started(s, name).Some? && FreeFd(s.fds, 0).Some?
    ensures SysPipe(s, name).0.pipes == s.pipes
  {
    PipeOpenRefs(s.pipes, s.fds, name);
    var i := Started(s, name).value;
    var t := s.(pipes := PipeOpen(s.pipes, name).0);
    CreateFdRefs(t, i, ReadEnd);
    var (s1, r) := CreateFd(t, i, ReadEnd);
    CreateFdRefs(s1, i, WriteEnd);
    assert CountsOk(s.pipes[i], s.fds, i);
    assert s1.pipes[i] == Begun(name).(openRead := 1);
    assert Decref(s1, r).pipes == s.pipes;
  }

  /** With an existing pipe of that name, nothing else is touched. */
  lemma OnlyThatOne(s: Pipes, name: Option<string>)
    requires RefInv(s.pipes, s.fds) && Started(s, name).None?
    ensures var i := PipeOpen(s.pipes, name).1;
            var ps' := SysPipe(s, name).0.pipes;
            |ps'| == |s.pipes| && forall j :: 0 <= j < |s.pipes| && Some(j) != i ==> ps'[j] == s.pipes[j]
  {
    PipeOpenRefs(s.pipes, s.fds, name);
    var (ps, i) := PipeOpen(s.pipes, name);
    if i.Some? { CreateBothEvolves(s.(pipes := ps), i.value); }
  }

  /** A call that fails leaves behind a pipe in use that no FD names, or an existing pipe opened once more, if there was
      no FD to be had at all; with one FD left, or no pipe, no new pipe remains. */
  lemma FailedPipeLeaks(s: Pipes, name: Option<string>)
    requires RefInv(s.pipes, s.fds) && SysPipe(s, name).1.None?
    ensures var s' := SysPipe(s, name).0;
            var i := Started(s, name);
            && (i.Some? && FreeFd(s.fds, 0).None? ==>
                  && i.value < |s.pipes| && !s.pipes[i.value].inUse && s'.pipes == s.pipes[i.value := Begun(name)]
                  && s'.fds == s.fds && Orphan(s'.pipes, i.value)
                  && forall f :: 0 <= f < |s'.fds| ==> !Names(s'.fds[f], i.value))
            && (i.Some? && FreeFd(s.fds, 0).Some? ==> s'.pipes == s.pipes)
            && (i.None? ==> forall j :: 0 <= j < |s.pipes| && !s.pipes[j].inUse ==> s'.pipes[j] == s.pipes[j])
  {
    var i := Started(s, name);
    if i.None? {
      OnlyThatOne(s, name);
    } else if FreeFd(s.fds, 0).Some? {
      OneFdIsNoTrace(s, name);
    } else {
      PipeOpenRefs(s.pipes, s.fds, name);
      assert CountsOk(s.pipes[i.value], s.fds, i.value);
      OrphanUnnamed(SysPipe(s, name).0.pipes, s.fds, i.value);
    }
  }

  // ---------------------------------------------------------------- what becomes of it

  lemma IncrefSpares(s: Pipes, f: nat, i: nat)
    requires RefInv(s.pipes, s.fds) && Orphan(s.pipes, i)
    ensures Incref(s, f).pipes[i] == s.pipes[i]
  {
    OrphanUnnamed(s.pipes, s.fds, i);
    assert Valid(s, f) ==> !Names(s.fds[f], i);
  }

  lemma DecrefSpares(s: Pipes, f: nat, i: nat)
    requires RefInv(s.pipes, s.fds) && Orphan(s.pipes, i)
    ensures Decref(s, f).pipes[i] == s.pipes[i]
  {
    OrphanUnnamed(s.pipes, s.fds, i);
    assert Valid(s, f) ==> !Names(s.fds[f], i);
  }

  lemma RedirectSpares(s: Pipes, pid: nat, target: nat, f: int, i: nat)
    requires RefInv(s.pipes, s.fds) && Orphan(s.pipes, i) && pid in s.view.procs
    ensures |Redirect(s, pid, target, f).pipes| == |s.pipes| && Redirect(s, pid, target, f).pipes[i] == s.pipes[i]
  {
    var was := GetStd(s.view.procs[pid], target);
    if was >= 0 {
      DecrefSpares(s, was, i);
      DecrefRefs(s, was);
    }
    if f >= 0 { IncrefSpares(Point(if was >= 0 then Decref(s, was) else s, pid, target, f), f, i); }
  }

  lemma ReleaseSpares(s: Pipes, pid: nat, i: nat)
    requires RefInv(s.pipes, s.fds) && Orphan(s.pipes, i)
    ensures |ReleaseFds(s, pid).pipes| == |s.pipes| && ReleaseFds(s, pid).pipes[i] == s.pipes[i]
  {
    if pid in s.view.procs {
      var b := s.view.procs[pid];
      if b.stdin >= 0 {
        DecrefSpares(s, b.stdin, i);
        DecrefRefs(s, b.stdin);
      }
      if b.stdout >= 0 { DecrefSpares(if b.stdin >= 0 then Decref(s, b.stdin) else s, b.stdout, i); }
    }
  }

  lemma OpenSpares(s: Pipes, name: Option<string>, i: nat)
    requires RefInv(s.pipes, s.fds) && Orphan(s.pipes, i) && Spares(s, Open(name), i)
    ensures Next(s, Open(name)).pipes[i] == s.pipes[i]
  {
    PipeOpenRefs(s.pipes, s.fds, name);
    var (ps, j) := PipeOpen(s.pipes, name);
    if j.Some? { CreateBothEvolves(s.(pipes := ps), j.value); }
  }

  /** Nobody opens pipe i by its name. */
  predicate Spares(s: Pipes, e: Event, i: nat) {
    e.Open? && e.name.Some? ==> FindNamed(s.pipes, e.name.value, 0) != Some(i)
  }

  lemma StepSpares(s: Pipes, e: Event, i: nat)
    requires RefInv(s.pipes, s.fds) && Orphan(s.pipes, i) && Spares(s, e, i)
    ensures Orphan(Next(s, e).pipes, i) && Next(s, e).pipes[i].named == s.pipes[i].named
  {
    OrphanUnnamed(s.pipes, s.fds, i);
    match e
    case Open(name) => OpenSpares(s, name, i);
    case Dup(oldFd, newFd) => if Dup2(s, oldFd, newFd).0 != s { RedirectSpares(s, s.view.cur.value, newFd, oldFd, i); }
    case Close(f) => DecrefSpares(s, f, i);
    case SetUp(pid, f, target) => if pid in s.view.procs { RedirectSpares(s, pid, target, f, i); }
    case Read(n, count, typed) => ReadStep(s, n, count, typed);
    case Write(n, data) => WriteStep(s, n, data);
    case Birth =>
      IncrefSpares(s, FD_STDIN, i);
      IncrefRefs(s, FD_STDIN);
      IncrefSpares(Incref(s, FD_STDIN), FD_STDOUT, i);
    case Death(pid) =>
      CleanupRefs(s, pid);
      ReleaseSpares(PipeCleanup(s, pid), pid, i);
    case Others(view) =>
  }

  /** In any run from then on an anonymous pipe so left behind stays in use, and no FD will ever name it: its slot is
      lost. */
  lemma {:induction false} LostForGood(t: Traced, es: seq<Event>, i: nat)
    requires Inv(t) && Runs(t, es) && Orphan(t.s.pipes, i) && !t.s.pipes[i].named
    ensures var e := End(t, es).s;
            Orphan(e.pipes, i) && !e.pipes[i].named && forall f :: 0 <= f < |e.fds| ==> !Names(e.fds[f], i)
    decreases |es|
  {
    if es == [] {
      OrphanUnnamed(t.s.pipes, t.s.fds, i);
    } else {
      StepKeeps(t, es[0]);
      StepSpares(t.s, es[0], i);
      LostForGood(After(t, es[0]), es[1..], i);
    }
  }

  /** A named one stays so until somebody opens it by its name. */
  lemma {:induction false} LostUntilNamed(t: Traced, es: seq<Event>, i: nat)
    requires Inv(t) && Runs(t, es) && Orphan(t.s.pipes, i) && SparesRun(t, es, i)
    ensures Orphan(End(t, es).s.pipes, i)
    decreases |es|
  {
    if es != [] {
      StepKeeps(t, es[0]);
      StepSpares(t.s, es[0], i);
      LostUntilNamed(After(t, es[0]), es[1..], i);
    }
  }

  ghost predicate SparesRun(t: Traced, es: seq<Event>, i: nat)
    decreases |es|
  {
    es == [] || (Spares(t.s, es[0], i) && SparesRun(After(t, es[0]), es[1..], i))
  }

  // ---------------------------------------------------------------- it does happen

  const NAME: string := "p"
  const OPENS: nat := (MAX_FDS - 2) / 2

  /** The tables as the kernel starts with them. */
  function Fresh(view: View): Traced {
    Traced(Pipes(seq(MAX_PIPES, i => Closed),
                 seq(MAX_FDS, f => if f < 2 then Fd(Terminal, 0, 0) else Fd(NoFd, 0, 0)), view),
           seq(MAX_PIPES, i => Log(0, [], [])))
  }

  predicate IsFilled(fd: Fd, f: nat, n: nat) { fd.kind != NoFd <==> f < 2 + 2 * n }

  /** After n opens of one named pipe: two more FDs each, and one slot in use. */
  ghost predicate Filled(s: Pipes, n: nat) {
    && |s.pipes| == MAX_PIPES && |s.fds| == MAX_FDS && n <= OPENS
    && (forall f {:trigger IsFilled(s.fds[f], f, n)} :: 0 <= f < |s.fds| ==> IsFilled(s.fds[f], f, n))
    && s.pipes[0].readers == [] && s.pipes[0].writers == []
    && (if n == 0 then s.pipes[0] == Closed else s.pipes[0].inUse && s.pipes[0].named && s.pipes[0].name == NAME)
    && forall i :: 1 <= i < |s.pipes| ==> s.pipes[i] == Closed
  }

  lemma {:induction false} FreeFdIs(fds: seq<Fd>, i: nat, m: nat)
    requires i <= m <= |fds| && (forall f :: i <= f < m ==> fds[f].kind != NoFd) && (m < |fds| ==> fds[m].kind == NoFd)
    ensures FreeFd(fds, i) == if m < |fds| then Some(m) else None
    decreases m - i
  {
    if i < m { FreeFdIs(fds, i + 1, m); }
  }

  lemma FilledFree(s: Pipes, n: nat)
    requires Filled(s, n)
    ensures FreeFd(s.fds, 0) == if n < OPENS then Some(2 + 2 * n) else None
  {
    assert forall f :: 0 <= f < |s.fds| ==> IsFilled(s.fds[f], f, n);
    FreeFdIs(s.fds, 0, 2 + 2 * n);
  }

  /** One more FD on a pipe nobody sleeps at. */
  lemma FdAdded(s: Pipes, kind: Kind, m: nat)
    requires |s.pipes| == MAX_PIPES && m < |s.fds| && FreeFd(s.fds, 0) == Some(m)
    requires kind == ReadEnd || kind == WriteEnd
    requires s.pipes[0].readers == [] && s.pipes[0].writers == []
    ensures var (s', f) := CreateFd(s, 0, kind);
            && f == m && s'.fds == s.fds[m := Fd(kind, 1, 0)] && s'.pipes == s.pipes[0 := s'.pipes[0]]
            && s'.pipes[0].readers == [] && s'.pipes[0].writers == [] && s'.pipes[0].inUse == s.pipes[0].inUse
            && s'.pipes[0].named == s.pipes[0].named && s'.pipes[0].name == s.pipes[0].name
  {
  }

  lemma {:induction false} NoSuchName(ps: seq<Pipe>, i: nat)
    requires i <= |ps| && forall j :: i <= j < |ps| ==> ps[j] == Closed
    ensures FindNamed(ps, NAME, i).None?
    decreases |ps| - i
  {
    if i < |ps| { NoSuchName(ps, i + 1); }
  }

  lemma OpenFills(s: Pipes, n: nat)
    requires Filled(s, n) && n < OPENS
    ensures Filled(SysPipe(s, Some(NAME)).0, n + 1)
  {
    NoSuchName(s.pipes, if n == 0 then 0 else 1);
    var (ps, i) := PipeOpen(s.pipes, Some(NAME));
    assert i == Some(0) && ps[0].inUse && ps[0].named && ps[0].name == NAME;
    var t := s.(pipes := ps);
    FilledFree(s, n);
    FdAdded(t, ReadEnd, 2 + 2 * n);
    var (s1, r) := CreateFd(t, 0, ReadEnd);
    assert forall f :: 0 <= f < |s.fds| ==> IsFilled(s.fds[f], f, n);
    FreeFdIs(s1.fds, 0, 3 + 2 * n);
    FdAdded(s1, WriteEnd, 3 + 2 * n);
    var s2 := CreateFd(s1, 0, WriteEnd).0;
    forall f | 0 <= f < |s2.fds| ensures IsFilled(s2.fds[f], f, n + 1) { assert IsFilled(s.fds[f], f, n); }
  }

  function Opens(m: nat): seq<Event> {
    if m == 0 then [] else [Open(Some(NAME))] + Opens(m - 1)
  }

  lemma {:induction false} OpensFill(t: Traced, n: nat, m: nat)
    requires Filled(t.s, n) && n + m <= OPENS
    ensures Runs(t, Opens(m)) && Filled(End(t, Opens(m)).s, n + m)
    decreases m
  {
    if m > 0 {
      OpenFills(t.s, n);
      var e := Open(Some(NAME));
      assert Opens(m)[0] == e && Opens(m)[1..] == Opens(m - 1);
      OpensFill(After(t, e), n + 1, m - 1);
    }
  }

  /** Opening one named pipe 64 times uses up all FDs; a sys_pipe then takes a slot of the pipe table and fails, and
      nothing that may follow gives the slot back. */
  lemma LeakHappens(view: View, es: seq<Event>)
    requires AllAsleep(view.procs, {}) && Runs(After(End(Fresh(view), Opens(OPENS)), Open(None)), es)
    ensures Initial(Fresh(view)) && Runs(Fresh(view), Opens(OPENS))
    ensures var t := End(Fresh(view), Opens(OPENS));
            && SysPipe(t.s, None).1.None? && FreeFd(t.s.fds, 0).None? && |t.s.pipes| == MAX_PIPES
            && t.s.pipes[1] == Closed
            && Orphan(End(After(t, Open(None)), es).s.pipes, 1)
  {
    UsedUp(view);
    var t := End(Fresh(view), Opens(OPENS));
    assert FindFree(t.s.pipes, 0) == Some(1);
    FailedPipeLeaks(t.s, None);
    StepKeeps(t, Open(None));
    LostForGood(After(t, Open(None)), es, 1);
  }

  lemma UsedUp(view: View)
    requires AllAsleep(view.procs, {})
    ensures Initial(Fresh(view)) && Runs(Fresh(view), Opens(OPENS))
    ensures var t := End(Fresh(view), Opens(OPENS));
            Inv(t) && Filled(t.s, OPENS) && FreeFd(t.s.fds, 0).None?
  {
    var t0 := Fresh(view);
    assert forall f :: 0 <= f < |t0.s.fds| ==> IsFilled(t0.s.fds[f], f, 0);
    OpensFill(t0, 0, OPENS);
    FilledFree(End(t0, Opens(OPENS)).s, OPENS);
    InitialInv(t0);
    RunKeeps(t0, Opens(OPENS));
  }
}
