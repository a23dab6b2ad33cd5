/**
 Runs of the pipes: what was accepted by writes is what reads have delivered followed by what is in the buffer; the end
 of an anonymous pipe's stream is final; and with one reader and one writer nobody sleeps who could go on.
 */
module PipeStreams {
  import opened Processes
  import opened PipeSpec
  import opened PipeRefs
  import opened PipeQueues
  import SemaphoreSpec

  /** The history of the present incarnation of a pipe, the gen-th of its slot. */
  datatype Log = Log(gen: nat, accepted: seq<Byte>, delivered: seq<Byte>)

  datatype Traced = Traced(s: Pipes, logs: seq<Log>)

  /** System calls of the current process; the birth and death of processes; anything else that happens to them. */
  datatype Event =
    | Open(name: Option<string>)
    | Dup(oldFd: nat, newFd: nat)
    | Close(f: nat)
    | SetUp(pid: nat, end: int, target: nat)
    | Read(n: nat, count: nat, typed: Option<seq<Byte>>)
    | Write(n: nat, data: seq<Byte>)
    | Birth
    | Death(pid: nat)
    | Others(view: View)

  function Next(s: Pipes, e: Event): Pipes {
    match e
    case Open(name) => SysPipe(s, name).0
    case Dup(oldFd, newFd) => Dup2(s, oldFd, newFd).0
    case Close(f) => Decref(s, f)
    case SetUp(pid, f, target) => Setup(s, pid, f, target)
    case Read(n, count, typed) => SysRead(s, n, count, typed).0
    case Write(n, data) => SysWrite(s, n, data).0
    case Birth => Incref(Incref(s, FD_STDIN), FD_STDOUT)
    case Death(pid) => ReleaseFds(PipeCleanup(s, pid), pid)
    case Others(view) => s.(view := view)
  }

  /** The pipe a read, or a write, goes to. */
  function ReadFrom(s: Pipes, n: nat): Option<nat> {
    match Real(s, n, FD_STDIN)
    case None => None
    case Some(f) => if IsEnd(s, f, ReadEnd) then Some(s.fds[f].pipe) else None
  }

  function WriteTo(s: Pipes, n: nat): Option<nat> {
    match Real(s, n, FD_STDOUT)
    case None => None
    case Some(f) => if IsEnd(s, f, WriteEnd) then Some(s.fds[f].pipe) else None
  }

  /** The slot in which pipe_open starts a new pipe. */
  function Started(s: Pipes, name: Option<string>): Option<nat> {
    if name.Some? && FindNamed(s.pipes, name.value, 0).Some? then None else FindFree(s.pipes, 0)
  }

  function Logged(t: Traced, e: Event): seq<Log> {
    match e
    case Open(name) =>
      var i := Started(t.s, name);
      if i.Some? && i.value < |t.logs| then t.logs[i.value := Log(t.logs[i.value].gen + 1, [], [])] else t.logs
    case Read(n, count, typed) =>
      var i := ReadFrom(t.s, n);
      if i.Some? && i.value < |t.logs| then
        t.logs[i.value := t.logs[i.value].(delivered := t.logs[i.value].delivered + SysRead(t.s, n, count, typed).2)]
      else t.logs
    case Write(n, data) =>
      var i := WriteTo(t.s, n);
      var r := SysWrite(t.s, n, data).1;
      if i.Some? && i.value < |t.logs| && 0 < r <= |data| then
        t.logs[i.value := t.logs[i.value].(accepted := t.logs[i.value].accepted + data[..r])]
      else t.logs
    case _ => t.logs
  }

  function After(t: Traced, e: Event): Traced {
    Traced(Next(t.s, e), Logged(t, e))
  }

  /** Reads and writes are made by the running process; otherwise nobody disturbs those asleep at a pipe. */
  ghost predicate Enabled(s: Pipes, e: Event) {
    match e
    case Read(_, _, _) => CallerRuns(s.view)
    case Write(_, _) => CallerRuns(s.view)
    case Others(view) => AllAsleep(view.procs, AllWaiters(s.pipes))
    case _ => true
  }

  predicate LogOk(p: Pipe, l: Log) {
    p.inUse ==> l.accepted == l.delivered + p.contents && |p.contents| <= PIPE_BUFFER_SIZE
  }

  ghost predicate LogsOk(pipes: seq<Pipe>, logs: seq<Log>) {
    |logs| == |pipes| && forall i {:trigger LogOk(pipes[i], logs[i])} :: 0 <= i < |pipes| ==> LogOk(pipes[i], logs[i])
  }

  ghost predicate PipeInv(s: Pipes) {
    RefInv(s.pipes, s.fds) && QueueInv(s.pipes, s.view.procs)
  }

  ghost predicate Inv(t: Traced) {
    PipeInv(t.s) && LogsOk(t.s.pipes, t.logs)
  }

  // ---------------------------------------------------------------- the queues over a step

  lemma UnusedEmpty(s: Pipes)
    requires RefInv(s.pipes, s.fds)
    ensures forall i :: 0 <= i < |s.pipes| && !s.pipes[i].inUse ==> Waiters(s.pipes[i]) == {}
  {
    forall i | 0 <= i < |s.pipes| && !s.pipes[i].inUse
      ensures Waiters(s.pipes[i]) == {}
    {
      assert CountsOk(s.pipes[i], s.fds, i);
    }
  }

  lemma OthersKeep(s: Pipes, v: View)
    requires QueueInv(s.pipes, s.view.procs) && AllAsleep(v.procs, AllWaiters(s.pipes))
    ensures QueueInv(s.pipes, v.procs)
  {
    forall j: nat | j < |s.pipes| ensures EndsOk(s.pipes[j], v.procs) {
      assert EndsOk(s.pipes[j], s.view.procs);
      forall x | x in Waiters(s.pipes[j]) ensures Asleep(v.procs, x) { WaiterIn(s.pipes, j, x); }
    }
  }

  lemma QueuesStep(s: Pipes, e: Event)
    requires PipeInv(s) && Enabled(s, e)
    ensures QueueInv(Next(s, e).pipes, Next(s, e).view.procs)
  {
    match e
    case Open(name) => SysPipeCalm(s, name);
    case Dup(oldFd, newFd) => if Dup2(s, oldFd, newFd).0 != s { RedirectCalm(s, s.view.cur.value, newFd, oldFd); }
    case Close(f) => DecrefCalm(s, f);
    case SetUp(pid, f, target) => if pid in s.view.procs { RedirectCalm(s, pid, target, f); }
    case Read(n, count, typed) => ReadQueues(s, n, count, typed);
    case Write(n, data) => WriteQueues(s, n, data);
    case Birth =>
      IncrefCalm(s, FD_STDIN);
      IncrefCalm(Incref(s, FD_STDIN), FD_STDOUT);
    case Death(pid) =>
      UnusedEmpty(s);
      CleanupCalm(s, pid);
      ReleaseCalm(PipeCleanup(s, pid), pid);
    case Others(view) => OthersKeep(s, view);
  }

  lemma RefsStep(s: Pipes, e: Event)
    requires RefInv(s.pipes, s.fds)
    ensures RefInv(Next(s, e).pipes, Next(s, e).fds)
  {
    match e
    case Open(name) => SysPipeRefs(s, name);
    case Dup(oldFd, newFd) => if Dup2(s, oldFd, newFd).0 != s { RedirectRefs(s, s.view.cur.value, newFd, oldFd); }
    case Close(f) => DecrefRefs(s, f);
    case SetUp(pid, f, target) => if pid in s.view.procs { RedirectRefs(s, pid, target, f); }
    case Read(n, count, typed) => ReadRefs(s, n, count, typed);
    case Write(n, data) => WriteRefs(s, n, data);
    case Birth =>
      IncrefRefs(s, FD_STDIN);
      IncrefRefs(Incref(s, FD_STDIN), FD_STDOUT);
    case Death(pid) =>
      CleanupRefs(s, pid);
      ReleaseRefs(PipeCleanup(s, pid), pid);
    case Others(view) =>
  }

  // ---------------------------------------------------------------- what opening and closing leave alone

  /** With r the only reader and w the only writer of an anonymous pipe, a sleeping reader has nothing to read and a
      writer to wait for, and a sleeping writer has no room and a reader to wait for. */
  predicate Served(p: Pipe, r: nat, w: nat) {
    !p.named ==>
      && (p.readers == [] || p.readers == [r]) && (p.writers == [] || p.writers == [w])
      && (p.readers != [] ==> p.contents == [] && p.openWrite > 0)
      && (p.writers != [] ==> |p.contents| == PIPE_BUFFER_SIZE && p.openRead > 0)
  }

  ghost predicate ServedStill(p: Pipe, p': Pipe) {
    forall r, w {:trigger Served(p', r, w)} :: Served(p, r, w) ==> Served(p', r, w)
  }

  predicate EofStill(p: Pipe, p': Pipe) {
    !p.named && p.openWrite == 0 ==> !p'.named && p'.openWrite == 0
  }

  predicate SameName(p: Pipe, p': Pipe) { p'.named == p.named && p'.name == p.name }

  predicate SameEnd(p: Pipe, p': Pipe) { p'.eof == p.eof && p'.opens == p.opens }

  predicate ContentsStill(p: Pipe, p': Pipe) {
    p' == p || (p.inUse && (p' == Closed || (p'.inUse && p'.contents == p.contents && SameName(p, p'))))
  }

  predicate QueuesStill(p: Pipe, p': Pipe) {
    (p.readers == [] ==> p'.readers == []) && (p.writers == [] ==> p'.writers == [])
  }

  /** The end of a named pipe is known only while nobody has a write end open, and never if it was opened only once. */
  predicate EndOk(p: Pipe) { p.inUse && p.named && p.eof ==> p.openWrite == 0 && p.opens >= 2 }

  /** The bytes in it and what sleepers wait for are left alone, and nobody starts to wait. */
  ghost predicate Evolves(p: Pipe, p': Pipe) {
    ContentsStill(p, p') && ServedStill(p, p') && QueuesStill(p, p') && (EndOk(p) ==> EndOk(p'))
  }

  ghost predicate AllEvolve(pipes: seq<Pipe>, pipes': seq<Pipe>) {
    |pipes'| == |pipes| && forall i {:trigger Evolves(pipes[i], pipes'[i])} :: 0 <= i < |pipes| ==>
      Evolves(pipes[i], pipes'[i])
  }

  ghost predicate AllEofs(pipes: seq<Pipe>, pipes': seq<Pipe>) {
    |pipes'| == |pipes| && forall i {:trigger EofStill(pipes[i], pipes'[i])} :: 0 <= i < |pipes| ==>
      EofStill(pipes[i], pipes'[i])
  }

  lemma EvolveTrans(a: seq<Pipe>, b: seq<Pipe>, c: seq<Pipe>)
    requires AllEvolve(a, b) && AllEvolve(b, c)
    ensures AllEvolve(a, c)
  {
    forall i | 0 <= i < |a| ensures Evolves(a[i], c[i]) {
      assert Evolves(a[i], b[i]) && Evolves(b[i], c[i]);
      forall r, w | Served(a[i], r, w) ensures Served(c[i], r, w) { assert Served(b[i], r, w); }
    }
  }

  lemma EofTrans(a: seq<Pipe>, b: seq<Pipe>, c: seq<Pipe>)
    requires AllEofs(a, b) && AllEofs(b, c)
    ensures AllEofs(a, c)
  {
    forall i | 0 <= i < |a| ensures EofStill(a[i], c[i]) { assert EofStill(a[i], b[i]) && EofStill(b[i], c[i]); }
  }

  lemma OpenEvolves(p: Pipe, v: View)
    requires p.inUse
    ensures Evolves(p, OpenRead(p, v).0) && Evolves(p, OpenWrite(p, v).0)
    ensures EofStill(p, OpenRead(p, v).0) && (p.openWrite > 0 ==> EofStill(p, OpenWrite(p, v).0))
  {
  }

  lemma CloseReadEvolves(p: Pipe, v: View)
    requires p.inUse
    ensures Evolves(p, CloseRead(p, v).0) && EofStill(p, CloseRead(p, v).0)
  {
  }

  lemma CloseWriteEvolves(p: Pipe, v: View)
    requires p.inUse
    ensures Evolves(p, CloseWrite(p, v).0) && EofStill(p, CloseWrite(p, v).0)
  {
  }

  lemma OneEvolves(pipes: seq<Pipe>, i: nat, p': Pipe)
    requires i < |pipes| && Evolves(pipes[i], p')
    ensures AllEvolve(pipes, pipes[i := p']) && (EofStill(pipes[i], p') ==> AllEofs(pipes, pipes[i := p']))
  {
    forall j | 0 <= j < |pipes| ensures Evolves(pipes[j], pipes[i := p'][j]) { }
  }

  lemma SelfEvolves(pipes: seq<Pipe>)
    ensures AllEvolve(pipes, pipes) && AllEofs(pipes, pipes)
  {
  }

  /** Whoever holds a reference to a write end keeps openWrite above zero, so one more reference never reopens a
      stream. */
  lemma IncrefEvolves(s: Pipes, f: nat)
    requires RefInv(s.pipes, s.fds)
    ensures AllEvolve(s.pipes, Incref(s, f).pipes) && AllEofs(s.pipes, Incref(s, f).pipes)
  {
    SelfEvolves(s.pipes);
    if Valid(s, f) && IsPipeEnd(s.fds[f]) {
      assert FdOk(s.fds[f], s.pipes);
      var i := s.fds[f].pipe;
      assert CountsOk(s.pipes[i], s.fds, i);
      RefsUpdate(s.fds, f, s.fds[f], WriteEnd, i);
      OpenEvolves(s.pipes[i], s.view);
      OneEvolves(s.pipes, i, Incref(s, f).pipes[i]);
    }
  }

  lemma DecrefEvolves(s: Pipes, f: nat)
    requires RefInv(s.pipes, s.fds)
    ensures AllEvolve(s.pipes, Decref(s, f).pipes) && AllEofs(s.pipes, Decref(s, f).pipes)
  {
    SelfEvolves(s.pipes);
    if Valid(s, f) && IsPipeEnd(s.fds[f]) {
      assert FdOk(s.fds[f], s.pipes);
      var i := s.fds[f].pipe;
      CloseReadEvolves(s.pipes[i], s.view);
      CloseWriteEvolves(s.pipes[i], s.view);
      OneEvolves(s.pipes, i, Decref(s, f).pipes[i]);
    }
  }

  lemma RedirectEvolves(s: Pipes, pid: nat, target: nat, f: int)
    requires RefInv(s.pipes, s.fds) && pid in s.view.procs
    ensures AllEvolve(s.pipes, Redirect(s, pid, target, f).pipes) && AllEofs(s.pipes, Redirect(s, pid, target, f).pipes)
  {
    var was := GetStd(s.view.procs[pid], target);
    SelfEvolves(s.pipes);
    if was >= 0 {
      DecrefEvolves(s, was);
      DecrefRefs(s, was);
    }
    var s1 := if was >= 0 then Decref(s, was) else s;
    SelfEvolves(s1.pipes);
    if f >= 0 { IncrefEvolves(Point(s1, pid, target, f), f); }
    EvolveTrans(s.pipes, s1.pipes, Redirect(s, pid, target, f).pipes);
    EofTrans(s.pipes, s1.pipes, Redirect(s, pid, target, f).pipes);
  }

  lemma ReleaseEvolves(s: Pipes, pid: nat)
    requires RefInv(s.pipes, s.fds)
    ensures AllEvolve(s.pipes, ReleaseFds(s, pid).pipes) && AllEofs(s.pipes, ReleaseFds(s, pid).pipes)
  {
    SelfEvolves(s.pipes);
    if pid in s.view.procs {
      var b := s.view.procs[pid];
      if b.stdin >= 0 {
        DecrefEvolves(s, b.stdin);
        DecrefRefs(s, b.stdin);
      }
      var s1 := if b.stdin >= 0 then Decref(s, b.stdin) else s;
      SelfEvolves(s1.pipes);
      if b.stdout >= 0 { DecrefEvolves(s1, b.stdout); }
      EvolveTrans(s.pipes, s1.pipes, ReleaseFds(s, pid).pipes);
      EofTrans(s.pipes, s1.pipes, ReleaseFds(s, pid).pipes);
    }
  }

  lemma RemoveOne(q: seq<nat>, r: nat, pid: nat)
    requires (q == [] || q == [r])
    ensures SemaphoreSpec.Remove(q, pid) == if r == pid then [] else q
  {
    if q == [r] { assert q[1..] == []; }
  }

  lemma UnqueuedEvolves(p: Pipe, pid: nat)
    ensures Evolves(p, Unqueued(p, pid)) && EofStill(p, Unqueued(p, pid))
  {
    var p' := Unqueued(p, pid);
    forall r, w | Served(p, r, w) ensures Served(p', r, w) {
      if p.inUse && !p.named {
        RemoveOne(p.readers, r, pid);
        RemoveOne(p.writers, w, pid);
      }
    }
  }

  lemma CleanupEvolves(s: Pipes, pid: nat)
    ensures AllEvolve(s.pipes, PipeCleanup(s, pid).pipes) && AllEofs(s.pipes, PipeCleanup(s, pid).pipes)
  {
    var ps' := PipeCleanup(s, pid).pipes;
    forall i | 0 <= i < |s.pipes| ensures Evolves(s.pipes[i], ps'[i]) && EofStill(s.pipes[i], ps'[i]) {
      UnqueuedEvolves(s.pipes[i], pid);
    }
  }

  /** A new FD on a pipe in use. */
  lemma CreateFdEvolves(s: Pipes, i: nat, kind: Kind)
    requires RefInv(s.pipes, s.fds) && i < |s.pipes| && s.pipes[i].inUse && (kind == ReadEnd || kind == WriteEnd)
    ensures var ps' := CreateFd(s, i, kind).0.pipes;
            && AllEvolve(s.pipes, ps') && (forall j :: 0 <= j < |s.pipes| && j != i ==> ps'[j] == s.pipes[j])
            && (kind == ReadEnd ==> AllEofs(s.pipes, ps'))
  {
    SelfEvolves(s.pipes);
    if FreeFd(s.fds, 0).Some? {
      var s' := CreateFd(s, i, kind).0;
      OpenEvolves(s.pipes[i], s.view);
      OneEvolves(s.pipes, i, s'.pipes[i]);
    }
  }

  lemma CreateBothEvolves(s: Pipes, i: nat)
    requires RefInv(s.pipes, s.fds) && i < |s.pipes| && s.pipes[i].inUse
    ensures var ps' := CreateBoth(s, i).0.pipes;
            AllEvolve(s.pipes, ps') && forall j :: 0 <= j < |s.pipes| && j != i ==> ps'[j] == s.pipes[j]
  {
    CreateFdEvolves(s, i, ReadEnd);
    CreateFdRefs(s, i, ReadEnd);
    var (s1, r) := CreateFd(s, i, ReadEnd);
    if r >= 0 {
      CreateFdEvolves(s1, i, WriteEnd);
      CreateFdRefs(s1, i, WriteEnd);
      var (s2, w) := CreateFd(s1, i, WriteEnd);
      EvolveTrans(s.pipes, s1.pipes, s2.pipes);
      if w < 0 {
        assert s1.fds[r] == Fd(ReadEnd, 1, i);
        DecrefEvolves(s2, r);
        EvolveTrans(s.pipes, s2.pipes, Decref(s2, r).pipes);
      }
    }
  }

  /** What sys_pipe and sys_pipe_open do: a slot not in use starts a new pipe, with nothing in it; otherwise at most an
      existing named pipe gets new ends. */
  lemma OpenStep(s: Pipes, name: Option<string>)
    requires RefInv(s.pipes, s.fds)
    ensures var ps' := Next(s, Open(name)).pipes;
            var i := Started(s, name);
            && |ps'| == |s.pipes|
            && (forall j :: 0 <= j < |s.pipes| && Some(j) != i ==>
                Evolves(s.pipes[j], ps'[j]) && EofStill(s.pipes[j], ps'[j]))
            && (i.Some? ==> i.value < |s.pipes| && !s.pipes[i.value].inUse && ps'[i.value].contents == []
                            && (ps'[i.value].inUse ==> SameName(Begun(name), ps'[i.value])) && EndOk(ps'[i.value])
                            && ps'[i.value].readers == [] && ps'[i.value].writers == []
                            && forall r, w :: Served(ps'[i.value], r, w))
  {
    PipeOpenRefs(s.pipes, s.fds, name);
    var (ps, i) := PipeOpen(s.pipes, name);
    if i.Some? {
      var t := s.(pipes := ps);
      CreateBothEvolves(t, i.value);
      var ps' := CreateBoth(t, i.value).0.pipes;
      assert Evolves(ps[i.value], ps'[i.value]);
      if Started(s, name).None? {
        assert Evolves(s.pipes[i.value], ps[i.value]);
        forall r, w | Served(s.pipes[i.value], r, w)
          ensures Served(ps'[i.value], r, w)
        {
          assert Served(ps[i.value], r, w);
        }
      } else {
        forall r, w ensures Served(ps'[i.value], r, w) { assert Served(ps[i.value], r, w); }
      }
    }
  }

  // ---------------------------------------------------------------- reading and writing

  /** The data came from the front of the buffer. */
  predicate ReadIs(p: Pipe, p': Pipe, data: seq<Byte>) {
    p.inUse && SameCounts(p, p') && SameName(p, p') && SameEnd(p, p') && p.contents == data + p'.contents
  }

  /** The data went to the end of the buffer, within its size. */
  predicate WriteIs(p: Pipe, p': Pipe, data: seq<Byte>) {
    && p.inUse && SameCounts(p, p') && SameName(p, p') && SameEnd(p, p') && p'.contents == p.contents + data
    && (|p.contents| <= PIPE_BUFFER_SIZE ==> |p'.contents| <= PIPE_BUFFER_SIZE)
  }

  lemma ReadStep(s: Pipes, n: nat, count: nat, typed: Option<seq<Byte>>)
    requires RefInv(s.pipes, s.fds)
    ensures var (s', r, data) := SysRead(s, n, count, typed);
            var i := ReadFrom(s, n);
            && |s'.pipes| == |s.pipes| && (forall j :: 0 <= j < |s.pipes| && Some(j) != i ==> s'.pipes[j] == s.pipes[j])
            && (i.Some? ==> i.value < |s.pipes| && ReadIs(s.pipes[i.value], s'.pipes[i.value], data))
  {
    if ReadFrom(s, n).Some? {
      assert FdOk(s.fds[Real(s, n, FD_STDIN).value], s.pipes);
      ReadOne(s.pipes[ReadFrom(s, n).value], s.view, count);
    }
  }

  lemma ReadOne(p: Pipe, v: View, n: nat)
    ensures var (p', v', r, data) := ReadPipe(p, v, n);
            p'.openRead == p.openRead && p'.openWrite == p.openWrite && p'.inUse == p.inUse && SameName(p, p')
              && SameEnd(p, p')
              && p.contents == data + p'.contents
  {
  }

  lemma WriteStep(s: Pipes, n: nat, data: seq<Byte>)
    requires RefInv(s.pipes, s.fds)
    ensures var (s', r) := SysWrite(s, n, data);
            var i := WriteTo(s, n);
            && |s'.pipes| == |s.pipes| && (forall j :: 0 <= j < |s.pipes| && Some(j) != i ==> s'.pipes[j] == s.pipes[j])
            && r <= |data|
            && (i.Some? ==>
                i.value < |s.pipes| &&
                WriteIs(s.pipes[i.value], s'.pipes[i.value], if r > 0 then data[..r] else []))
  {
    if WriteTo(s, n).Some? { assert FdOk(s.fds[Real(s, n, FD_STDOUT).value], s.pipes); }
  }

  /** Steps other than opening, reading and writing leave bytes and sleepers alone, and no ended stream begins again. */
  lemma OtherStep(s: Pipes, e: Event)
    requires RefInv(s.pipes, s.fds) && !e.Open? && !e.Read? && !e.Write?
    ensures AllEvolve(s.pipes, Next(s, e).pipes) && AllEofs(s.pipes, Next(s, e).pipes)
  {
    SelfEvolves(s.pipes);
    match e
    case Dup(oldFd, newFd) => if Dup2(s, oldFd, newFd).0 != s { RedirectEvolves(s, s.view.cur.value, newFd, oldFd); }
    case Close(f) => DecrefEvolves(s, f);
    case SetUp(pid, f, target) => if pid in s.view.procs { RedirectEvolves(s, pid, target, f); }
    case Birth =>
      IncrefEvolves(s, FD_STDIN);
      IncrefRefs(s, FD_STDIN);
      IncrefEvolves(Incref(s, FD_STDIN), FD_STDOUT);
      EvolveTrans(s.pipes, Incref(s, FD_STDIN).pipes, Next(s, e).pipes);
      EofTrans(s.pipes, Incref(s, FD_STDIN).pipes, Next(s, e).pipes);
    case Death(pid) =>
      CleanupEvolves(s, pid);
      CleanupRefs(s, pid);
      ReleaseEvolves(PipeCleanup(s, pid), pid);
      EvolveTrans(s.pipes, PipeCleanup(s, pid).pipes, Next(s, e).pipes);
      EofTrans(s.pipes, PipeCleanup(s, pid).pipes, Next(s, e).pipes);
    case Others(view) =>
  }

  // ---------------------------------------------------------------- the stream over a step

  lemma OpenLogs(t: Traced, name: Option<string>)
    requires PipeInv(t.s) && LogsOk(t.s.pipes, t.logs)
    ensures LogsOk(After(t, Open(name)).s.pipes, After(t, Open(name)).logs)
  {
    var t' := After(t, Open(name));
    OpenStep(t.s, name);
    forall j | 0 <= j < |t.s.pipes| ensures LogOk(t'.s.pipes[j], t'.logs[j]) {
      assert LogOk(t.s.pipes[j], t.logs[j]);
      assert Some(j) != Started(t.s, name) ==> Evolves(t.s.pipes[j], t'.s.pipes[j]);
    }
  }

  lemma ReadLogs(t: Traced, n: nat, count: nat, typed: Option<seq<Byte>>)
    requires PipeInv(t.s) && LogsOk(t.s.pipes, t.logs)
    ensures LogsOk(After(t, Read(n, count, typed)).s.pipes, After(t, Read(n, count, typed)).logs)
  {
    var t' := After(t, Read(n, count, typed));
    var data := SysRead(t.s, n, count, typed).2;
    ReadStep(t.s, n, count, typed);
    forall j | 0 <= j < |t.s.pipes| ensures LogOk(t'.s.pipes[j], t'.logs[j]) {
      assert LogOk(t.s.pipes[j], t.logs[j]);
      if Some(j) == ReadFrom(t.s, n) { ReadLog(t.s.pipes[j], t'.s.pipes[j], t.logs[j], data); }
    }
  }

  lemma ReadLog(p: Pipe, p': Pipe, l: Log, data: seq<Byte>)
    requires LogOk(p, l) && ReadIs(p, p', data)
    ensures LogOk(p', l.(delivered := l.delivered + data))
  {
    assert l.delivered + (data + p'.contents) == (l.delivered + data) + p'.contents;
  }

  lemma WriteLogs(t: Traced, n: nat, data: seq<Byte>)
    requires PipeInv(t.s) && LogsOk(t.s.pipes, t.logs)
    ensures LogsOk(After(t, Write(n, data)).s.pipes, After(t, Write(n, data)).logs)
  {
    var t' := After(t, Write(n, data));
    WriteStep(t.s, n, data);
    forall j | 0 <= j < |t.s.pipes| ensures LogOk(t'.s.pipes[j], t'.logs[j]) {
      assert LogOk(t.s.pipes[j], t.logs[j]);
    }
  }

  lemma LogsStep(t: Traced, e: Event)
    requires PipeInv(t.s) && LogsOk(t.s.pipes, t.logs)
    ensures LogsOk(After(t, e).s.pipes, After(t, e).logs)
  {
    match e
    case Open(name) => OpenLogs(t, name);
    case Read(n, count, typed) => ReadLogs(t, n, count, typed);
    case Write(n, data) => WriteLogs(t, n, data);
    case _ =>
      var t' := After(t, e);
      OtherStep(t.s, e);
      forall j | 0 <= j < |t.s.pipes| ensures LogOk(t'.s.pipes[j], t'.logs[j]) {
        assert LogOk(t.s.pipes[j], t.logs[j]) && Evolves(t.s.pipes[j], t'.s.pipes[j]);
      }
  }

  lemma StepKeeps(t: Traced, e: Event)
    requires Inv(t) && Enabled(t.s, e)
    ensures Inv(After(t, e))
  {
    RefsStep(t.s, e);
    QueuesStep(t.s, e);
    LogsStep(t, e);
  }

  // ---------------------------------------------------------------- the end of a stream

  /** Either pipe i is another incarnation by now, or nothing more has been accepted, and nothing can be. */
  predicate Final(t: Traced, i: nat, g: nat, accepted: seq<Byte>) {
    && i < |t.s.pipes| && i < |t.logs|
    && (|| t.logs[i].gen > g
        || (t.logs[i].gen == g && t.logs[i].accepted == accepted
            && (t.s.pipes[i].inUse ==> !t.s.pipes[i].named && t.s.pipes[i].openWrite == 0)))
  }

  lemma FinalStep(t: Traced, e: Event, i: nat, g: nat, accepted: seq<Byte>)
    requires Inv(t) && Final(t, i, g, accepted)
    ensures Final(After(t, e), i, g, accepted)
  {
    var t' := After(t, e);
    assert CountsOk(t.s.pipes[i], t.s.fds, i);
    match e
    case Open(name) =>
      OpenStep(t.s, name);
      assert Some(i) != Started(t.s, name) ==>
             Evolves(t.s.pipes[i], t'.s.pipes[i]) && EofStill(t.s.pipes[i], t'.s.pipes[i]);
    case Read(n, count, typed) => ReadStep(t.s, n, count, typed);
    case Write(n, data) =>
      WriteStep(t.s, n, data);
      if WriteTo(t.s, n) == Some(i) { WriterHolds(t.s, n, i); }
    case _ =>
      OtherStep(t.s, e);
      assert Evolves(t.s.pipes[i], t'.s.pipes[i]) && EofStill(t.s.pipes[i], t'.s.pipes[i]);
  }

  /** Who can write to a pipe holds a reference that counts. */
  lemma WriterHolds(s: Pipes, n: nat, i: nat)
    requires RefInv(s.pipes, s.fds) && WriteTo(s, n) == Some(i)
    ensures i < |s.pipes| && s.pipes[i].inUse && s.pipes[i].openWrite > 0
  {
    var f := Real(s, n, FD_STDOUT).value;
    assert FdOk(s.fds[f], s.pipes) && CountsOk(s.pipes[i], s.fds, i);
    RefsUpdate(s.fds, f, s.fds[f], WriteEnd, i);
  }

  // ---------------------------------------------------------------- runs

  ghost predicate Runs(t: Traced, es: seq<Event>)
    decreases |es|
  {
    es == [] || (Enabled(t.s, es[0]) && Runs(After(t, es[0]), es[1..]))
  }

  ghost function End(t: Traced, es: seq<Event>): Traced
    decreases |es|
  {
    if es == [] then t else End(After(t, es[0]), es[1..])
  }

  /** No pipe in use, and nothing in the FD table but terminals. */
  ghost predicate Initial(t: Traced) {
    && |t.s.pipes| == MAX_PIPES == |t.logs| && (forall i :: 0 <= i < |t.s.pipes| ==> t.s.pipes[i] == Closed)
    && forall f :: 0 <= f < |t.s.fds| ==> !IsPipeEnd(t.s.fds[f])
  }

  lemma {:induction false} NoEnds(fds: seq<Fd>, kind: Kind, i: nat)
    requires (kind == ReadEnd || kind == WriteEnd) && forall f :: 0 <= f < |fds| ==> !IsPipeEnd(fds[f])
    ensures Refs(fds, kind, i) == 0
  {
    if fds != [] { NoEnds(fds[1..], kind, i); }
  }

  lemma InitialInv(t: Traced)
    requires Initial(t)
    ensures Inv(t)
  {
    forall i: nat | i < |t.s.pipes| ensures CountsOk(t.s.pipes[i], t.s.fds, i) {
      NoEnds(t.s.fds, ReadEnd, i);
      NoEnds(t.s.fds, WriteEnd, i);
    }
    forall i: nat, j: nat, x: nat | i < |t.s.pipes| && j < |t.s.pipes| && i != j ensures Apart(t.s.pipes, i, j, x) { }
  }

  lemma {:induction false} RunKeeps(t: Traced, es: seq<Event>)
    requires Inv(t) && Runs(t, es)
    ensures Inv(End(t, es))
    decreases |es|
  {
    if es != [] {
      StepKeeps(t, es[0]);
      RunKeeps(After(t, es[0]), es[1..]);
    }
  }

  lemma {:induction false} RunKeepsFinal(t: Traced, es: seq<Event>, i: nat, g: nat, accepted: seq<Byte>)
    requires Inv(t) && Runs(t, es) && Final(t, i, g, accepted)
    ensures Final(End(t, es), i, g, accepted)
    decreases |es|
  {
    if es != [] {
      StepKeeps(t, es[0]);
      FinalStep(t, es[0], i, g, accepted);
      RunKeepsFinal(After(t, es[0]), es[1..], i, g, accepted);
    }
  }

  /** In every reachable state, for every pipe in use: what its incarnation has accepted is what it has delivered
      followed by what is in its buffer; its open counts are the references its FDs hold; and whatever FD names it
      has a reference. */
  lemma StreamOfEveryRun(t: Traced, es: seq<Event>, i: nat)
    requires Initial(t) && Runs(t, es) && i < |End(t, es).s.pipes| && End(t, es).s.pipes[i].inUse
    ensures var e := End(t, es);
            && i < |e.logs| && e.logs[i].accepted == e.logs[i].delivered + e.s.pipes[i].contents
            && e.s.pipes[i].openRead == Refs(e.s.fds, ReadEnd, i)
            && e.s.pipes[i].openWrite == Refs(e.s.fds, WriteEnd, i)
  {
    InitialInv(t);
    RunKeeps(t, es);
    var e := End(t, es);
    assert LogOk(e.s.pipes[i], e.logs[i]) && CountsOk(e.s.pipes[i], e.s.fds, i);
  }

  /** A read of at least one byte that returns 0 on an anonymous pipe tells the truth: everything accepted has been
      delivered, and in whatever follows no more is ever accepted by that incarnation. */
  lemma EofIsFinal(t: Traced, n: nat, count: nat, typed: Option<seq<Byte>>, es: seq<Event>)
    requires Inv(t) && CallerRuns(t.s.view) && count > 0 && SysRead(t.s, n, count, typed).1 == 0
    requires ReadFrom(t.s, n).Some? && !t.s.pipes[ReadFrom(t.s, n).value].named
    requires Runs(After(t, Read(n, count, typed)), es)
    ensures var i := ReadFrom(t.s, n).value;
            var e := End(After(t, Read(n, count, typed)), es);
            && i < |t.logs| && i < |e.logs| && t.logs[i].accepted == t.logs[i].delivered
            && (e.logs[i].gen == t.logs[i].gen ==> e.logs[i].accepted == t.logs[i].accepted)
  {
    var i := ReadFrom(t.s, n).value;
    var t' := After(t, Read(n, count, typed));
    ReadStep(t.s, n, count, typed);
    StepKeeps(t, Read(n, count, typed));
    assert LogOk(t.s.pipes[i], t.logs[i]);
    assert t.s.pipes[i].contents == [];
    RunKeepsFinal(t', es, i, t.logs[i].gen, t.logs[i].accepted);
  }

  // ---------------------------------------------------------------- no lost wakeup

  /** Only r reads from pipe i, and only w writes to it. */
  predicate Exclusive(s: Pipes, e: Event, i: nat, r: nat, w: nat) {
    match e
    case Read(n, _, _) => ReadFrom(s, n) == Some(i) ==> s.view.cur == Some(r)
    case Write(n, _) => WriteTo(s, n) == Some(i) ==> s.view.cur == Some(w)
    case _ => true
  }

  lemma ReadServed(p: Pipe, v: View, n: nat, r: nat, w: nat)
    requires Served(p, r, w) && v.cur == Some(r) && |p.contents| <= PIPE_BUFFER_SIZE
    ensures Served(ReadPipe(p, v, n).0, r, w)
  {
  }

  lemma WriteServed(p: Pipe, v: View, data: seq<Byte>, r: nat, w: nat)
    requires Served(p, r, w) && v.cur == Some(w) && |p.contents| <= PIPE_BUFFER_SIZE
    ensures Served(WritePipe(p, v, data).0, r, w)
  {
  }

  lemma ServedStep(t: Traced, e: Event, i: nat, r: nat, w: nat)
    requires Inv(t) && i < |t.s.pipes| && Served(t.s.pipes[i], r, w) && Exclusive(t.s, e, i, r, w)
    ensures i < |Next(t.s, e).pipes| && Served(Next(t.s, e).pipes[i], r, w)
  {
    assert LogOk(t.s.pipes[i], t.logs[i]) && CountsOk(t.s.pipes[i], t.s.fds, i);
    match e
    case Open(name) =>
      OpenStep(t.s, name);
      assert Some(i) != Started(t.s, name) ==> Evolves(t.s.pipes[i], Next(t.s, e).pipes[i]);
    case Read(n, count, typed) =>
      ReadStep(t.s, n, count, typed);
      if ReadFrom(t.s, n) == Some(i) { ReadServed(t.s.pipes[i], t.s.view, count, r, w); }
    case Write(n, data) =>
      WriteStep(t.s, n, data);
      if WriteTo(t.s, n) == Some(i) { WriteServed(t.s.pipes[i], t.s.view, data, r, w); }
    case _ =>
      OtherStep(t.s, e);
      assert Evolves(t.s.pipes[i], Next(t.s, e).pipes[i]);
  }

  ghost predicate ExclusiveRun(t: Traced, es: seq<Event>, i: nat, r: nat, w: nat)
    decreases |es|
  {
    es == [] || (Exclusive(t.s, es[0], i, r, w) && ExclusiveRun(After(t, es[0]), es[1..], i, r, w))
  }

  lemma {:induction false} RunServed(t: Traced, es: seq<Event>, i: nat, r: nat, w: nat)
    requires Inv(t) && Runs(t, es) && i < |t.s.pipes| && Served(t.s.pipes[i], r, w) && ExclusiveRun(t, es, i, r, w)
    ensures i < |End(t, es).s.pipes| && Served(End(t, es).s.pipes[i], r, w)
    decreases |es|
  {
    if es != [] {
      StepKeeps(t, es[0]);
      ServedStep(t, es[0], i, r, w);
      RunServed(After(t, es[0]), es[1..], i, r, w);
    }
  }

  /** One reader and one writer of an anonymous pipe are never both asleep at it, over any run, with other processes
      opening, closing and dying: a sleeping reader has an empty pipe and an open write end, a sleeping writer a full
      one and an open read end. */
  lemma NoLostWakeup(t: Traced, es: seq<Event>, i: nat, r: nat, w: nat)
    requires Initial(t) && Runs(t, es) && i < |t.s.pipes| && ExclusiveRun(t, es, i, r, w)
    ensures i < |End(t, es).s.pipes|
    ensures var p := End(t, es).s.pipes[i];
            !p.named ==>
              && (p.readers != [] ==> p.readers == [r] && p.contents == [] && p.openWrite > 0)
              && (p.writers != [] ==> p.writers == [w] && |p.contents| == PIPE_BUFFER_SIZE && p.openRead > 0)
              && (p.readers == [] || p.writers == [])
  {
    InitialInv(t);
    RunServed(t, es, i, r, w);
  }
}
