/**
 Reference counts: in every reachable state the open counts of a pipe are the references held by its FDs, every FD of a
 pipe has a reference and names a pipe in use, and a pipe is recycled only when no FD refers to it.
 */
module PipeRefs {
  import opened Processes
  import opened PipeSpec

  function Share(fd: Fd, kind: Kind, i: nat): nat {
    if fd.kind == kind && fd.pipe == i then fd.refs else 0
  }

  /** The references all FDs of one kind hold on pipe i. */
  function Refs(fds: seq<Fd>, kind: Kind, i: nat): nat {
    if fds == [] then 0 else Share(fds[0], kind, i) + Refs(fds[1..], kind, i)
  }

  lemma {:induction false} RefsUpdate(fds: seq<Fd>, f: nat, x: Fd, kind: Kind, i: nat)
    requires f < |fds|
    ensures Refs(fds[f := x], kind, i) == Refs(fds, kind, i) - Share(fds[f], kind, i) + Share(x, kind, i)
    ensures Share(fds[f], kind, i) <= Refs(fds, kind, i)
  {
    if f == 0 {
      assert fds[0 := x][1..] == fds[1..];
    } else {
      assert fds[f := x][1..] == fds[1..][f - 1 := x];
      RefsUpdate(fds[1..], f - 1, x, kind, i);
    }
  }

  predicate IsPipeEnd(fd: Fd) { fd.kind == ReadEnd || fd.kind == WriteEnd }

  predicate Names(fd: Fd, i: nat) { IsPipeEnd(fd) && fd.pipe == i }

  predicate FdOk(fd: Fd, pipes: seq<Pipe>) {
    IsPipeEnd(fd) ==> fd.refs >= 1 && fd.pipe < |pipes| && pipes[fd.pipe].inUse
  }

  ghost predicate FdsOk(fds: seq<Fd>, pipes: seq<Pipe>) {
    forall f {:trigger FdOk(fds[f], pipes)} :: 0 <= f < |fds| ==> FdOk(fds[f], pipes)
  }

  predicate CountsOk(p: Pipe, fds: seq<Fd>, i: nat) {
    && p.openRead == Refs(fds, ReadEnd, i) && p.openWrite == Refs(fds, WriteEnd, i)
    && (!p.inUse ==> p == Closed)
  }

  ghost predicate AllCounts(pipes: seq<Pipe>, fds: seq<Fd>) {
    forall i: nat {:trigger CountsOk(pipes[i], fds, i)} :: i < |pipes| ==> CountsOk(pipes[i], fds, i)
  }

  ghost predicate RefInv(pipes: seq<Pipe>, fds: seq<Fd>) {
    FdsOk(fds, pipes) && AllCounts(pipes, fds)
  }

  lemma {:induction false} NoRefs(fds: seq<Fd>, kind: Kind, i: nat, f: nat)
    requires Refs(fds, kind, i) == 0 && f < |fds|
    ensures Share(fds[f], kind, i) == 0
  {
    RefsUpdate(fds, f, fds[f], kind, i);
  }

  /** What pipes not in use have: nobody refers to them. */
  lemma Unreferenced(pipes: seq<Pipe>, fds: seq<Fd>, i: nat)
    requires RefInv(pipes, fds) && i < |pipes| && !pipes[i].inUse
    ensures forall f :: 0 <= f < |fds| && IsPipeEnd(fds[f]) ==> fds[f].pipe != i
  {
    forall f | 0 <= f < |fds| && IsPipeEnd(fds[f]) ensures fds[f].pipe != i { assert FdOk(fds[f], pipes); }
  }

  /** One FD changes and with it the counts of one pipe. */
  lemma OneFd(pipes: seq<Pipe>, fds: seq<Fd>, f: nat, x: Fd, i: nat, p: Pipe)
    requires RefInv(pipes, fds) && f < |fds| && i < |pipes|
    requires IsPipeEnd(fds[f]) ==> fds[f].pipe == i
    requires IsPipeEnd(x) ==> x.pipe == i && x.refs >= 1
    requires p.openRead == pipes[i].openRead - Share(fds[f], ReadEnd, i) + Share(x, ReadEnd, i)
    requires p.openWrite == pipes[i].openWrite - Share(fds[f], WriteEnd, i) + Share(x, WriteEnd, i)
    requires (p.inUse || p == Closed)
    ensures RefInv(pipes[i := p], fds[f := x])
  {
    var pipes' := pipes[i := p];
    var fds' := fds[f := x];
    forall j: nat | j < |pipes'| ensures CountsOk(pipes'[j], fds', j) {
      RefsUpdate(fds, f, x, ReadEnd, j);
      RefsUpdate(fds, f, x, WriteEnd, j);
      assert CountsOk(pipes[j], fds, j);
    }
    forall g | 0 <= g < |fds'| ensures FdOk(fds'[g], pipes') {
      if g != f { assert FdOk(fds[g], pipes); }
      if IsPipeEnd(fds'[g]) && fds'[g].pipe == i && !p.inUse {
        assert CountsOk(pipes'[i], fds', i);
        NoRefs(fds', fds'[g].kind, i, g);
        assert false;
      }
    }
  }

  // ---------------------------------------------------------------- the operations

  lemma IncrefRefs(s: Pipes, f: nat)
    requires RefInv(s.pipes, s.fds)
    ensures RefInv(Incref(s, f).pipes, Incref(s, f).fds)
  {
    if Valid(s, f) {
      assert FdOk(s.fds[f], s.pipes);
      var x := s.fds[f].(refs := s.fds[f].refs + 1);
      if IsPipeEnd(s.fds[f]) {
        var i := s.fds[f].pipe;
        OneFd(s.pipes, s.fds, f, x, i, Incref(s, f).pipes[i]);
      } else {
        Terminals(s.pipes, s.fds, f, x);
      }
    }
  }

  /** A change to a FD that is, and stays, no end of a pipe. */
  lemma Terminals(pipes: seq<Pipe>, fds: seq<Fd>, f: nat, x: Fd)
    requires RefInv(pipes, fds) && f < |fds| && !IsPipeEnd(fds[f]) && !IsPipeEnd(x)
    ensures RefInv(pipes, fds[f := x])
  {
    var fds' := fds[f := x];
    forall j: nat | j < |pipes| ensures CountsOk(pipes[j], fds', j) {
      RefsUpdate(fds, f, x, ReadEnd, j);
      RefsUpdate(fds, f, x, WriteEnd, j);
      assert CountsOk(pipes[j], fds, j);
    }
    forall g | 0 <= g < |fds'| ensures FdOk(fds'[g], pipes) { if g != f { assert FdOk(fds[g], pipes); } }
  }

  lemma DecrefRefs(s: Pipes, f: nat)
    requires RefInv(s.pipes, s.fds)
    ensures RefInv(Decref(s, f).pipes, Decref(s, f).fds)
  {
    if Valid(s, f) {
      assert FdOk(s.fds[f], s.pipes);
      var x := Reclaim(if s.fds[f].refs == 0 then s.fds[f] else s.fds[f].(refs := s.fds[f].refs - 1));
      if IsPipeEnd(s.fds[f]) {
        var i := s.fds[f].pipe;
        assert CountsOk(s.pipes[i], s.fds, i);
        RefsUpdate(s.fds, f, x, ReadEnd, i);
        RefsUpdate(s.fds, f, x, WriteEnd, i);
        OneFd(s.pipes, s.fds, f, x, i, Decref(s, f).pipes[i]);
      } else {
        Terminals(s.pipes, s.fds, f, x);
      }
    }
  }

  /** A new FD on a pipe in use has the one reference its creator owns. */
  lemma CreateFdRefs(s: Pipes, i: nat, kind: Kind)
    requires RefInv(s.pipes, s.fds) && i < |s.pipes| && s.pipes[i].inUse && (kind == ReadEnd || kind == WriteEnd)
    ensures var (s', f) := CreateFd(s, i, kind);
            && RefInv(s'.pipes, s'.fds) && |s'.pipes| == |s.pipes| && |s'.fds| == |s.fds| && s'.pipes[i].inUse
            && (f < 0 ==> s' == s && f == -1)
            && (f >= 0 ==> f < |s.fds| && s'.fds[f] == Fd(kind, 1, i) && s.fds[f].kind == NoFd)
  {
    match FreeFd(s.fds, 0)
    case None =>
    case Some(f) =>
      var s' := CreateFd(s, i, kind).0;
      assert s'.fds == s.fds[f := Fd(kind, 1, i)];
      OneFd(s.pipes, s.fds, f, Fd(kind, 1, i), i, s'.pipes[i]);
  }

  /** Two FDs for one pipe; if the second cannot be had the first is given back. */
  lemma CreateBothRefs(s: Pipes, i: nat)
    requires RefInv(s.pipes, s.fds) && i < |s.pipes| && s.pipes[i].inUse
    ensures var (s', r) := CreateBoth(s, i); RefInv(s'.pipes, s'.fds)
  {
    CreateFdRefs(s, i, ReadEnd);
    var (s1, r) := CreateFd(s, i, ReadEnd);
    if r >= 0 {
      CreateFdRefs(s1, i, WriteEnd);
      var (s2, w) := CreateFd(s1, i, WriteEnd);
      if w < 0 { DecrefRefs(s2, r); }
    }
  }

  lemma PipeOpenRefs(ps: seq<Pipe>, fds: seq<Fd>, name: Option<string>)
    requires RefInv(ps, fds)
    ensures var (ps', i) := PipeOpen(ps, name);
            RefInv(ps', fds) && (i.Some? ==> i.value < |ps'| && ps'[i.value].inUse)
  {
    var (ps', i) := PipeOpen(ps, name);
    if i.Some? {
      forall j: nat | j < |ps'| ensures CountsOk(ps'[j], fds, j) { assert CountsOk(ps[j], fds, j); }
      forall f | 0 <= f < |fds| ensures FdOk(fds[f], ps') { assert FdOk(fds[f], ps); }
    }
  }

  lemma SysPipeRefs(s: Pipes, name: Option<string>)
    requires RefInv(s.pipes, s.fds)
    ensures RefInv(SysPipe(s, name).0.pipes, SysPipe(s, name).0.fds)
  {
    PipeOpenRefs(s.pipes, s.fds, name);
    var (ps, i) := PipeOpen(s.pipes, name);
    if i.Some? { CreateBothRefs(s.(pipes := ps), i.value); }
  }

  lemma RedirectRefs(s: Pipes, pid: nat, target: nat, f: int)
    requires RefInv(s.pipes, s.fds) && pid in s.view.procs
    ensures RefInv(Redirect(s, pid, target, f).pipes, Redirect(s, pid, target, f).fds)
  {
    var was := GetStd(s.view.procs[pid], target);
    if was >= 0 { DecrefRefs(s, was); }
    var s1 := if was >= 0 then Decref(s, was) else s;
    if f >= 0 { IncrefRefs(Point(s1, pid, target, f), f); }
  }

  lemma ReleaseRefs(s: Pipes, pid: nat)
    requires RefInv(s.pipes, s.fds)
    ensures RefInv(ReleaseFds(s, pid).pipes, ReleaseFds(s, pid).fds)
  {
    if pid in s.view.procs {
      var b := s.view.procs[pid];
      if b.stdin >= 0 { DecrefRefs(s, b.stdin); }
      var s1 := if b.stdin >= 0 then Decref(s, b.stdin) else s;
      if b.stdout >= 0 { DecrefRefs(s1, b.stdout); }
    }
  }

  /** Reading, writing and the cleaning of wait queues leave the counts alone. */
  predicate SameCounts(p: Pipe, p': Pipe) {
    p'.openRead == p.openRead && p'.openWrite == p.openWrite && p'.inUse == p.inUse && (!p.inUse ==> p' == p)
  }

  lemma SameCountsKeep(pipes: seq<Pipe>, pipes': seq<Pipe>, fds: seq<Fd>)
    requires RefInv(pipes, fds) && |pipes'| == |pipes|
    requires forall i :: 0 <= i < |pipes| ==> SameCounts(pipes[i], pipes'[i])
    ensures RefInv(pipes', fds)
  {
    forall j: nat | j < |pipes'| ensures CountsOk(pipes'[j], fds, j) { assert CountsOk(pipes[j], fds, j); }
    forall f | 0 <= f < |fds| ensures FdOk(fds[f], pipes') { assert FdOk(fds[f], pipes); }
  }

  lemma ReadRefs(s: Pipes, n: nat, count: nat, typed: Option<seq<Byte>>)
    requires RefInv(s.pipes, s.fds)
    ensures RefInv(SysRead(s, n, count, typed).0.pipes, SysRead(s, n, count, typed).0.fds)
  {
    var f := Real(s, n, FD_STDIN);
    if f.Some? && IsEnd(s, f.value, ReadEnd) {
      assert FdOk(s.fds[f.value], s.pipes);
      SameCountsKeep(s.pipes, SysRead(s, n, count, typed).0.pipes, s.fds);
    }
  }

  lemma WriteRefs(s: Pipes, n: nat, data: seq<Byte>)
    requires RefInv(s.pipes, s.fds)
    ensures RefInv(SysWrite(s, n, data).0.pipes, SysWrite(s, n, data).0.fds)
  {
    var f := Real(s, n, FD_STDOUT);
    if f.Some? && IsEnd(s, f.value, WriteEnd) {
      assert FdOk(s.fds[f.value], s.pipes);
      SameCountsKeep(s.pipes, SysWrite(s, n, data).0.pipes, s.fds);
    }
  }

  lemma CleanupRefs(s: Pipes, pid: nat)
    requires RefInv(s.pipes, s.fds)
    ensures RefInv(PipeCleanup(s, pid).pipes, PipeCleanup(s, pid).fds)
  {
    SameCountsKeep(s.pipes, PipeCleanup(s, pid).pipes, s.fds);
  }
}
