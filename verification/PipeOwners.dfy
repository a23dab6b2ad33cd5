/**
 Who owns the references to FDs. As long as FDs are used and closed only by processes that own a reference to them, a
 process that sleeps at a pipe holds on to it: it stays in the queue until it is woken or dies, and no pipe is recycled
 under it.
 */
module PipeOwners {
  import opened Processes
  import opened PipeSpec
  import opened PipeRefs
  import opened PipeQueues
  import opened PipeStreams
  import SemaphoreTheorems

  /** own[f] says who owns how many of the references to FD f. */
  type Owners = seq<multiset<nat>>

  predicate OwnAt(fd: Fd, m: multiset<nat>) {
    if IsPipeEnd(fd) then |m| <= fd.refs else m == multiset{}
  }

  /** No more owners than references. */
  ghost predicate OwnOk(fds: seq<Fd>, own: Owners) {
    |own| == |fds| && forall f {:trigger OwnAt(fds[f], own[f])} :: 0 <= f < |fds| ==> OwnAt(fds[f], own[f])
  }

  /** x owns a reference to an end of pipe i. */
  ghost predicate Anchored(fds: seq<Fd>, own: Owners, i: nat, x: nat) {
    exists f {:trigger Names(fds[f], i)} :: 0 <= f < |fds| && f < |own| && Names(fds[f], i) && x in own[f]
  }

  predicate Queued(p: Pipe, x: nat, reader: bool) { x in if reader then p.readers else p.writers }

  /** What the tables are expected to satisfy between two steps of an operation. */
  ghost predicate Base(s: Pipes, own: Owners) {
    RefInv(s.pipes, s.fds) && QueueInv(s.pipes, s.view.procs) && OwnOk(s.fds, own)
  }

  /** x sleeps in a queue of pipe i, anchored, or has been woken. */
  ghost predicate Secure(s: Pipes, own: Owners, i: nat, x: nat, reader: bool) {
    i < |s.pipes| && (IsAwake(s.view, x) || (Queued(s.pipes[i], x, reader) && Anchored(s.fds, own, i, x)))
  }

  // ---------------------------------------------------------------- one pipe

  lemma WakesAwake(v: View, v': View, q: set<nat>, x: nat)
    requires Wakes(v, v', q) && IsAwake(v, x)
    ensures IsAwake(v', x)
  {
    assert WakesAt(v, v', q, x);
  }

  lemma OpensKeep(p: Pipe, v: View, x: nat, reader: bool)
    requires EndsOk(p, v.procs) && Queued(p, x, reader)
    ensures Queued(OpenRead(p, v).0, x, reader) || IsAwake(OpenRead(p, v).1, x)
    ensures Queued(OpenWrite(p, v).0, x, reader) || IsAwake(OpenWrite(p, v).1, x)
  {
    assert x in Waiters(p) && Asleep(v.procs, x);
    UnblockAllWakesUp(v, if reader then p.readers else p.writers, x);
  }

  /** Unless the pipe is recycled. */
  lemma ClosesKeep(p: Pipe, v: View, x: nat, reader: bool)
    requires EndsOk(p, v.procs) && Queued(p, x, reader)
    ensures CloseRead(p, v).0.inUse ==> Queued(CloseRead(p, v).0, x, reader) || IsAwake(CloseRead(p, v).1, x)
    ensures CloseWrite(p, v).0.inUse ==> Queued(CloseWrite(p, v).0, x, reader) || IsAwake(CloseWrite(p, v).1, x)
  {
    assert x in Waiters(p) && Asleep(v.procs, x);
    UnblockAllWakesUp(v, if reader then p.readers else p.writers, x);
  }

  lemma ReadKeepsSleeper(p: Pipe, v: View, n: nat, x: nat, reader: bool)
    requires EndsOk(p, v.procs) && Queued(p, x, reader)
    ensures var (p', v', r, data) := ReadPipe(p, v, n); Queued(p', x, reader) || IsAwake(v', x)
  {
    assert x in Waiters(p) && Asleep(v.procs, x);
  }

  lemma WriteKeepsSleeper(p: Pipe, v: View, data: seq<Byte>, x: nat, reader: bool)
    requires EndsOk(p, v.procs) && Queued(p, x, reader)
    ensures var (p', v', r) := WritePipe(p, v, data); Queued(p', x, reader) || IsAwake(v', x)
  {
    assert x in Waiters(p) && Asleep(v.procs, x);
  }

  // ---------------------------------------------------------------- references taken and given back

  /** The FDs that somebody owns, and the terminals, are still the same. */
  ghost predicate Stay(fds: seq<Fd>, own: Owners, fds': seq<Fd>) {
    |fds'| == |fds| == |own|
    && forall g {:trigger fds'[g]} :: 0 <= g < |fds| && (fds[g].kind == Terminal || own[g] != multiset{}) ==>
         fds'[g].kind == fds[g].kind && fds'[g].pipe == fds[g].pipe
  }

  /** The owners after process y got a reference to f, or gave one back. */
  function Take(fds: seq<Fd>, own: Owners, f: int, y: nat): (r: Owners)
    ensures |r| == |own|
  {
    if 0 <= f < |own| && f < |fds| && IsPipeEnd(fds[f]) then own[f := own[f] + multiset{y}] else own
  }

  function Give(own: Owners, f: int, y: nat): (r: Owners)
    ensures |r| == |own|
  {
    if 0 <= f < |own| then own[f := own[f] - multiset{y}] else own
  }

  lemma AnchorStays(fds: seq<Fd>, own: Owners, fds': seq<Fd>, own': Owners, i: nat, x: nat)
    requires |own| == |own'| == |fds| && Anchored(fds, own, i, x) && Stay(fds, own', fds')
    requires forall g :: 0 <= g < |own| && x in own[g] ==> x in own'[g]
    ensures Anchored(fds', own', i, x)
  {
    var f :| 0 <= f < |fds| && f < |own| && Names(fds[f], i) && x in own[f];
    assert x in own'[f] && Names(fds'[f], i);
  }

  lemma IncrefSecure(s: Pipes, own: Owners, f: nat, y: Option<nat>)
    requires Base(s, own)
    ensures var s' := Incref(s, f);
            var own' := if y.Some? then Take(s.fds, own, f, y.value) else own;
            && Base(s', own') && Stay(s.fds, own', s'.fds)
            && forall i, x, reader :: Secure(s, own, i, x, reader) ==> Secure(s', own', i, x, reader)
  {
    var s' := Incref(s, f);
    var own' := if y.Some? then Take(s.fds, own, f, y.value) else own;
    IncrefRefs(s, f);
    IncrefCalm(s, f);
    forall g | 0 <= g < |s'.fds| ensures OwnAt(s'.fds[g], own'[g]) { assert OwnAt(s.fds[g], own[g]); }
    forall i, x, reader | Secure(s, own, i, x, reader) ensures Secure(s', own', i, x, reader) {
      if IsAwake(s.view, x) {
        WakesAwake(s.view, s'.view, AllWaiters(s.pipes), x);
      } else {
        IncrefKeeps(s, f, i, x, reader);
        AnchorStays(s.fds, own, s'.fds, own', i, x);
      }
    }
  }

  lemma IncrefKeeps(s: Pipes, f: nat, i: nat, x: nat, reader: bool)
    requires QueueInv(s.pipes, s.view.procs) && i < |s.pipes| && Queued(s.pipes[i], x, reader)
    ensures Queued(Incref(s, f).pipes[i], x, reader) || IsAwake(Incref(s, f).view, x)
  {
    assert EndsOk(s.pipes[i], s.view.procs);
    OpensKeep(s.pipes[i], s.view, x, reader);
  }

  lemma DecrefKeeps(s: Pipes, f: nat, i: nat, x: nat, reader: bool)
    requires RefInv(s.pipes, s.fds) && QueueInv(s.pipes, s.view.procs) && i < |s.pipes| && Queued(s.pipes[i], x, reader)
    requires Decref(s, f).pipes[i].inUse
    ensures Queued(Decref(s, f).pipes[i], x, reader) || IsAwake(Decref(s, f).view, x)
  {
    assert EndsOk(s.pipes[i], s.view.procs);
    ClosesKeep(s.pipes[i], s.view, x, reader);
  }

  /** own' is own but for f, of which somebody gives a reference back; x is not that one. */
  lemma DecrefSecure(s: Pipes, own: Owners, own': Owners, f: nat)
    requires Base(s, own) && |own'| == |own| && (forall g :: 0 <= g < |own| && g != f ==> own'[g] == own[g])
    requires f < |own| && IsPipeEnd(s.fds[f]) ==> |own'[f]| <= s.fds[f].refs - 1
    requires f < |own| && !IsPipeEnd(s.fds[f]) ==> own'[f] == multiset{}
    ensures var s' := Decref(s, f); Base(s', own') && Stay(s.fds, own', s'.fds)
    ensures forall i, x, reader {:trigger Secure(s, own, i, x, reader)} ::
              Secure(s, own, i, x, reader) && (forall g :: 0 <= g < |own| && x in own[g] ==> x in own'[g]) ==>
                Secure(Decref(s, f), own', i, x, reader)
  {
    var s' := Decref(s, f);
    DecrefRefs(s, f);
    DecrefCalm(s, f);
    forall g | 0 <= g < |s'.fds| ensures OwnAt(s'.fds[g], own'[g]) { assert OwnAt(s.fds[g], own[g]); }
    forall i, x, reader | Secure(s, own, i, x, reader) && (forall g :: 0 <= g < |own| && x in own[g] ==> x in own'[g])
      ensures Secure(s', own', i, x, reader)
    {
      if IsAwake(s.view, x) {
        WakesAwake(s.view, s'.view, AllWaiters(s.pipes), x);
      } else {
        AnchorStays(s.fds, own, s'.fds, own', i, x);
        var g :| 0 <= g < |s'.fds| && g < |own'| && Names(s'.fds[g], i) && x in own'[g];
        assert FdOk(s'.fds[g], s'.pipes);
        DecrefKeeps(s, f, i, x, reader);
      }
    }
  }

  /** A new FD on a pipe in use, which nobody owns yet. */
  lemma CreateFdSecure(s: Pipes, own: Owners, i: nat, kind: Kind)
    requires Base(s, own) && i < |s.pipes| && s.pipes[i].inUse && (kind == ReadEnd || kind == WriteEnd)
    ensures var s' := CreateFd(s, i, kind).0;
            && Base(s', own) && Stay(s.fds, own, s'.fds)
            && forall j, x, reader :: Secure(s, own, j, x, reader) ==> Secure(s', own, j, x, reader)
  {
    CreateFdRefs(s, i, kind);
    CreateFdCalm(s, i, kind);
    var f := FreeFd(s.fds, 0);
    if f.Some? {
      var s' := CreateFd(s, i, kind).0;
      assert OwnAt(s.fds[f.value], own[f.value]);
      assert s'.fds == s.fds[f.value := Fd(kind, 1, i)];
      forall g | 0 <= g < |s'.fds| ensures OwnAt(s'.fds[g], own[g]) { assert OwnAt(s.fds[g], own[g]); }
      forall j, x, reader | Secure(s, own, j, x, reader) ensures Secure(s', own, j, x, reader) {
        if IsAwake(s.view, x) {
          WakesAwake(s.view, s'.view, AllWaiters(s.pipes), x);
        } else {
          IncrefKeeps(s.(fds := s.fds[f.value := Fd(kind, 0, i)]), f.value, j, x, reader);
          AnchorStays(s.fds, own, s'.fds, own, j, x);
        }
      }
    }
  }

  lemma StayTrans(a: seq<Fd>, b: seq<Fd>, c: seq<Fd>, own: Owners)
    requires Stay(a, own, b) && Stay(b, own, c)
    ensures Stay(a, own, c)
  {
    forall g | 0 <= g < |a| && (a[g].kind == Terminal || own[g] != multiset{})
      ensures c[g].kind == a[g].kind && c[g].pipe == a[g].pipe
    {
      assert b[g].kind == a[g].kind;
    }
  }

  /** pipe_open wakes nobody, and starts only pipes at which nobody sleeps. */
  lemma PipeOpenSecure(s: Pipes, own: Owners, name: Option<string>)
    requires Base(s, own)
    ensures var (ps, r) := PipeOpen(s.pipes, name);
            && Base(s.(pipes := ps), own) && (r.Some? ==> r.value < |ps| && ps[r.value].inUse)
            && forall i, x, reader :: Secure(s, own, i, x, reader) ==> Secure(s.(pipes := ps), own, i, x, reader)
  {
    PipeOpenRefs(s.pipes, s.fds, name);
    PipeOpenCalm(s, name);
    forall i: nat, x: nat, reader | Secure(s, own, i, x, reader)
      ensures Secure(s.(pipes := PipeOpen(s.pipes, name).0), own, i, x, reader)
    {
      assert CountsOk(s.pipes[i], s.fds, i);
    }
  }

  /** The two ends, or what is left when there is no second. */
  lemma CreateBothSecure(s: Pipes, own: Owners, i: nat)
    requires Base(s, own) && i < |s.pipes| && s.pipes[i].inUse
    ensures var (s', ends) := CreateBoth(s, i);
            && Base(s', own) && Stay(s.fds, own, s'.fds)
            && (forall j, x, reader :: Secure(s, own, j, x, reader) ==> Secure(s', own, j, x, reader))
            && (ends.Some? ==>
                ends.value.0 != ends.value.1 && NewEnd(s, s', own, ends.value.0) && NewEnd(s, s', own, ends.value.1))
  {
    CreateFdSecure(s, own, i, ReadEnd);
    CreateFdRefs(s, i, ReadEnd);
    var (s1, r) := CreateFd(s, i, ReadEnd);
    if r >= 0 {
      CreateFdSecure(s1, own, i, WriteEnd);
      CreateFdRefs(s1, i, WriteEnd);
      var (s2, w) := CreateFd(s1, i, WriteEnd);
      assert OwnAt(s.fds[r], own[r]);
      StayTrans(s.fds, s1.fds, s2.fds, own);
      if w < 0 {
        assert s1.fds[r] == Fd(ReadEnd, 1, i);
        DecrefSecure(s2, own, own, r);
        StayTrans(s.fds, s2.fds, Decref(s2, r).fds, own);
      } else {
        assert s2.fds == s1.fds[w := Fd(WriteEnd, 1, i)];
        assert OwnAt(s.fds[w], own[w]);
      }
    }
  }

  /** An end with one reference in a slot that was free. */
  predicate NewEnd(s: Pipes, s': Pipes, own: Owners, f: nat) {
    f < |s.fds| && f < |s'.fds| && f < |own| && s.fds[f].kind == NoFd && IsPipeEnd(s'.fds[f]) && s'.fds[f].refs == 1
      && own[f] == multiset{}
  }

  // ---------------------------------------------------------------- standard streams

  function Points(b: Pcb, f: int): nat { (if b.stdin == f then 1 else 0) + (if b.stdout == f then 1 else 0) }

  /** Stream f of process p is closed, or an FD of which p owns c references. */
  predicate StreamOk(fds: seq<Fd>, own: Owners, f: int, p: nat, c: nat) {
    f < 0 || (f < |fds| && f < |own| && fds[f].kind != NoFd && (IsPipeEnd(fds[f]) ==> own[f][p] >= c))
  }

  predicate StreamsAt(fds: seq<Fd>, own: Owners, b: Pcb, p: nat) {
    StreamOk(fds, own, b.stdin, p, Points(b, b.stdin)) && StreamOk(fds, own, b.stdout, p, Points(b, b.stdout))
  }

  ghost predicate StreamsOk(s: Pipes, own: Owners) {
    forall p {:trigger StreamsAt(s.fds, own, s.view.procs[p], p)} :: p in s.view.procs ==>
      StreamsAt(s.fds, own, s.view.procs[p], p)
  }

  lemma StreamStays(fds: seq<Fd>, own: Owners, fds': seq<Fd>, own': Owners, f: int, p: nat, c: nat)
    requires StreamOk(fds, own, f, p, c) && Stay(fds, own', fds') && c > 0 && |own| == |own'|
    requires 0 <= f < |own| && IsPipeEnd(fds[f]) ==> own'[f][p] >= c
    ensures StreamOk(fds', own', f, p, c)
  {
    if f >= 0 && IsPipeEnd(fds[f]) { assert p in own'[f]; }
  }

  /** An owner that keeps what it has keeps its streams. */
  lemma StreamsStay(fds: seq<Fd>, own: Owners, fds': seq<Fd>, own': Owners, b: Pcb, p: nat)
    requires StreamsAt(fds, own, b, p) && Stay(fds, own', fds') && |own| == |own'|
    requires forall f :: 0 <= f < |own| ==> own'[f][p] >= own[f][p]
    ensures StreamsAt(fds', own', b, p)
  {
    StreamStays(fds, own, fds', own', b.stdin, p, Points(b, b.stdin));
    StreamStays(fds, own, fds', own', b.stdout, p, Points(b, b.stdout));
  }

  // ---------------------------------------------------------------- one stream redirected

  /** Who owns what after pid's stream `target` has been pointed at f. */
  function Redirected(s: Pipes, own: Owners, pid: nat, target: nat, f: int): (r: Owners)
    requires pid in s.view.procs
    ensures |r| == |own|
  {
    var was := GetStd(s.view.procs[pid], target);
    Take(s.fds, Give(own, was, pid), f, pid)
  }

  lemma GiveOk(fds: seq<Fd>, own: Owners, f: int, pid: nat)
    requires OwnOk(fds, own) && f >= 0 && StreamOk(fds, own, f, pid, 1)
    ensures IsPipeEnd(fds[f]) ==> |Give(own, f, pid)[f]| <= fds[f].refs - 1
    ensures !IsPipeEnd(fds[f]) ==> Give(own, f, pid)[f] == multiset{}
  {
    assert OwnAt(fds[f], own[f]);
    if IsPipeEnd(fds[f]) { assert own[f] == own[f] - multiset{pid} + multiset{pid}; }
  }

  /** The reference behind stream `target` of pid is given back, if there is one. */
  lemma ReleaseOne(s: Pipes, own: Owners, pid: nat, f: int)
    requires Base(s, own) && StreamOk(s.fds, own, f, pid, 1)
    ensures var s1 := if f >= 0 then Decref(s, f) else s;
            var own1 := Give(own, f, pid);
            && Base(s1, own1) && Stay(s.fds, own1, s1.fds)
            && forall i, x, reader :: x != pid && Secure(s, own, i, x, reader) ==> Secure(s1, own1, i, x, reader)
  {
    if f >= 0 {
      var own1 := Give(own, f, pid);
      GiveOk(s.fds, own, f, pid);
      DecrefSecure(s, own, own1, f);
    }
  }

  lemma ReferenceSecure(s: Pipes, own: Owners, f: int, pid: nat)
    requires Base(s, own)
    ensures var s' := Reference(s, f);
            var own' := Take(s.fds, own, f, pid);
            && Base(s', own') && Stay(s.fds, own', s'.fds)
            && forall i, x, reader :: Secure(s, own, i, x, reader) ==> Secure(s', own', i, x, reader)
  {
    if f >= 0 { IncrefSecure(s, own, f, Some(pid)); }
  }

  lemma PointSecure(s: Pipes, own: Owners, pid: nat, target: nat, f: int)
    requires Base(s, own)
    ensures var s' := Point(s, pid, target, f);
            && Base(s', own) && s'.fds == s.fds && s'.pipes == s.pipes
            && forall i, x, reader :: Secure(s, own, i, x, reader) ==> Secure(s', own, i, x, reader)
  {
    PointKeeps(s, pid, target, f);
  }

  lemma RedirectSecure(s: Pipes, own: Owners, pid: nat, target: nat, f: int)
    requires Base(s, own) && pid in s.view.procs && StreamOk(s.fds, own, GetStd(s.view.procs[pid], target), pid, 1)
    requires 0 <= f < |s.fds| && s.fds[f].kind != NoFd && f != GetStd(s.view.procs[pid], target)
    ensures var s' := Redirect(s, pid, target, f);
            var own' := Redirected(s, own, pid, target, f);
            && Base(s', own')
            && forall i, x, reader :: x != pid && Secure(s, own, i, x, reader) ==> Secure(s', own', i, x, reader)
  {
    var was := GetStd(s.view.procs[pid], target);
    ReleaseOne(s, own, pid, was);
    var s1 := if was >= 0 then Decref(s, was) else s;
    var own1 := Give(own, was, pid);
    PointSecure(s1, own1, pid, target, f);
    ReferenceSecure(Point(s1, pid, target, f), own1, f, pid);
    assert s1.fds[f] == s.fds[f];
  }

  // ---------------------------------------------------------------- who points where

  predicate StdAt(v: View, v': View, p: nat)
    requires p in v.procs && p in v'.procs
  {
    v'.procs[p].stdin == v.procs[p].stdin && v'.procs[p].stdout == v.procs[p].stdout
  }

  /** Nobody's streams were changed. */
  ghost predicate SameStd(v: View, v': View) {
    v'.procs.Keys == v.procs.Keys && forall p {:trigger StdAt(v, v', p)} :: p in v.procs && p in v'.procs ==>
      StdAt(v, v', p)
  }

  lemma SameStdTrans(v: View, v1: View, v2: View)
    requires SameStd(v, v1) && SameStd(v1, v2)
    ensures SameStd(v, v2)
  {
    forall p | p in v.procs && p in v2.procs ensures StdAt(v, v2, p) { assert StdAt(v, v1, p) && StdAt(v1, v2, p); }
  }

  lemma {:induction false} UnblockAllStd(v: View, q: seq<nat>)
    ensures SameStd(v, UnblockAll(v, q))
    decreases |q|
  {
    if q != [] {
      UnblockAllStd(ProcessUnblock(v, q[0]), q[1..]);
      SameStdTrans(v, ProcessUnblock(v, q[0]), UnblockAll(v, q));
    }
  }

  lemma EndsStd(p: Pipe, v: View)
    ensures SameStd(v, OpenRead(p, v).1) && SameStd(v, OpenWrite(p, v).1)
    ensures SameStd(v, CloseRead(p, v).1) && SameStd(v, CloseWrite(p, v).1)
  {
    UnblockAllStd(v, p.readers);
    UnblockAllStd(v, p.writers);
  }

  lemma RefsStd(s: Pipes, f: nat)
    ensures SameStd(s.view, Incref(s, f).view) && SameStd(s.view, Decref(s, f).view)
  {
    if f < |s.fds| && s.fds[f].pipe < |s.pipes| { EndsStd(s.pipes[s.fds[f].pipe], s.view); }
  }

  lemma CreateBothStd(s: Pipes, i: nat)
    ensures SameStd(s.view, CreateBoth(s, i).0.view)
  {
    var (s1, r) := CreateFd(s, i, ReadEnd);
    CreateFdStd(s, i, ReadEnd);
    if r >= 0 {
      var (s2, w) := CreateFd(s1, i, WriteEnd);
      CreateFdStd(s1, i, WriteEnd);
      SameStdTrans(s.view, s1.view, s2.view);
      if w < 0 {
        RefsStd(s2, r);
        SameStdTrans(s.view, s2.view, Decref(s2, r).view);
      }
    }
  }

  lemma CreateFdStd(s: Pipes, i: nat, kind: Kind)
    ensures SameStd(s.view, CreateFd(s, i, kind).0.view)
  {
    var f := FreeFd(s.fds, 0);
    if f.Some? { RefsStd(s.(fds := s.fds[f.value := Fd(kind, 0, i)]), f.value); }
  }

  /** Streams that nobody touched are in order if nobody lost a reference. */
  lemma StreamsKept(s: Pipes, own: Owners, s': Pipes, own': Owners)
    requires StreamsOk(s, own) && SameStd(s.view, s'.view) && Stay(s.fds, own', s'.fds) && |own| == |own'|
    requires forall f, p :: 0 <= f < |own| ==> own'[f][p] >= own[f][p]
    ensures StreamsOk(s', own')
  {
    forall p | p in s'.view.procs ensures StreamsAt(s'.fds, own', s'.view.procs[p], p) {
      assert StdAt(s.view, s'.view, p) && StreamsAt(s.fds, own, s.view.procs[p], p);
      StreamsStay(s.fds, own, s'.fds, own', s.view.procs[p], p);
    }
  }

  /** What redirecting a stream does to FDs and to everybody's streams. */
  lemma RedirectIs(s: Pipes, own: Owners, pid: nat, target: nat, f: int)
    requires Base(s, own) && pid in s.view.procs && target <= 1
    requires StreamOk(s.fds, own, GetStd(s.view.procs[pid], target), pid, 1)
    requires 0 <= f < |s.fds| && s.fds[f].kind != NoFd && f != GetStd(s.view.procs[pid], target)
    ensures var was := GetStd(s.view.procs[pid], target);
            var s1 := if was >= 0 then Decref(s, was) else s;
            var s3 := Redirect(s, pid, target, f);
            && Stay(s.fds, Give(own, was, pid), s1.fds) && s1.fds[f] == s.fds[f]
            && Stay(s1.fds, Redirected(s, own, pid, target, f), s3.fds)
            && pid in s1.view.procs && SameStd(s.view, s1.view) && SameStd(Point(s1, pid, target, f).view, s3.view)
  {
    var was := GetStd(s.view.procs[pid], target);
    ReleaseOne(s, own, pid, was);
    var s1 := if was >= 0 then Decref(s, was) else s;
    if was >= 0 { RefsStd(s, was); }
    PointSecure(s1, Give(own, was, pid), pid, target, f);
    ReferenceSecure(Point(s1, pid, target, f), Give(own, was, pid), f, pid);
    RefsStd(Point(s1, pid, target, f), f);
    assert s1.fds[f] == s.fds[f];
  }

  lemma RedirectStreams(s: Pipes, own: Owners, pid: nat, target: nat, f: int)
    requires Base(s, own) && StreamsOk(s, own) && pid in s.view.procs && target <= 1
    requires 0 <= f < |s.fds| && s.fds[f].kind != NoFd && f != GetStd(s.view.procs[pid], target)
    ensures StreamsOk(Redirect(s, pid, target, f), Redirected(s, own, pid, target, f))
  {
    var was := GetStd(s.view.procs[pid], target);
    assert StreamsAt(s.fds, own, s.view.procs[pid], pid);
    RedirectIs(s, own, pid, target, f);
    var s1 := if was >= 0 then Decref(s, was) else s;
    var s3 := Redirect(s, pid, target, f);
    forall p | p in s3.view.procs
      ensures StreamsAt(s3.fds, Redirected(s, own, pid, target, f), s3.view.procs[p], p)
    {
      RedirectAt(s, own, s1, s3, pid, target, f, p);
    }
  }

  lemma RedirectAt(s: Pipes, own: Owners, s1: Pipes, s3: Pipes, pid: nat, target: nat, f: int, p: nat)
    requires StreamsOk(s, own) && pid in s.view.procs && target <= 1 && |own| == |s.fds| && p in s3.view.procs
    requires 0 <= f < |s.fds| && s.fds[f].kind != NoFd && f != GetStd(s.view.procs[pid], target)
    requires Stay(s.fds, Give(own, GetStd(s.view.procs[pid], target), pid), s1.fds) && s1.fds[f] == s.fds[f]
    requires Stay(s1.fds, Redirected(s, own, pid, target, f), s3.fds)
    requires pid in s1.view.procs && SameStd(s.view, s1.view) && SameStd(Point(s1, pid, target, f).view, s3.view)
    ensures StreamsAt(s3.fds, Redirected(s, own, pid, target, f), s3.view.procs[p], p)
  {
    var b := s.view.procs[p];
    var own1 := Give(own, GetStd(s.view.procs[pid], target), pid);
    assert StdAt(Point(s1, pid, target, f).view, s3.view, p) && StdAt(s.view, s1.view, p);
    assert StreamsAt(s.fds, own, b, p);
    if p == pid {
      OwnStreams(s.fds, own, s1.fds, s3.fds, b, pid, target, f);
    } else {
      OtherStreams(s.fds, own, s1.fds, own1, s3.fds, Redirected(s, own, pid, target, f), b, p);
    }
  }

  lemma OtherStreams(fds: seq<Fd>, own: Owners, fds1: seq<Fd>, own1: Owners, fds2: seq<Fd>, own2: Owners, b: Pcb,
                     p: nat)
    requires StreamsAt(fds, own, b, p) && Stay(fds, own1, fds1) && Stay(fds1, own2, fds2) && |own| == |own1| == |own2|
    requires forall f :: 0 <= f < |own| ==> own1[f][p] >= own[f][p] && own2[f][p] >= own1[f][p]
    ensures StreamsAt(fds2, own2, b, p)
  {
    StreamsStay(fds, own, fds1, own1, b, p);
    StreamsStay(fds1, own1, fds2, own2, b, p);
  }

  lemma CountAt(fds: seq<Fd>, own: Owners, was: int, f: nat, pid: nat, g: nat)
    requires |own| == |fds| && g < |own| && IsPipeEnd(fds[g]) && f != was
    requires g == was ==> own[g][pid] >= 1
    ensures Give(own, was, pid)[g][pid] == own[g][pid] - if g == was then 1 else 0
    ensures Take(fds, Give(own, was, pid), f, pid)[g][pid] ==
            own[g][pid] - (if g == was then 1 else 0) + if g == f then 1 else 0
  {
  }

  /** An owned FD, or a terminal, survives both steps. */
  lemma StayTwice(fds: seq<Fd>, own1: Owners, fds1: seq<Fd>, own2: Owners, fds2: seq<Fd>, g: nat, pid: nat)
    requires Stay(fds, own1, fds1) && Stay(fds1, own2, fds2) && g < |fds| && fds[g].kind != NoFd
    requires IsPipeEnd(fds[g]) ==> own1[g][pid] > 0 && own2[g][pid] > 0
    ensures fds2[g].kind == fds[g].kind
  {
    if IsPipeEnd(fds[g]) { assert pid in own1[g] && pid in own2[g]; }
    assert fds1[g].kind == fds[g].kind;
  }

  /** The streams of the process whose stream was redirected. */
  lemma OwnStreams(fds: seq<Fd>, own: Owners, fds1: seq<Fd>, fds2: seq<Fd>, b: Pcb, pid: nat, target: nat, f: int)
    requires StreamsAt(fds, own, b, pid) && target <= 1 && |own| == |fds|
    requires 0 <= f < |fds| && fds[f].kind != NoFd && f != GetStd(b, target)
    requires (var own1 := Give(own, GetStd(b, target), pid);
              Stay(fds, own1, fds1) && fds1[f] == fds[f] && Stay(fds1, Take(fds, own1, f, pid), fds2))
    ensures StreamsAt(fds2, Take(fds, Give(own, GetStd(b, target), pid), f, pid), SetStd(b, target, f), pid)
  {
    var was := GetStd(b, target);
    var own1 := Give(own, was, pid);
    var own2 := Take(fds, own1, f, pid);
    NewStream(fds, own, fds1, fds2, b, pid, target, f);
    OtherStream(fds, own, fds1, fds2, b, pid, target, f);
  }

  lemma NewStream(fds: seq<Fd>, own: Owners, fds1: seq<Fd>, fds2: seq<Fd>, b: Pcb, pid: nat, target: nat, f: int)
    requires StreamsAt(fds, own, b, pid) && target <= 1 && |own| == |fds|
    requires 0 <= f < |fds| && fds[f].kind != NoFd && f != GetStd(b, target)
    requires (var own1 := Give(own, GetStd(b, target), pid);
              Stay(fds, own1, fds1) && fds1[f] == fds[f] && Stay(fds1, Take(fds, own1, f, pid), fds2))
    ensures StreamOk(fds2, Take(fds, Give(own, GetStd(b, target), pid), f, pid), f, pid,
                     Points(SetStd(b, target, f), f))
  {
    var own2 := Take(fds, Give(own, GetStd(b, target), pid), f, pid);
    if IsPipeEnd(fds[f]) {
      CountAt(fds, own, GetStd(b, target), f, pid, f);
      assert pid in own2[f];
    }
    assert fds2[f].kind == fds1[f].kind;
  }

  lemma OtherStream(fds: seq<Fd>, own: Owners, fds1: seq<Fd>, fds2: seq<Fd>, b: Pcb, pid: nat, target: nat, f: int)
    requires StreamsAt(fds, own, b, pid) && target <= 1 && |own| == |fds|
    requires 0 <= f < |fds| && fds[f].kind != NoFd && f != GetStd(b, target)
    requires (var own1 := Give(own, GetStd(b, target), pid);
              Stay(fds, own1, fds1) && fds1[f] == fds[f] && Stay(fds1, Take(fds, own1, f, pid), fds2))
    ensures var other := GetStd(b, 1 - target);
            other != f ==> StreamOk(fds2, Take(fds, Give(own, GetStd(b, target), pid), f, pid), other, pid,
                                    Points(SetStd(b, target, f), other))
  {
    var (was, other) := (GetStd(b, target), GetStd(b, 1 - target));
    var own1 := Give(own, was, pid);
    if other >= 0 && other != f {
      if IsPipeEnd(fds[other]) { CountAt(fds, own, was, f, pid, other); }
      StayTwice(fds, own1, fds1, Take(fds, own1, f, pid), fds2, other, pid);
    }
  }

  // ---------------------------------------------------------------- the events

  datatype Owned = Owned(s: Pipes, own: Owners)

  function Caller(s: Pipes): nat
    requires s.view.cur.Some?
  {
    s.view.cur.value
  }

  function DupTakes(s: Pipes, oldFd: nat, newFd: nat): bool {
    && newFd <= 1 && Valid(s, oldFd) && s.view.cur.Some? && s.view.cur.value in s.view.procs
    && GetStd(s.view.procs[s.view.cur.value], newFd) != oldFd
  }

  /** Who owns what after the event: a new pipe's ends are its creator's, and a dying process gives its streams back. */
  function OwnAfter(o: Owned, e: Event): Owners {
    match e
    case Open(name) =>
      var ends := SysPipe(o.s, name).1;
      if ends.Some? && o.s.view.cur.Some? && ends.value.0 < |o.own| && ends.value.1 < |o.own| then
        o.own[ends.value.0 := multiset{Caller(o.s)}][ends.value.1 := multiset{Caller(o.s)}]
      else o.own
    case Dup(oldFd, newFd) => if DupTakes(o.s, oldFd, newFd) then Redirected(o.s, o.own, Caller(o.s), newFd, oldFd)
                              else o.own
    case Close(f) => if o.s.view.cur.Some? then Give(o.own, f, Caller(o.s)) else o.own
    case SetUp(pid, f, target) =>
      if pid in o.s.view.procs && target <= 1 then Redirected(o.s, o.own, pid, target, f) else o.own
    case Death(pid) =>
      if pid in o.s.view.procs
      then Give(Give(o.own, o.s.view.procs[pid].stdin, pid), o.s.view.procs[pid].stdout, pid) else o.own
    case _ => o.own
  }

  function After(o: Owned, e: Event): Owned { Owned(Next(o.s, e), OwnAfter(o, e)) }

  /** p's streams are closed or go to terminals. */
  predicate PlainStreams(fds: seq<Fd>, b: Pcb) {
    && (b.stdin < 0 || (b.stdin < |fds| && fds[b.stdin].kind == Terminal))
    && (b.stdout < 0 || (b.stdout < |fds| && fds[b.stdout].kind == Terminal))
  }

  predicate StreamsLeft(s: Pipes, v: View, p: nat)
    requires p in v.procs
  {
    if p in s.view.procs then StdAt(s.view, v, p) else PlainStreams(s.fds, v.procs[p])
  }

  /** FDs are used and closed only by owners of a reference, which keep those of their streams; a stream is set up with
      a live FD that it is not yet, for a process that is not asleep at a pipe; new processes have the terminals. */
  ghost predicate Proper(o: Owned, e: Event) {
    match e
    case Open(_) => CallerRuns(o.s.view)
    case Dup(_, _) => CallerRuns(o.s.view)
    case Close(f) => CallerRuns(o.s.view) && (f < |o.s.fds| && IsPipeEnd(o.s.fds[f]) ==>
      f < |o.own| && o.own[f][Caller(o.s)] > Points(o.s.view.procs[Caller(o.s)], f))
    case SetUp(pid, f, target) => pid in o.s.view.procs && target <= 1 ==>
      && 0 <= f < |o.s.fds| && o.s.fds[f].kind != NoFd && f != GetStd(o.s.view.procs[pid], target)
      && pid !in AllWaiters(o.s.pipes)
    case Read(n, _, _) => ReadFrom(o.s, n).Some? ==> Uses(o, Real(o.s, n, FD_STDIN).value)
    case Write(n, _) => WriteTo(o.s, n).Some? ==> Uses(o, Real(o.s, n, FD_STDOUT).value)
    case Others(view) => forall p {:trigger StreamsLeft(o.s, view, p)} :: p in view.procs ==> StreamsLeft(o.s, view, p)
    case _ => true
  }

  predicate Uses(o: Owned, f: nat) { o.s.view.cur.Some? && f < |o.own| && Caller(o.s) in o.own[f] }

  ghost predicate AllAnchored(s: Pipes, own: Owners) {
    forall i: nat, x: nat {:trigger Anchored(s.fds, own, i, x)} ::
      i < |s.pipes| && x in Waiters(s.pipes[i]) ==> Anchored(s.fds, own, i, x)
  }

  ghost predicate Inv(o: Owned) {
    PipeInv(o.s) && OwnOk(o.s.fds, o.own) && StreamsOk(o.s, o.own) && AllAnchored(o.s, o.own)
  }

  /** Whoever is queued, and does not die of it, stays queued and anchored or is woken. */
  ghost predicate HoldsOn(o: Owned, e: Event, o': Owned) {
    forall i: nat, x: nat, reader: bool {:trigger Secure(o'.s, o'.own, i, x, reader)} ::
      i < |o.s.pipes| && Queued(o.s.pipes[i], x, reader) && e != Death(x) ==> Secure(o'.s, o'.own, i, x, reader)
  }

  lemma QueuedSecure(o: Owned, i: nat, x: nat, reader: bool)
    requires Inv(o) && i < |o.s.pipes| && Queued(o.s.pipes[i], x, reader)
    ensures Secure(o.s, o.own, i, x, reader) && Asleep(o.s.view.procs, x) && x in AllWaiters(o.s.pipes)
  {
    assert x in Waiters(o.s.pipes[i]) && EndsOk(o.s.pipes[i], o.s.view.procs);
    WaiterIn(o.s.pipes, i, x);
    assert Anchored(o.s.fds, o.own, i, x);
  }

  lemma OpenOwned(o: Owned, name: Option<string>)
    requires Inv(o) && Proper(o, Open(name))
    ensures var o' := After(o, Open(name)); Base(o'.s, o'.own) && StreamsOk(o'.s, o'.own) && HoldsOn(o, Open(name), o')
  {
    var s := o.s;
    PipeOpenSecure(s, o.own, name);
    var (ps, i) := PipeOpen(s.pipes, name);
    var o' := After(o, Open(name));
    if i.Some? {
      var t := s.(pipes := ps);
      CreateBothSecure(t, o.own, i.value);
      CreateBothStd(t, i.value);
      StreamsKept(s, o.own, o'.s, o.own);
      NewOwners(t, CreateBoth(t, i.value).0, o.own, o'.own, SysPipe(s, name).1, Caller(s));
    }
    forall i: nat, x: nat, reader: bool | i < |s.pipes| && Queued(s.pipes[i], x, reader)
      ensures Secure(o'.s, o'.own, i, x, reader)
    {
      QueuedSecure(o, i, x, reader);
    }
  }

  /** The creator of a pipe becomes the owner of its ends. */
  lemma NewOwners(t: Pipes, s': Pipes, own: Owners, own': Owners, ends: Option<(nat, nat)>, me: nat)
    requires Base(s', own) && StreamsOk(s', own)
    requires ends.Some? ==>
             ends.value.0 != ends.value.1 && NewEnd(t, s', own, ends.value.0) && NewEnd(t, s', own, ends.value.1)
    requires own' == if ends.Some? then own[ends.value.0 := multiset{me}][ends.value.1 := multiset{me}] else own
    ensures Base(s', own') && StreamsOk(s', own')
    ensures forall i, x, reader :: Secure(s', own, i, x, reader) ==> Secure(s', own', i, x, reader)
  {
    forall f | 0 <= f < |s'.fds| ensures OwnAt(s'.fds[f], own'[f]) { assert OwnAt(s'.fds[f], own[f]); }
    forall p | p in s'.view.procs ensures StreamsAt(s'.fds, own', s'.view.procs[p], p) {
      assert StreamsAt(s'.fds, own, s'.view.procs[p], p);
    }
  }

  /** The one that acts is no sleeper. */
  lemma ActorAwake(o: Owned, i: nat, x: nat, reader: bool)
    requires Inv(o) && CallerRuns(o.s.view) && i < |o.s.pipes| && Queued(o.s.pipes[i], x, reader)
    ensures x != Caller(o.s)
  {
    QueuedSecure(o, i, x, reader);
  }

  lemma RedirectOwned(o: Owned, e: Event, pid: nat, target: nat, f: int)
    requires Inv(o) && pid in o.s.view.procs && target <= 1 && pid !in AllWaiters(o.s.pipes)
    requires 0 <= f < |o.s.fds| && o.s.fds[f].kind != NoFd && f != GetStd(o.s.view.procs[pid], target)
    ensures var o' := Owned(Redirect(o.s, pid, target, f), Redirected(o.s, o.own, pid, target, f));
            Base(o'.s, o'.own) && StreamsOk(o'.s, o'.own) && HoldsOn(o, e, o')
  {
    assert StreamsAt(o.s.fds, o.own, o.s.view.procs[pid], pid);
    RedirectSecure(o.s, o.own, pid, target, f);
    RedirectStreams(o.s, o.own, pid, target, f);
    var o' := Owned(Redirect(o.s, pid, target, f), Redirected(o.s, o.own, pid, target, f));
    forall i: nat, x: nat, reader: bool | i < |o.s.pipes| && Queued(o.s.pipes[i], x, reader)
      ensures Secure(o'.s, o'.own, i, x, reader)
    {
      QueuedSecure(o, i, x, reader);
    }
  }

  lemma CloseOwned(o: Owned, f: nat)
    requires Inv(o) && Proper(o, Close(f))
    ensures var o' := After(o, Close(f)); Base(o'.s, o'.own) && StreamsOk(o'.s, o'.own) && HoldsOn(o, Close(f), o')
  {
    var me := Caller(o.s);
    var o' := After(o, Close(f));
    if f < |o.s.fds| {
      assert OwnAt(o.s.fds[f], o.own[f]);
      if IsPipeEnd(o.s.fds[f]) { GiveOk(o.s.fds, o.own, f, me); }
    }
    DecrefSecure(o.s, o.own, o'.own, f);
    RefsStd(o.s, f);
    CloseStreams(o, f);
    forall i: nat, x: nat, reader: bool | i < |o.s.pipes| && Queued(o.s.pipes[i], x, reader)
      ensures Secure(o'.s, o'.own, i, x, reader)
    {
      QueuedSecure(o, i, x, reader);
      ActorAwake(o, i, x, reader);
    }
  }

  /** The caller keeps the references of its streams. */
  lemma CloseStreams(o: Owned, f: nat)
    requires Inv(o) && Proper(o, Close(f)) && SameStd(o.s.view, Decref(o.s, f).view)
    requires Stay(o.s.fds, Give(o.own, f, Caller(o.s)), Decref(o.s, f).fds)
    ensures StreamsOk(Decref(o.s, f), Give(o.own, f, Caller(o.s)))
  {
    var (s', own') := (Decref(o.s, f), Give(o.own, f, Caller(o.s)));
    forall p | p in s'.view.procs ensures StreamsAt(s'.fds, own', s'.view.procs[p], p) {
      var b := o.s.view.procs[p];
      assert StdAt(o.s.view, s'.view, p) && StreamsAt(o.s.fds, o.own, b, p);
      StreamStays(o.s.fds, o.own, s'.fds, own', b.stdin, p, Points(b, b.stdin));
      StreamStays(o.s.fds, o.own, s'.fds, own', b.stdout, p, Points(b, b.stdout));
    }
  }

  lemma BirthOwned(o: Owned)
    requires Inv(o)
    ensures var o' := After(o, Birth); Base(o'.s, o'.own) && StreamsOk(o'.s, o'.own) && HoldsOn(o, Birth, o')
  {
    var s1 := Incref(o.s, FD_STDIN);
    IncrefSecure(o.s, o.own, FD_STDIN, None);
    IncrefSecure(s1, o.own, FD_STDOUT, None);
    RefsStd(o.s, FD_STDIN);
    RefsStd(s1, FD_STDOUT);
    SameStdTrans(o.s.view, s1.view, Incref(s1, FD_STDOUT).view);
    StayTrans(o.s.fds, s1.fds, Incref(s1, FD_STDOUT).fds, o.own);
    StreamsKept(o.s, o.own, After(o, Birth).s, o.own);
    forall i: nat, x: nat, reader: bool | i < |o.s.pipes| && Queued(o.s.pipes[i], x, reader)
      ensures Secure(After(o, Birth).s, o.own, i, x, reader)
    {
      QueuedSecure(o, i, x, reader);
    }
  }

  lemma OthersOwned(o: Owned, v: View)
    requires Inv(o) && Enabled(o.s, Others(v)) && Proper(o, Others(v))
    ensures var o' := After(o, Others(v)); Base(o'.s, o'.own) && StreamsOk(o'.s, o'.own) && HoldsOn(o, Others(v), o')
  {
    OthersKeep(o.s, v);
    forall p | p in v.procs ensures StreamsAt(o.s.fds, o.own, v.procs[p], p) {
      assert StreamsLeft(o.s, v, p);
      if p in o.s.view.procs { assert StreamsAt(o.s.fds, o.own, o.s.view.procs[p], p); }
    }
    forall i: nat, x: nat, reader: bool | i < |o.s.pipes| && Queued(o.s.pipes[i], x, reader)
      ensures Secure(o.s.(view := v), o.own, i, x, reader)
    {
      QueuedSecure(o, i, x, reader);
    }
  }

  lemma CleanupSecure(s: Pipes, own: Owners, pid: nat)
    requires Base(s, own)
    ensures var s' := PipeCleanup(s, pid);
            && Base(s', own)
            && forall i, x, reader :: x != pid && Secure(s, own, i, x, reader) ==> Secure(s', own, i, x, reader)
  {
    UnusedEmpty(s);
    CleanupCalm(s, pid);
    CleanupRefs(s, pid);
    forall i: nat, x: nat, reader: bool | x != pid && Secure(s, own, i, x, reader)
      ensures Secure(PipeCleanup(s, pid), own, i, x, reader)
    {
      SemaphoreTheorems.RemoveIs(s.pipes[i].readers, pid);
      SemaphoreTheorems.RemoveIs(s.pipes[i].writers, pid);
    }
  }

  /** Both streams of a process given back. */
  lemma DropBothSecure(s: Pipes, own: Owners, b: Pcb, pid: nat)
    requires Base(s, own) && StreamsAt(s.fds, own, b, pid)
    ensures var s' := DropBoth(s, b.stdin, b.stdout);
            var own' := Give(Give(own, b.stdin, pid), b.stdout, pid);
            && Base(s', own') && SameStd(s.view, s'.view)
            && (forall i, x, reader :: x != pid && Secure(s, own, i, x, reader) ==> Secure(s', own', i, x, reader))
            && forall p, c {:trigger StreamsAt(s.fds, own, c, p)} ::
                 p != pid && StreamsAt(s.fds, own, c, p) ==> StreamsAt(s'.fds, own', c, p)
  {
    ReleaseOne(s, own, pid, b.stdin);
    var s1 := if b.stdin >= 0 then Decref(s, b.stdin) else s;
    var own1 := Give(own, b.stdin, pid);
    SecondStream(s.fds, own, s1.fds, b, pid);
    ReleaseOne(s1, own1, pid, b.stdout);
    if b.stdin >= 0 { RefsStd(s, b.stdin); }
    if b.stdout >= 0 { RefsStd(s1, b.stdout); }
    SameStdTrans(s.view, s1.view, DropBoth(s, b.stdin, b.stdout).view);
    forall p, c | p != pid && StreamsAt(s.fds, own, c, p)
      ensures StreamsAt(DropBoth(s, b.stdin, b.stdout).fds, Give(own1, b.stdout, pid), c, p)
    {
      OtherStreams(s.fds, own, s1.fds, own1, DropBoth(s, b.stdin, b.stdout).fds, Give(own1, b.stdout, pid), c, p);
    }
  }

  /** The second stream is still there when the first has been given back, even if both are the same FD. */
  lemma SecondStream(fds: seq<Fd>, own: Owners, fds1: seq<Fd>, b: Pcb, pid: nat)
    requires StreamsAt(fds, own, b, pid) && Stay(fds, Give(own, b.stdin, pid), fds1)
    ensures StreamOk(fds1, Give(own, b.stdin, pid), b.stdout, pid, 1)
  {
    StreamStays(fds, own, fds1, Give(own, b.stdin, pid), b.stdout, pid, 1);
  }

  lemma DeathOwned(o: Owned, pid: nat)
    requires Inv(o)
    ensures var o' := After(o, Death(pid)); Base(o'.s, o'.own) && StreamsOk(o'.s, o'.own) && HoldsOn(o, Death(pid), o')
  {
    var s1 := PipeCleanup(o.s, pid);
    var o' := After(o, Death(pid));
    CleanupSecure(o.s, o.own, pid);
    if pid in s1.view.procs {
      var b := s1.view.procs[pid];
      assert StreamsAt(o.s.fds, o.own, b, pid);
      DropBothSecure(s1, o.own, b, pid);
      var s2 := DropBoth(s1, b.stdin, b.stdout);
      PointSecure(s2, o'.own, pid, 0, -1);
      PointSecure(Point(s2, pid, 0, -1), o'.own, pid, 1, -1);
      forall p | p in o'.s.view.procs ensures StreamsAt(o'.s.fds, o'.own, o'.s.view.procs[p], p) {
        assert StdAt(s1.view, s2.view, p) && StreamsAt(o.s.fds, o.own, o.s.view.procs[p], p);
      }
    }
    forall i: nat, x: nat, reader: bool | i < |o.s.pipes| && Queued(o.s.pipes[i], x, reader) && Death(pid) != Death(x)
      ensures Secure(o'.s, o'.own, i, x, reader)
    {
      QueuedSecure(o, i, x, reader);
    }
  }

  // ---------------------------------------------------------------- reading and writing

  lemma ReadOwned(o: Owned, n: nat, count: nat, typed: Option<seq<Byte>>)
    requires Inv(o) && CallerRuns(o.s.view)
    ensures var e := Read(n, count, typed);
            var o' := After(o, e);
            Base(o'.s, o'.own) && StreamsOk(o'.s, o'.own) && HoldsOn(o, e, o')
  {
    var s := o.s;
    var o' := After(o, Read(n, count, typed));
    ReadQueues(s, n, count, typed);
    ReadRefs(s, n, count, typed);
    ReadStd(s, n, count, typed);
    StreamsKept(s, o.own, o'.s, o.own);
    forall i: nat, x: nat, reader: bool | i < |s.pipes| && Queued(s.pipes[i], x, reader)
      ensures Secure(o'.s, o.own, i, x, reader)
    {
      QueuedSecure(o, i, x, reader);
      assert EndsOk(s.pipes[i], s.view.procs);
      ReadKeepsSleeper(s.pipes[i], s.view, count, x, reader);
    }
  }

  lemma ReadStd(s: Pipes, n: nat, count: nat, typed: Option<seq<Byte>>)
    ensures SameStd(s.view, SysRead(s, n, count, typed).0.view)
  {
  }

  lemma WriteOwned(o: Owned, n: nat, data: seq<Byte>)
    requires Inv(o) && CallerRuns(o.s.view)
    ensures var e := Write(n, data);
            var o' := After(o, e);
            Base(o'.s, o'.own) && StreamsOk(o'.s, o'.own) && HoldsOn(o, e, o')
  {
    var s := o.s;
    var o' := After(o, Write(n, data));
    WriteQueues(s, n, data);
    WriteRefs(s, n, data);
    WriteStd(s, n, data);
    StreamsKept(s, o.own, o'.s, o.own);
    forall i: nat, x: nat, reader: bool | i < |s.pipes| && Queued(s.pipes[i], x, reader)
      ensures Secure(o'.s, o.own, i, x, reader)
    {
      QueuedSecure(o, i, x, reader);
      assert EndsOk(s.pipes[i], s.view.procs);
      WriteKeepsSleeper(s.pipes[i], s.view, data, x, reader);
    }
  }

  lemma WriteStd(s: Pipes, n: nat, data: seq<Byte>)
    ensures SameStd(s.view, SysWrite(s, n, data).0.view)
  {
  }

  // ---------------------------------------------------------------- every step

  lemma StepOwned(o: Owned, e: Event)
    requires Inv(o) && Enabled(o.s, e) && Proper(o, e)
    ensures var o' := After(o, e); Base(o'.s, o'.own) && StreamsOk(o'.s, o'.own) && HoldsOn(o, e, o')
  {
    match e
    case Open(name) => OpenOwned(o, name);
    case Dup(oldFd, newFd) =>
      if DupTakes(o.s, oldFd, newFd) {
        CallerNotQueued(o);
        RedirectOwned(o, e, Caller(o.s), newFd, oldFd);
      } else {
        NothingOwned(o, e);
      }
    case Close(f) => CloseOwned(o, f);
    case SetUp(pid, f, target) =>
      if pid in o.s.view.procs && target <= 1 { RedirectOwned(o, e, pid, target, f); } else { NothingOwned(o, e); }
    case Read(n, count, typed) => ReadOwned(o, n, count, typed);
    case Write(n, data) => WriteOwned(o, n, data);
    case Birth => BirthOwned(o);
    case Death(pid) => DeathOwned(o, pid);
    case Others(view) => OthersOwned(o, view);
  }

  lemma CallerNotQueued(o: Owned)
    requires Inv(o) && CallerRuns(o.s.view)
    ensures Caller(o.s) !in AllWaiters(o.s.pipes)
  {
    if Caller(o.s) in AllWaiters(o.s.pipes) {
      var i: nat :| i < |o.s.pipes| && Caller(o.s) in Waiters(o.s.pipes[i]);
      QueuedSecure(o, i, Caller(o.s), Caller(o.s) in o.s.pipes[i].readers);
    }
  }

  lemma NothingOwned(o: Owned, e: Event)
    requires Inv(o)
    ensures Base(o.s, o.own) && HoldsOn(o, e, o)
  {
    forall i: nat, x: nat, reader: bool | i < |o.s.pipes| && Queued(o.s.pipes[i], x, reader)
      ensures Secure(o.s, o.own, i, x, reader)
    {
      QueuedSecure(o, i, x, reader);
    }
  }

  /** Only a reader or a writer joins a queue: that of the pipe it uses. */
  lemma NewSleeper(o: Owned, e: Event, i: nat, x: nat)
    requires Inv(o) && Enabled(o.s, e) && Proper(o, e) && i < |After(o, e).s.pipes|
    requires x in Waiters(After(o, e).s.pipes[i])
    requires QueueInv(After(o, e).s.pipes, After(o, e).s.view.procs)
    requires !(exists j: nat :: j < |o.s.pipes| && x in Waiters(o.s.pipes[j]))
    ensures Anchored(After(o, e).s.fds, After(o, e).own, i, x)
  {
    var s' := After(o, e).s;
    WaiterIn(s'.pipes, i, x);
    match e
    case Read(n, count, typed) =>
      ReadStep(o.s, n, count, typed);
      assert Some(i) == ReadFrom(o.s, n);
      PushedReader(o.s.pipes[i], o.s.view, count, x);
      assert Names(o.s.fds[Real(o.s, n, FD_STDIN).value], i);
    case Write(n, data) =>
      WriteStep(o.s, n, data);
      assert Some(i) == WriteTo(o.s, n);
      PushedWriter(o.s.pipes[i], o.s.view, data, x);
      assert Names(o.s.fds[Real(o.s, n, FD_STDOUT).value], i);
    case _ => NoNewSleeper(o, e);
  }

  lemma PushedReader(p: Pipe, v: View, n: nat, x: nat)
    requires x !in Waiters(p) && x in Waiters(ReadPipe(p, v, n).0)
    ensures v.cur == Some(x)
  {
  }

  lemma PushedWriter(p: Pipe, v: View, data: seq<Byte>, x: nat)
    requires x !in Waiters(p) && x in Waiters(WritePipe(p, v, data).0)
    ensures v.cur == Some(x)
  {
  }

  lemma NoNewSleeper(o: Owned, e: Event)
    requires Inv(o) && Enabled(o.s, e) && !e.Read? && !e.Write?
    ensures AllWaiters(Next(o.s, e).pipes) <= AllWaiters(o.s.pipes)
    ensures forall pid :: e == Death(pid) ==> pid !in AllWaiters(Next(o.s, e).pipes)
  {
    var s := o.s;
    CalmSelf(s);
    match e
    case Open(name) => SysPipeCalm(s, name);
    case Dup(oldFd, newFd) => if Dup2(s, oldFd, newFd).0 != s { RedirectCalm(s, s.view.cur.value, newFd, oldFd); }
    case Close(f) => DecrefCalm(s, f);
    case SetUp(pid, f, target) => if pid in s.view.procs { RedirectCalm(s, pid, target, f); }
    case Birth =>
      IncrefCalm(s, FD_STDIN);
      IncrefCalm(Incref(s, FD_STDIN), FD_STDOUT);
    case Death(pid) =>
      UnusedEmpty(s);
      CleanupCalm(s, pid);
      ReleaseCalm(PipeCleanup(s, pid), pid);
    case Others(view) =>
  }

  /** Every call and every death keeps the ownership of FDs and lets nobody fall out of a queue. */
  lemma StepHolds(o: Owned, e: Event)
    requires Inv(o) && Enabled(o.s, e) && Proper(o, e)
    ensures Inv(After(o, e)) && HoldsOn(o, e, After(o, e))
  {
    var o' := After(o, e);
    StepOwned(o, e);
    RefsStep(o.s, e);
    QueuesStep(o.s, e);
    forall i: nat, x: nat | i < |o'.s.pipes| && x in Waiters(o'.s.pipes[i]) ensures Anchored(o'.s.fds, o'.own, i, x) {
      if exists j: nat :: j < |o.s.pipes| && x in Waiters(o.s.pipes[j]) {
        var j: nat :| j < |o.s.pipes| && x in Waiters(o.s.pipes[j]);
        OldSleeper(o, e, i, j, x);
      } else {
        NewSleeper(o, e, i, x);
      }
    }
  }

  lemma OldSleeper(o: Owned, e: Event, i: nat, j: nat, x: nat)
    requires Inv(o) && Enabled(o.s, e) && Proper(o, e) && HoldsOn(o, e, After(o, e))
    requires PipeInv(After(o, e).s) && i < |After(o, e).s.pipes| && x in Waiters(After(o, e).s.pipes[i])
    requires j < |o.s.pipes| && x in Waiters(o.s.pipes[j])
    ensures Anchored(After(o, e).s.fds, After(o, e).own, i, x)
  {
    var o' := After(o, e);
    var reader := x in o.s.pipes[j].readers;
    WaiterIn(o'.s.pipes, i, x);
    if !e.Read? && !e.Write? { NoNewSleeper(o, e); }
    assert Queued(o.s.pipes[j], x, reader) && e != Death(x);
    assert Secure(o'.s, o'.own, j, x, reader);
    assert EndsOk(o'.s.pipes[i], o'.s.view.procs) && Asleep(o'.s.view.procs, x);
    assert i != j ==> Apart(o'.s.pipes, i, j, x);
  }

  // ---------------------------------------------------------------- runs

  ghost predicate Runs(o: Owned, es: seq<Event>)
    decreases |es|
  {
    es == [] || (Enabled(o.s, es[0]) && Proper(o, es[0]) && Runs(After(o, es[0]), es[1..]))
  }

  ghost function End(o: Owned, es: seq<Event>): Owned
    decreases |es|
  {
    if es == [] then o else End(After(o, es[0]), es[1..])
  }

  /** No pipes yet, only terminals, and everybody's streams at terminals. */
  ghost predicate Initial(o: Owned) {
    && |o.s.pipes| == MAX_PIPES && (forall i :: 0 <= i < |o.s.pipes| ==> o.s.pipes[i] == Closed)
    && (forall f :: 0 <= f < |o.s.fds| ==> !IsPipeEnd(o.s.fds[f]))
    && |o.own| == |o.s.fds| && (forall f :: 0 <= f < |o.own| ==> o.own[f] == multiset{})
    && forall p :: p in o.s.view.procs ==> PlainStreams(o.s.fds, o.s.view.procs[p])
  }

  lemma InitialHolds(o: Owned)
    requires Initial(o)
    ensures Inv(o)
  {
    PipeStreams.InitialInv(Traced(o.s, seq(|o.s.pipes|, _ => Log(0, [], []))));
  }

  lemma {:induction false} RunHolds(o: Owned, es: seq<Event>)
    requires Inv(o) && Runs(o, es)
    ensures Inv(End(o, es))
    decreases |es|
  {
    if es != [] {
      StepHolds(o, es[0]);
      RunHolds(After(o, es[0]), es[1..]);
    }
  }

  /** x is not killed, and not woken. */
  ghost predicate Undisturbed(o: Owned, es: seq<Event>, x: nat)
    decreases |es|
  {
    es == [] || (es[0] != Death(x) && !IsAwake(After(o, es[0]).s.view, x) && Undisturbed(After(o, es[0]), es[1..], x))
  }

  /** In every run in which FDs are used by their owners: at every event a process queued at a pipe stays in that queue
      or is woken, unless it dies, and while it is queued the pipe stays in use with an end that it owns. */
  lemma SleepersHoldOn(o: Owned, es: seq<Event>, e: Event, i: nat, x: nat, reader: bool)
    requires Initial(o) && Runs(o, es) && i < |End(o, es).s.pipes| && Queued(End(o, es).s.pipes[i], x, reader)
    requires Enabled(End(o, es).s, e) && Proper(End(o, es), e) && e != Death(x)
    ensures var t := End(o, es);
            var t' := After(t, e);
            && t.s.pipes[i].inUse && Anchored(t.s.fds, t.own, i, x)
            && i < |t'.s.pipes| && (Queued(t'.s.pipes[i], x, reader) || IsAwake(t'.s.view, x))
  {
    InitialHolds(o);
    RunHolds(o, es);
    var t := End(o, es);
    QueuedSecure(t, i, x, reader);
    var f :| 0 <= f < |t.s.fds| && f < |t.own| && Names(t.s.fds[f], i) && x in t.own[f];
    assert FdOk(t.s.fds[f], t.s.pipes);
    StepHolds(t, e);
    assert Secure(After(t, e).s, After(t, e).own, i, x, reader);
  }

  /** Over any stretch, too: until it is woken or killed it sleeps on in the same queue of the same pipe. */
  lemma {:induction false} SleepsOn(o: Owned, es: seq<Event>, i: nat, x: nat, reader: bool)
    requires Inv(o) && Runs(o, es) && i < |o.s.pipes| && Queued(o.s.pipes[i], x, reader) && Undisturbed(o, es, x)
    ensures i < |End(o, es).s.pipes| && Queued(End(o, es).s.pipes[i], x, reader)
    decreases |es|
  {
    if es != [] {
      StepHolds(o, es[0]);
      assert Secure(After(o, es[0]).s, After(o, es[0]).own, i, x, reader);
      SleepsOn(After(o, es[0]), es[1..], i, x, reader);
    }
  }
}
