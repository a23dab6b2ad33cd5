/**
 The wait queues of pipes: a process waits in one queue at most, once, and is asleep there; every operation wakes only
 processes it takes out of a queue, or puts the caller to sleep in one.
 */
module PipeQueues {
  import opened Sequences
  import opened Processes
  import opened PipeSpec
  import SemaphoreSpec
  import SemaphoreTheorems

  // ---------------------------------------------------------------- what happens to the processes

  /** The PCB without its standard streams. */
  function Bare(b: Pcb): Pcb { b.(stdin := 0, stdout := 0) }

  /** Nothing but its streams changed, or it was woken, waiting for no child. */
  predicate WakesPcb(a: Pcb, b: Pcb, may: bool) {
    || Bare(b) == Bare(a)
    || (may && a.state == Blocked && a.waitingFor == 0 && Bare(b) == Bare(a).(state := State.Ready, waitTicks := 0))
  }

  predicate WakesAt(v: View, v': View, q: set<nat>, p: nat)
    requires p in v.procs && p in v'.procs
  {
    WakesPcb(v.procs[p], v'.procs[p], p in q)
  }

  /** Only processes of q may have been woken, and a switch is asked for just if one of them has a higher priority than
      the current process. */
  ghost predicate Wakes(v: View, v': View, q: set<nat>) {
    && v'.cur == v.cur && (v'.force <==> v.force || Boosted(v, v')) && v'.procs.Keys == v.procs.Keys
    && forall p {:trigger WakesAt(v, v', q, p)} :: p in v.procs && p in v'.procs ==> WakesAt(v, v', q, p)
  }

  lemma WakesTrans(v: View, v1: View, v2: View, q1: set<nat>, q2: set<nat>, q: set<nat>)
    requires Wakes(v, v1, q1) && Wakes(v1, v2, q2) && q1 <= q && q2 <= q
    ensures Wakes(v, v2, q)
  {
    forall p | p in v.procs && p in v2.procs ensures WakesAt(v, v2, q, p) {
      assert WakesAt(v, v1, q1, p) && WakesAt(v1, v2, q2, p);
    }
    WakesOnly(v, v1, q1);
    WakesOnly(v1, v2, q2);
    BoostedTrans(v, v1, v2);
  }

  lemma WakesOnly(v: View, v': View, q: set<nat>)
    requires Wakes(v, v', q)
    ensures OnlyWoken(v, v')
  {
    forall p | p in v.procs && p in v'.procs ensures AtMostWoken(v, v', p) { assert WakesAt(v, v', q, p); }
  }

  lemma WakesNone(v: View, q: set<nat>)
    ensures Wakes(v, v, q)
  {
  }

  predicate Sleepy(ps: Procs, p: nat) {
    p in ps && ps[p].waitingFor == 0
  }

  predicate Asleep(ps: Procs, p: nat) {
    p in ps && ps[p].state == Blocked && ps[p].waitingFor == 0
  }

  lemma UnblockWakes(v: View, p: nat)
    requires Sleepy(v.procs, p)
    ensures Wakes(v, ProcessUnblock(v, p), {p})
  {
    var v' := ProcessUnblock(v, p);
    forall x | x in v.procs && x in v'.procs ensures WakesAt(v, v', {p}, x) { }
    assert Boosted(v, v') <==> WokenAbove(v, v', p);
  }

  lemma {:induction false} UnblockAllWakes(v: View, q: seq<nat>)
    requires forall p :: p in q ==> Sleepy(v.procs, p)
    ensures Wakes(v, UnblockAll(v, q), Elems(q))
    decreases |q|
  {
    if q == [] {
      WakesNone(v, Elems(q));
    } else {
      var v1 := ProcessUnblock(v, q[0]);
      UnblockWakes(v, q[0]);
      forall p | p in q[1..] ensures Sleepy(v1.procs, p) {
        assert p in q && Sleepy(v.procs, p);
        assert WakesAt(v, v1, {q[0]}, p);
      }
      UnblockAllWakes(v1, q[1..]);
      WakesTrans(v, v1, UnblockAll(v, q), {q[0]}, Elems(q[1..]), Elems(q));
    }
  }

  // ---------------------------------------------------------------- one pipe

  ghost function Elems(q: seq<nat>): set<nat> {
    set p | p in q
  }

  ghost function Waiters(p: Pipe): set<nat> {
    Elems(p.readers) + Elems(p.writers)
  }

  ghost predicate Shape(p: Pipe) {
    NoDup(p.readers) && NoDup(p.writers) && Elems(p.readers) !! Elems(p.writers)
  }

  ghost predicate AllAsleep(ps: Procs, q: set<nat>) {
    forall x {:trigger Asleep(ps, x)} :: x in q ==> Asleep(ps, x)
  }

  /** Some left the queues of p and were woken. */
  ghost predicate Settled(p: Pipe, v: View, r: (Pipe, View)) {
    Shape(r.0) && Waiters(r.0) <= Waiters(p) && Wakes(v, r.1, Waiters(p) - Waiters(r.0))
  }

  lemma SettledTrans(p: Pipe, v: View, r1: (Pipe, View), r2: (Pipe, View))
    requires Settled(p, v, r1) && Settled(r1.0, r1.1, r2)
    ensures Settled(p, v, r2)
  {
    WakesTrans(v, r1.1, r2.1, Waiters(p) - Waiters(r1.0), Waiters(r1.0) - Waiters(r2.0), Waiters(p) - Waiters(r2.0));
  }

  /** Only counts, contents and flags changed. */
  lemma SameQueues(p: Pipe, v: View, p': Pipe)
    requires Shape(p) && p'.readers == p.readers && p'.writers == p.writers
    ensures Settled(p, v, (p', v))
  {
    WakesNone(v, {});
    assert Waiters(p) - Waiters(p') == {};
  }

  lemma HeadElems(q: seq<nat>)
    requires q != [] && NoDup(q)
    ensures NoDup(q[1..]) && Elems(q[1..]) == Elems(q) - {q[0]} && q[0] in Elems(q)
  {
  }

  lemma WakeReaderSettles(p: Pipe, v: View)
    requires Shape(p) && AllAsleep(v.procs, Waiters(p))
    ensures Settled(p, v, WakeReader(p, v))
  {
    if p.readers == [] {
      SameQueues(p, v, p);
    } else {
      HeadElems(p.readers);
      assert Asleep(v.procs, p.readers[0]);
      UnblockWakes(v, p.readers[0]);
      assert Waiters(p) - Waiters(WakeReader(p, v).0) == {p.readers[0]};
    }
  }

  lemma WakeWriterSettles(p: Pipe, v: View)
    requires Shape(p) && AllAsleep(v.procs, Waiters(p))
    ensures Settled(p, v, WakeWriter(p, v))
  {
    if p.writers == [] {
      SameQueues(p, v, p);
    } else {
      HeadElems(p.writers);
      assert Asleep(v.procs, p.writers[0]);
      UnblockWakes(v, p.writers[0]);
      assert Waiters(p) - Waiters(WakeWriter(p, v).0) == {p.writers[0]};
    }
  }

  lemma WakeAllReadersSettles(p: Pipe, v: View)
    requires Shape(p) && AllAsleep(v.procs, Waiters(p))
    ensures Settled(p, v, WakeAllReaders(p, v))
  {
    forall x | x in p.readers ensures Sleepy(v.procs, x) { assert Asleep(v.procs, x); }
    UnblockAllWakes(v, p.readers);
    assert Waiters(p) - Waiters(WakeAllReaders(p, v).0) == Elems(p.readers);
  }

  lemma WakeAllWritersSettles(p: Pipe, v: View)
    requires Shape(p) && AllAsleep(v.procs, Waiters(p))
    ensures Settled(p, v, WakeAllWriters(p, v))
  {
    forall x | x in p.writers ensures Sleepy(v.procs, x) { assert Asleep(v.procs, x); }
    UnblockAllWakes(v, p.writers);
    assert Waiters(p) - Waiters(WakeAllWriters(p, v).0) == Elems(p.writers);
  }

  /** A pipe that is recycled drops its queues. */
  lemma MaybeFreeSettles(p: Pipe, v: View)
    requires Shape(p)
    ensures Settled(p, v, (MaybeFree(p), v))
  {
    WakesNone(v, Waiters(p) - Waiters(MaybeFree(p)));
  }

  lemma OpenReadSettles(p: Pipe, v: View)
    requires Shape(p) && AllAsleep(v.procs, Waiters(p))
    ensures Settled(p, v, OpenRead(p, v))
  {
    var p1 := p.(openRead := p.openRead + 1);
    SameQueues(p, v, p1);
    if p1.named && p1.writers != [] {
      WakeAllWritersSettles(p1, v);
      SettledTrans(p, v, (p1, v), OpenRead(p, v));
    }
  }

  lemma OpenWriteSettles(p: Pipe, v: View)
    requires Shape(p) && AllAsleep(v.procs, Waiters(p))
    ensures Settled(p, v, OpenWrite(p, v))
  {
    var p1 := p.(openWrite := p.openWrite + 1);
    SameQueues(p, v, p1);
    if p1.named {
      var p2 := p1.(eof := false);
      SameQueues(p, v, p2);
      WakeAllReadersSettles(p2, v);
      SettledTrans(p, v, (p2, v), OpenWrite(p, v));
    }
  }

  lemma CloseReadSettles(p: Pipe, v: View)
    requires Shape(p) && AllAsleep(v.procs, Waiters(p))
    ensures Settled(p, v, CloseRead(p, v))
  {
    var p1 := p.(openRead := Less(p.openRead));
    SameQueues(p, v, p1);
    var r := if p1.openRead == 0 then WakeAllWriters(p1, v) else (p1, v);
    if p1.openRead == 0 {
      WakeAllWritersSettles(p1, v);
      SettledTrans(p, v, (p1, v), r);
    }
    MaybeFreeSettles(r.0, r.1);
    SettledTrans(p, v, r, CloseRead(p, v));
  }

  lemma CloseWriteSettles(p: Pipe, v: View)
    requires Shape(p) && AllAsleep(v.procs, Waiters(p))
    ensures Settled(p, v, CloseWrite(p, v))
  {
    var p1 := p.(openWrite := Less(p.openWrite));
    SameQueues(p, v, p1);
    var p2 := p1.(eof := p1.eof || (p1.named && p1.opens >= 2));
    SameQueues(p, v, p2);
    var r := if p1.openWrite == 0 then WakeAllReaders(p2, v) else (p1, v);
    if p1.openWrite == 0 {
      WakeAllReadersSettles(p2, v);
      SettledTrans(p, v, (p2, v), r);
    }
    MaybeFreeSettles(r.0, r.1);
    SettledTrans(p, v, r, CloseWrite(p, v));
  }

  // ---------------------------------------------------------------- whom opening and closing wake

  predicate IsAwake(v: View, x: nat) { x in v.procs && v.procs[x].state == State.Ready }

  /** Nothing but waking happens to x in a series of wake-ups, and waking to all of q that are asleep. */
  lemma {:induction false} UnblockAllWakesUp(v: View, q: seq<nat>, x: nat)
    requires IsAwake(v, x) || (Asleep(v.procs, x) && x in q)
    ensures IsAwake(UnblockAll(v, q), x)
    decreases |q|
  {
    if q != [] { UnblockAllWakesUp(ProcessUnblock(v, q[0]), q[1..], x); }
  }

  lemma WakesAll(v: View, q: seq<nat>, x: nat)
    requires (forall y :: y in q ==> Asleep(v.procs, y)) && Asleep(v.procs, x)
    ensures if x in q then IsAwake(UnblockAll(v, q), x) else Asleep(UnblockAll(v, q).procs, x)
  {
    if x in q {
      UnblockAllWakesUp(v, q, x);
    } else {
      forall y | y in q ensures Sleepy(v.procs, y) { assert Asleep(v.procs, y); }
      UnblockAllWakes(v, q);
      assert WakesAt(v, UnblockAll(v, q), Elems(q), x);
    }
  }

  /** Opening a read end of a named pipe wakes all its writers, and else nobody; who is not woken stays queued. */
  lemma OpenReadWakes(p: Pipe, v: View, x: nat)
    requires EndsOk(p, v.procs) && x in Waiters(p)
    ensures var (p', v') := OpenRead(p, v);
            if p.named && x in p.writers then IsAwake(v', x) && x !in Waiters(p')
            else Asleep(v'.procs, x) && x in Waiters(p')
  {
    assert forall y :: y in p.writers ==> y in Waiters(p);
    assert forall y :: y in Waiters(p) ==> Asleep(v.procs, y);
    WakesAll(v, p.writers, x);
  }

  /** Opening a write end of a named pipe wakes all its readers. */
  lemma OpenWriteWakes(p: Pipe, v: View, x: nat)
    requires EndsOk(p, v.procs) && x in Waiters(p)
    ensures var (p', v') := OpenWrite(p, v);
            if p.named && x in p.readers then IsAwake(v', x) && x !in Waiters(p')
            else Asleep(v'.procs, x) && x in Waiters(p')
  {
    assert forall y :: y in p.readers ==> y in Waiters(p);
    assert forall y :: y in Waiters(p) ==> Asleep(v.procs, y);
    WakesAll(v, p.readers, x);
  }

  /** Closing the last read end wakes all writers; and the readers, if there is no write end either, are dropped with
      the pipe, asleep. Nothing else happens to anybody who waits. */
  lemma CloseReadWakes(p: Pipe, v: View, x: nat)
    requires EndsOk(p, v.procs) && x in Waiters(p)
    ensures var (p', v') := CloseRead(p, v);
            && (if p.openRead <= 1 && x in p.writers then IsAwake(v', x) else Asleep(v'.procs, x))
            && (x in Waiters(p') <==> p.openRead > 1 || (x in p.readers && p.openWrite > 0))
  {
    assert forall y :: y in p.writers ==> y in Waiters(p);
    assert forall y :: y in Waiters(p) ==> Asleep(v.procs, y);
    WakesAll(v, p.writers, x);
  }

  /** Closing the last write end wakes all readers; the writers, if there is no read end either, are dropped. */
  lemma CloseWriteWakes(p: Pipe, v: View, x: nat)
    requires EndsOk(p, v.procs) && x in Waiters(p)
    ensures var (p', v') := CloseWrite(p, v);
            && (if p.openWrite <= 1 && x in p.readers then IsAwake(v', x) else Asleep(v'.procs, x))
            && (x in Waiters(p') <==> p.openWrite > 1 || (x in p.writers && p.openRead > 0))
  {
    assert forall y :: y in p.readers ==> y in Waiters(p);
    assert forall y :: y in Waiters(p) ==> Asleep(v.procs, y);
    WakesAll(v, p.readers, x);
  }

  // ---------------------------------------------------------------- the table

  predicate Apart(pipes: seq<Pipe>, i: nat, j: nat, x: nat)
    requires i < |pipes| && j < |pipes|
  {
    !((x in pipes[i].readers || x in pipes[i].writers) && (x in pipes[j].readers || x in pipes[j].writers))
  }

  ghost predicate EndsOk(p: Pipe, ps: Procs) {
    Shape(p) && AllAsleep(ps, Waiters(p))
  }

  ghost predicate AllEnds(pipes: seq<Pipe>, ps: Procs) {
    forall i: nat {:trigger EndsOk(pipes[i], ps)} :: i < |pipes| ==> EndsOk(pipes[i], ps)
  }

  /** Nobody waits at two pipes. */
  ghost predicate OnePipe(pipes: seq<Pipe>) {
    forall i: nat, j: nat, x {:trigger Apart(pipes, i, j, x)} :: i < |pipes| && j < |pipes| && i != j ==>
      Apart(pipes, i, j, x)
  }

  ghost predicate QueueInv(pipes: seq<Pipe>, ps: Procs) {
    AllEnds(pipes, ps) && OnePipe(pipes)
  }

  ghost function AllWaiters(pipes: seq<Pipe>): set<nat> {
    set i, x | 0 <= i < |pipes| && x in Waiters(pipes[i]) :: x
  }

  lemma WaiterIn(pipes: seq<Pipe>, i: nat, x: nat)
    requires i < |pipes| && x in Waiters(pipes[i])
    ensures x in AllWaiters(pipes)
  {
  }

  lemma StillAsleep(v: View, v': View, q: set<nat>, x: nat)
    requires Wakes(v, v', q) && x !in q && Asleep(v.procs, x)
    ensures Asleep(v'.procs, x)
  {
    assert WakesAt(v, v', q, x);
  }

  lemma OneSettled(pipes: seq<Pipe>, v: View, i: nat, r: (Pipe, View))
    requires QueueInv(pipes, v.procs) && i < |pipes| && Settled(pipes[i], v, r)
    ensures QueueInv(pipes[i := r.0], r.1.procs) && Wakes(v, r.1, AllWaiters(pipes))
    ensures AllWaiters(pipes[i := r.0]) <= AllWaiters(pipes)
  {
    var pipes' := pipes[i := r.0];
    var gone := Waiters(pipes[i]) - Waiters(r.0);
    forall j: nat | j < |pipes'| ensures EndsOk(pipes'[j], r.1.procs) {
      assert EndsOk(pipes[j], v.procs) && EndsOk(pipes[i], v.procs);
      forall x | x in Waiters(pipes'[j]) ensures Asleep(r.1.procs, x) {
        assert Asleep(v.procs, x);
        assert j != i ==> Apart(pipes, i, j, x);
        StillAsleep(v, r.1, gone, x);
      }
    }
    forall j: nat, k: nat, x: nat | j < |pipes'| && k < |pipes'| && j != k ensures Apart(pipes', j, k, x) {
      assert Apart(pipes, j, k, x);
      assert x in Waiters(r.0) ==> x in Waiters(pipes[i]);
      assert x in r.0.readers || x in r.0.writers <==> x in Waiters(r.0);
    }
    WakesNone(r.1, {});
    WakesTrans(v, r.1, r.1, gone, {}, AllWaiters(pipes));
  }

  /** The streams of a process are of no concern here. */
  lemma PointKeeps(s: Pipes, pid: nat, target: nat, f: int)
    requires QueueInv(s.pipes, s.view.procs)
    ensures QueueInv(Point(s, pid, target, f).pipes, Point(s, pid, target, f).view.procs)
    ensures Wakes(s.view, Point(s, pid, target, f).view, {})
  {
    var v := Point(s, pid, target, f).view;
    forall p | p in s.view.procs && p in v.procs ensures WakesAt(s.view, v, {}, p) { }
    QuietKeeps(s.pipes, s.view, v, {});
  }

  /** Processes that wait at no pipe may be woken by others. */
  lemma QuietKeeps(pipes: seq<Pipe>, v: View, v': View, q: set<nat>)
    requires QueueInv(pipes, v.procs) && Wakes(v, v', q) && q !! AllWaiters(pipes)
    ensures QueueInv(pipes, v'.procs)
  {
    forall j: nat | j < |pipes| ensures EndsOk(pipes[j], v'.procs) {
      assert EndsOk(pipes[j], v.procs);
      forall x | x in Waiters(pipes[j]) ensures Asleep(v'.procs, x) {
        assert Asleep(v.procs, x);
        WaiterIn(pipes, j, x);
        StillAsleep(v, v', q, x);
      }
    }
  }

  /** What an operation on the tables may do: wake some who wait there, and no longer do. */
  ghost predicate Calm(s: Pipes, s': Pipes) {
    && QueueInv(s'.pipes, s'.view.procs) && Wakes(s.view, s'.view, AllWaiters(s.pipes))
    && AllWaiters(s'.pipes) <= AllWaiters(s.pipes) && |s'.pipes| == |s.pipes|
  }

  lemma CalmTrans(s: Pipes, s1: Pipes, s2: Pipes)
    requires Calm(s, s1) && Calm(s1, s2)
    ensures Calm(s, s2)
  {
    WakesTrans(s.view, s1.view, s2.view, AllWaiters(s.pipes), AllWaiters(s1.pipes), AllWaiters(s.pipes));
  }

  lemma CalmSelf(s: Pipes)
    requires QueueInv(s.pipes, s.view.procs)
    ensures Calm(s, s)
  {
    WakesNone(s.view, AllWaiters(s.pipes));
  }

  lemma SetPipeCalm(s: Pipes, i: nat, r: (Pipe, View), fds: seq<Fd>)
    requires QueueInv(s.pipes, s.view.procs) && i < |s.pipes| && Settled(s.pipes[i], s.view, r)
    ensures Calm(s, Pipes(s.pipes[i := r.0], fds, r.1))
  {
    OneSettled(s.pipes, s.view, i, r);
  }

  lemma IncrefCalm(s: Pipes, f: nat)
    requires QueueInv(s.pipes, s.view.procs)
    ensures Calm(s, Incref(s, f))
  {
    CalmSelf(s);
    if Valid(s, f) && s.fds[f].pipe < |s.pipes| {
      var i := s.fds[f].pipe;
      var fds := Incref(s, f).fds;
      assert EndsOk(s.pipes[i], s.view.procs);
      if s.fds[f].kind == ReadEnd {
        OpenReadSettles(s.pipes[i], s.view);
        SetPipeCalm(s, i, OpenRead(s.pipes[i], s.view), fds);
      } else if s.fds[f].kind == WriteEnd {
        OpenWriteSettles(s.pipes[i], s.view);
        SetPipeCalm(s, i, OpenWrite(s.pipes[i], s.view), fds);
      }
    }
  }

  lemma DecrefCalm(s: Pipes, f: nat)
    requires QueueInv(s.pipes, s.view.procs)
    ensures Calm(s, Decref(s, f))
  {
    CalmSelf(s);
    if Valid(s, f) && s.fds[f].refs > 0 && s.fds[f].pipe < |s.pipes| {
      var i := s.fds[f].pipe;
      var fds := Decref(s, f).fds;
      assert EndsOk(s.pipes[i], s.view.procs);
      if s.fds[f].kind == ReadEnd {
        CloseReadSettles(s.pipes[i], s.view);
        SetPipeCalm(s, i, CloseRead(s.pipes[i], s.view), fds);
      } else if s.fds[f].kind == WriteEnd {
        CloseWriteSettles(s.pipes[i], s.view);
        SetPipeCalm(s, i, CloseWrite(s.pipes[i], s.view), fds);
      }
    }
  }

  lemma PointCalm(s: Pipes, pid: nat, target: nat, f: int)
    requires QueueInv(s.pipes, s.view.procs)
    ensures Calm(s, Point(s, pid, target, f))
  {
    PointKeeps(s, pid, target, f);
    WakesNone(s.view, AllWaiters(s.pipes));
    WakesTrans(s.view, s.view, Point(s, pid, target, f).view, AllWaiters(s.pipes), {}, AllWaiters(s.pipes));
  }

  lemma RedirectCalm(s: Pipes, pid: nat, target: nat, f: int)
    requires QueueInv(s.pipes, s.view.procs) && pid in s.view.procs
    ensures Calm(s, Redirect(s, pid, target, f))
  {
    var was := GetStd(s.view.procs[pid], target);
    CalmSelf(s);
    if was >= 0 { DecrefCalm(s, was); }
    var s1 := if was >= 0 then Decref(s, was) else s;
    PointCalm(s1, pid, target, f);
    CalmTrans(s, s1, Point(s1, pid, target, f));
    if f >= 0 {
      IncrefCalm(Point(s1, pid, target, f), f);
      CalmTrans(s, Point(s1, pid, target, f), Redirect(s, pid, target, f));
    }
  }

  lemma ReleaseCalm(s: Pipes, pid: nat)
    requires QueueInv(s.pipes, s.view.procs)
    ensures Calm(s, ReleaseFds(s, pid))
  {
    CalmSelf(s);
    if pid in s.view.procs {
      var b := s.view.procs[pid];
      if b.stdin >= 0 { DecrefCalm(s, b.stdin); }
      var s1 := if b.stdin >= 0 then Decref(s, b.stdin) else s;
      CalmSelf(s1);
      if b.stdout >= 0 { DecrefCalm(s1, b.stdout); }
      var s2 := if b.stdout >= 0 then Decref(s1, b.stdout) else s1;
      CalmTrans(s, s1, s2);
      PointCalm(s2, pid, 0, -1);
      CalmTrans(s, s2, Point(s2, pid, 0, -1));
      PointCalm(Point(s2, pid, 0, -1), pid, 1, -1);
      CalmTrans(s, Point(s2, pid, 0, -1), ReleaseFds(s, pid));
    }
  }

  lemma CalmFds(s: Pipes, fds: seq<Fd>, s': Pipes)
    requires Calm(s.(fds := fds), s')
    ensures Calm(s, s')
  {
  }

  lemma CreateFdCalm(s: Pipes, i: nat, kind: Kind)
    requires QueueInv(s.pipes, s.view.procs)
    ensures Calm(s, CreateFd(s, i, kind).0)
  {
    match FreeFd(s.fds, 0)
    case None => CalmSelf(s);
    case Some(f) =>
      var fds := s.fds[f := Fd(kind, 0, i)];
      IncrefCalm(s.(fds := fds), f);
      CalmFds(s, fds, CreateFd(s, i, kind).0);
  }

  lemma CreateBothCalm(s: Pipes, i: nat)
    requires QueueInv(s.pipes, s.view.procs)
    ensures Calm(s, CreateBoth(s, i).0)
  {
    CreateFdCalm(s, i, ReadEnd);
    var (s1, r) := CreateFd(s, i, ReadEnd);
    if r >= 0 {
      CreateFdCalm(s1, i, WriteEnd);
      var (s2, w) := CreateFd(s1, i, WriteEnd);
      CalmTrans(s, s1, s2);
      if w < 0 {
        DecrefCalm(s2, r);
        CalmTrans(s, s2, Decref(s2, r));
      }
    }
  }

  lemma PipeOpenCalm(s: Pipes, name: Option<string>)
    requires QueueInv(s.pipes, s.view.procs)
    ensures Calm(s, s.(pipes := PipeOpen(s.pipes, name).0))
  {
    CalmSelf(s);
    var (ps, i) := PipeOpen(s.pipes, name);
    if i.Some? {
      var p' := ps[i.value];
      assert ps == s.pipes[i.value := p'];
      assert EndsOk(s.pipes[i.value], s.view.procs);
      WakesNone(s.view, Waiters(s.pipes[i.value]) - Waiters(p'));
      SetPipeCalm(s, i.value, (p', s.view), s.fds);
    }
  }

  lemma SysPipeCalm(s: Pipes, name: Option<string>)
    requires QueueInv(s.pipes, s.view.procs)
    ensures Calm(s, SysPipe(s, name).0)
  {
    CalmSelf(s);
    var (ps, i) := PipeOpen(s.pipes, name);
    if i.Some? {
      PipeOpenCalm(s, name);
      CreateBothCalm(s.(pipes := ps), i.value);
      CalmTrans(s, s.(pipes := ps), SysPipe(s, name).0);
    }
  }

  // ---------------------------------------------------------------- reading and writing

  /** The caller went to sleep in a queue. */
  ghost predicate Slept(s: Pipes, s': Pipes) {
    && s.view.cur.Some? && s'.view == ProcessBlock(s.view, s.view.cur.value)
    && QueueInv(s'.pipes, s'.view.procs) && AllWaiters(s'.pipes) <= AllWaiters(s.pipes) + {s.view.cur.value}
    && |s'.pipes| == |s.pipes|
  }

  predicate CallerRuns(v: View) {
    v.cur.Some? && v.cur.value in v.procs && v.procs[v.cur.value].state == Running
      && v.procs[v.cur.value].waitingFor == 0
  }

  lemma PushElems(q: seq<nat>, x: nat)
    requires NoDup(q)
    ensures NoDup(Push(q, x)) && Elems(q) <= Elems(Push(q, x)) <= Elems(q) + {x}
  {
  }

  /** Pipe i with the caller queued as a reader or a writer. */
  lemma SleepIn(pipes: seq<Pipe>, v: View, i: nat, p': Pipe)
    requires QueueInv(pipes, v.procs) && CallerRuns(v) && i < |pipes| && Shape(p')
    requires Waiters(p') <= Waiters(pipes[i]) + {v.cur.value}
    ensures var pipes' := pipes[i := p'];
            QueueInv(pipes', ProcessBlock(v, v.cur.value).procs)
              && AllWaiters(pipes') <= AllWaiters(pipes) + {v.cur.value}
  {
    var me := v.cur.value;
    var v' := ProcessBlock(v, me);
    var pipes' := pipes[i := p'];
    forall j: nat | j < |pipes'| ensures EndsOk(pipes'[j], v'.procs) {
      assert EndsOk(pipes[j], v.procs);
      forall x | x in Waiters(pipes'[j]) ensures Asleep(v'.procs, x) { assert x != me ==> Asleep(v.procs, x); }
    }
    forall j: nat, k: nat, x: nat | j < |pipes'| && k < |pipes'| && j != k ensures Apart(pipes', j, k, x) {
      assert Apart(pipes, j, k, x) && EndsOk(pipes[j], v.procs) && EndsOk(pipes[k], v.procs);
      assert x in Waiters(p') ==> x in Waiters(pipes[i]) || x == me;
      assert (x in p'.readers || x in p'.writers) <==> x in Waiters(p');
      assert me in Waiters(pipes[j]) ==> Asleep(v.procs, me);
      assert me in Waiters(pipes[k]) ==> Asleep(v.procs, me);
      assert (x in pipes[j].readers || x in pipes[j].writers) <==> x in Waiters(pipes[j]);
      assert (x in pipes[k].readers || x in pipes[k].writers) <==> x in Waiters(pipes[k]);
    }
  }

  lemma ReaderSleeps(p: Pipe, ps: Procs, me: nat)
    requires EndsOk(p, ps) && !Asleep(ps, me)
    ensures var p' := p.(readers := Push(p.readers, me)); Shape(p') && Waiters(p') <= Waiters(p) + {me}
  {
    PushElems(p.readers, me);
    assert me in Waiters(p) ==> Asleep(ps, me);
  }

  lemma WriterSleeps(p: Pipe, ps: Procs, me: nat)
    requires EndsOk(p, ps) && !Asleep(ps, me)
    ensures var p' := p.(writers := Push(p.writers, me)); Shape(p') && Waiters(p') <= Waiters(p) + {me}
  {
    PushElems(p.writers, me);
    assert me in Waiters(p) ==> Asleep(ps, me);
  }

  /** A reader of the terminal sleeps in no queue. */
  lemma TerminalSleeps(s: Pipes)
    requires QueueInv(s.pipes, s.view.procs) && CallerRuns(s.view)
    ensures Slept(s, s.(view := ProcessBlock(s.view, s.view.cur.value)))
  {
    var v' := ProcessBlock(s.view, s.view.cur.value);
    forall j: nat | j < |s.pipes| ensures EndsOk(s.pipes[j], v'.procs) {
      assert EndsOk(s.pipes[j], s.view.procs);
      forall x | x in Waiters(s.pipes[j]) ensures Asleep(v'.procs, x) { assert Asleep(s.view.procs, x); }
    }
  }

  lemma ReadQueues(s: Pipes, n: nat, count: nat, typed: Option<seq<Byte>>)
    requires QueueInv(s.pipes, s.view.procs) && CallerRuns(s.view)
    ensures var s' := SysRead(s, n, count, typed).0; Calm(s, s') || Slept(s, s')
  {
    CalmSelf(s);
    var f := Real(s, n, FD_STDIN);
    if f.Some? && count > 0 {
      if IsEnd(s, f.value, ReadEnd) {
        ReadPipeQueues(s, f.value, count);
      } else if IsTerminal(s, f.value) && typed.None? {
        TerminalSleeps(s);
      }
    }
  }

  lemma ReadPipeQueues(s: Pipes, f: nat, count: nat)
    requires QueueInv(s.pipes, s.view.procs) && CallerRuns(s.view) && IsEnd(s, f, ReadEnd)
    ensures var i := s.fds[f].pipe;
            var (p', v', r, data) := ReadPipe(s.pipes[i], s.view, count);
            Calm(s, SetPipe(s, i, (p', v'))) || Slept(s, SetPipe(s, i, (p', v')))
  {
    var i := s.fds[f].pipe;
    var p := s.pipes[i];
    var (p', v', r, data) := ReadPipe(p, s.view, count);
    assert EndsOk(p, s.view.procs);
    if r == BLOCKED {
      ReaderSleeps(p, s.view.procs, s.view.cur.value);
      SleepIn(s.pipes, s.view, i, p');
    } else if p'.contents == p.contents {
      SameQueues(p, s.view, p);
      SetPipeCalm(s, i, (p', v'), s.fds);
    } else {
      DeliverSettles(p, s.view, p'.contents);
      SetPipeCalm(s, i, (p', v'), s.fds);
    }
  }

  /** What is left of the contents, and a writer woken. */
  lemma DeliverSettles(p: Pipe, v: View, contents: seq<Byte>)
    requires Shape(p) && AllAsleep(v.procs, Waiters(p))
    ensures Settled(p, v, WakeWriter(p.(contents := contents), v))
  {
    var p1 := p.(contents := contents);
    SameQueues(p, v, p1);
    WakeWriterSettles(p1, v);
    SettledTrans(p, v, (p1, v), WakeWriter(p1, v));
  }

  /** New contents, and a reader woken. */
  lemma AcceptSettles(p: Pipe, v: View, contents: seq<Byte>)
    requires Shape(p) && AllAsleep(v.procs, Waiters(p))
    ensures Settled(p, v, WakeReader(p.(contents := contents), v))
  {
    var p1 := p.(contents := contents);
    SameQueues(p, v, p1);
    WakeReaderSettles(p1, v);
    SettledTrans(p, v, (p1, v), WakeReader(p1, v));
  }

  lemma WritePipeQueues(s: Pipes, f: nat, data: seq<Byte>)
    requires QueueInv(s.pipes, s.view.procs) && CallerRuns(s.view) && IsEnd(s, f, WriteEnd)
    ensures var i := s.fds[f].pipe;
            var (p', v', r) := WritePipe(s.pipes[i], s.view, data);
            Calm(s, SetPipe(s, i, (p', v'))) || Slept(s, SetPipe(s, i, (p', v')))
  {
    var i := s.fds[f].pipe;
    var p := s.pipes[i];
    var (p', v', r) := WritePipe(p, s.view, data);
    assert EndsOk(p, s.view.procs);
    if r == BLOCKED {
      WriterSleeps(p, s.view.procs, s.view.cur.value);
      SleepIn(s.pipes, s.view, i, p');
    } else if r == 0 {
      SameQueues(p, s.view, p);
      SetPipeCalm(s, i, (p', v'), s.fds);
    } else {
      AcceptSettles(p, s.view, p'.contents);
      SetPipeCalm(s, i, (p', v'), s.fds);
    }
  }

  lemma WriteQueues(s: Pipes, n: nat, data: seq<Byte>)
    requires QueueInv(s.pipes, s.view.procs) && CallerRuns(s.view)
    ensures var s' := SysWrite(s, n, data).0; Calm(s, s') || Slept(s, s')
  {
    CalmSelf(s);
    var f := Real(s, n, FD_STDOUT);
    if f.Some? && IsEnd(s, f.value, WriteEnd) { WritePipeQueues(s, f.value, data); }
  }

  // ---------------------------------------------------------------- death

  lemma RemoveQueue(q: seq<nat>, pid: nat)
    requires NoDup(q)
    ensures NoDup(SemaphoreSpec.Remove(q, pid)) && Elems(SemaphoreSpec.Remove(q, pid)) == Elems(q) - {pid}
  {
    SemaphoreTheorems.RemoveIs(q, pid);
  }

  lemma UnqueuedIs(p: Pipe, pid: nat)
    requires Shape(p) && p.inUse
    ensures Shape(Unqueued(p, pid)) && Waiters(Unqueued(p, pid)) == Waiters(p) - {pid}
  {
    RemoveQueue(p.readers, pid);
    RemoveQueue(p.writers, pid);
  }

  /** pipe_cleanup_for_process: the process is in no queue any more, and nobody else is affected. */
  lemma CleanupCalm(s: Pipes, pid: nat)
    requires QueueInv(s.pipes, s.view.procs)
    requires forall i :: 0 <= i < |s.pipes| && !s.pipes[i].inUse ==> Waiters(s.pipes[i]) == {}
    ensures var s' := PipeCleanup(s, pid); Calm(s, s') && s'.view == s.view && pid !in AllWaiters(s'.pipes)
  {
    var s' := PipeCleanup(s, pid);
    forall j: nat | j < |s.pipes| ensures Shape(s'.pipes[j]) && Waiters(s'.pipes[j]) == Waiters(s.pipes[j]) - {pid} {
      assert EndsOk(s.pipes[j], s.view.procs);
      if s.pipes[j].inUse { UnqueuedIs(s.pipes[j], pid); }
    }
    forall j: nat | j < |s'.pipes| ensures EndsOk(s'.pipes[j], s.view.procs) {
      assert EndsOk(s.pipes[j], s.view.procs);
    }
    CleanupApart(s, pid);
    WakesNone(s.view, AllWaiters(s.pipes));
  }

  lemma CleanupApart(s: Pipes, pid: nat)
    requires OnePipe(s.pipes)
    requires forall j: nat :: j < |s.pipes| ==> Waiters(PipeCleanup(s, pid).pipes[j]) == Waiters(s.pipes[j]) - {pid}
    ensures OnePipe(PipeCleanup(s, pid).pipes)
  {
    var pipes' := PipeCleanup(s, pid).pipes;
    forall j: nat, k: nat, x: nat | j < |pipes'| && k < |pipes'| && j != k ensures Apart(pipes', j, k, x) {
      assert Apart(s.pipes, j, k, x);
      assert (x in pipes'[j].readers || x in pipes'[j].writers) <==> x in Waiters(pipes'[j]);
      assert (x in pipes'[k].readers || x in pipes'[k].writers) <==> x in Waiters(pipes'[k]);
      assert (x in s.pipes[j].readers || x in s.pipes[j].writers) <==> x in Waiters(s.pipes[j]);
      assert (x in s.pipes[k].readers || x in s.pipes[k].writers) <==> x in Waiters(s.pipes[k]);
    }
  }
}
