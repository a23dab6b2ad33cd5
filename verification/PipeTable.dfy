/**
 pipe.c and fd.c in place: ring buffers, wait queues and open counts, the table of FDs, and the system calls on them,
 working on the table of processes. Each operation is shown to do what PipeSpec says.
 */
module PipeTable {
  import opened Processes
  import opened ProcessTable
  import opened WaitQueues
  import Spec = PipeSpec

  type Byte = Spec.Byte

  /** The n bytes of the ring b from position h on. */
  function Bytes(b: seq<Byte>, h: nat, n: nat): (r: seq<Byte>)
    requires |b| == Spec.PIPE_BUFFER_SIZE
    ensures |r| == n
  {
    seq(n, k requires 0 <= k < n => b[(h + k) % Spec.PIPE_BUFFER_SIZE])
  }

  lemma BytesPut(b: seq<Byte>, h: nat, n: nat, x: Byte)
    requires |b| == Spec.PIPE_BUFFER_SIZE && h < Spec.PIPE_BUFFER_SIZE && n < Spec.PIPE_BUFFER_SIZE
    ensures Bytes(b[(h + n) % Spec.PIPE_BUFFER_SIZE := x], h, n + 1) == Bytes(b, h, n) + [x]
  {
    var r := Bytes(b[(h + n) % Spec.PIPE_BUFFER_SIZE := x], h, n + 1);
    forall k | 0 <= k < n ensures r[k] == Bytes(b, h, n)[k] {
      assert (h + k) % Spec.PIPE_BUFFER_SIZE != (h + n) % Spec.PIPE_BUFFER_SIZE;
    }
  }

  lemma BytesPop(b: seq<Byte>, h: nat, n: nat)
    requires |b| == Spec.PIPE_BUFFER_SIZE && h < Spec.PIPE_BUFFER_SIZE && 0 < n <= Spec.PIPE_BUFFER_SIZE
    ensures Bytes(b, h, n)[0] == b[h] && Bytes(b, (h + 1) % Spec.PIPE_BUFFER_SIZE, n - 1) == Bytes(b, h, n)[1..]
  {
    var r := Bytes(b, (h + 1) % Spec.PIPE_BUFFER_SIZE, n - 1);
    forall k | 0 <= k < n - 1 ensures r[k] == Bytes(b, h, n)[k + 1] {
      assert ((h + 1) % Spec.PIPE_BUFFER_SIZE + k) % Spec.PIPE_BUFFER_SIZE == (h + (k + 1)) % Spec.PIPE_BUFFER_SIZE;
    }
  }

  lemma BytesNext(h: nat, n: nat)
    ensures ((h + n) % Spec.PIPE_BUFFER_SIZE + 1) % Spec.PIPE_BUFFER_SIZE == (h + (n + 1)) % Spec.PIPE_BUFFER_SIZE
    ensures n > 0 ==>
            ((h + 1) % Spec.PIPE_BUFFER_SIZE + (n - 1)) % Spec.PIPE_BUFFER_SIZE == (h + n) % Spec.PIPE_BUFFER_SIZE
  {
  }

  class Pipe {
    const buffer: array<Byte>
    var readIdx: nat
    var writeIdx: nat
    var count: nat
    var openRead: nat
    var openWrite: nat
    const readers: WaitQueue
    const writers: WaitQueue
    var inUse: bool
    var named: bool
    var eof: bool
    var opens: nat
    var name: string

    ghost predicate RingOk()
      reads this
    {
      && buffer.Length == Spec.PIPE_BUFFER_SIZE && readIdx < Spec.PIPE_BUFFER_SIZE && count <= Spec.PIPE_BUFFER_SIZE
      && writeIdx == (readIdx + count) % Spec.PIPE_BUFFER_SIZE
    }

    ghost predicate Valid()
      reads this, readers, readers.buf, writers, writers.buf
    {
      RingOk() && readers.Valid() && writers.Valid()
    }

    ghost function Contents(): seq<Byte>
      reads this, buffer
      requires RingOk()
    {
      Bytes(buffer[..], readIdx, count)
    }

    ghost function Value(): Spec.Pipe
      reads this, buffer, readers, readers.buf, writers, writers.buf
      requires Valid()
    {
      Spec.Pipe(Contents(), openRead, openWrite, readers.Contents(), writers.Contents(), inUse, named, eof, opens, name)
    }

    constructor ()
      ensures Valid() && fresh(buffer) && fresh(readers) && fresh(readers.buf) && fresh(writers) && fresh(writers.buf)
      ensures readers != writers && readers.buf != writers.buf && Value() == Spec.Closed
    {
      buffer := new Byte[Spec.PIPE_BUFFER_SIZE](_ => 0);
      readers := new WaitQueue();
      writers := new WaitQueue();
      readIdx, writeIdx, count, openRead, openWrite, opens := 0, 0, 0, 0, 0, 0;
      inUse, named, eof, name := false, false, false, "";
    }

    method SetCounts(openRead: nat, openWrite: nat, eof: bool, opens: nat)
      requires Valid()
      modifies this
      ensures Valid()
      ensures Value() == old(Value()).(openRead := openRead, openWrite := openWrite, eof := eof, opens := opens)
    {
      this.openRead, this.openWrite, this.eof, this.opens := openRead, openWrite, eof, opens;
    }

    method SetName(name: string)
      requires Valid()
      modifies this
      ensures Valid() && Value() == old(Value()).(named := true, name := name, opens := 1)
    {
      this.name, named, opens := name, true, 1;
    }

    method ClearQueues()
      requires readers.Valid() && writers.Valid() && readers != writers && readers.buf != writers.buf
      modifies readers, writers
      ensures readers.Valid() && writers.Valid() && readers.Contents() == [] && writers.Contents() == []
    {
      readers.Clear();
      writers.Clear();
    }

    /** pipe_reset, and in_use with it. */
    method Reset(inUse: bool)
      requires Valid() && readers != writers && readers.buf != writers.buf
      modifies this, readers, writers
      ensures Valid() && Value() == Spec.Closed.(inUse := inUse)
    {
      ClearQueues();
      readIdx, writeIdx, count, openRead, openWrite := 0, 0, 0, 0, 0;
      named, eof, opens, name, this.inUse := false, false, 0, "", inUse;
    }

    method Unqueue(pid: nat)
      requires Valid() && readers != writers && readers.buf != writers.buf
      modifies readers, readers.buf, writers, writers.buf
      ensures Valid()
      ensures Value() == Spec.Dropped(old(Value()), pid)
    {
      var r := readers.RemovePid(pid);
      var w := writers.RemovePid(pid);
    }

    /** The copying loop of pipe_read. */
    method Drain(buf: array<Byte>, m: nat)
      requires RingOk() && m <= count && m <= buf.Length && buf != buffer
      modifies this`readIdx, this`count, buf
      ensures RingOk() && buf[..m] == old(Contents())[..m] && Contents() == old(Contents())[m..]
    {
      var n := 0;
      while n < m
        invariant 0 <= n <= m && RingOk() && count == old(count) - n
        invariant buf[..n] == old(Contents())[..n]
        invariant Contents() == old(Contents())[n..]
      {
        BytesPop(buffer[..], readIdx, count);
        BytesNext(readIdx, count);
        buf[n] := buffer[readIdx];
        readIdx := (readIdx + 1) % Spec.PIPE_BUFFER_SIZE;
        count := count - 1;
        n := n + 1;
      }
    }

    /** The copying loop of pipe_write. */
    method Fill(data: seq<Byte>, m: nat)
      requires RingOk() && m <= |data| && count + m <= Spec.PIPE_BUFFER_SIZE
      modifies this`writeIdx, this`count, buffer
      ensures RingOk() && Contents() == old(Contents()) + data[..m]
    {
      var n := 0;
      while n < m
        invariant 0 <= n <= m && RingOk() && count == old(count) + n
        invariant Contents() == old(Contents()) + data[..n]
      {
        BytesPut(buffer[..], readIdx, count, data[n]);
        BytesNext(readIdx, count);
        ghost var b := buffer[..];
        buffer[writeIdx] := data[n];
        assert buffer[..] == b[writeIdx := data[n]];
        writeIdx := (writeIdx + 1) % Spec.PIPE_BUFFER_SIZE;
        count := count + 1;
        n := n + 1;
      }
    }
  }

  /** Two pipes share no part. */
  ghost predicate Distinct(p: Pipe, q: Pipe) {
    && p != q && p.buffer != q.buffer
    && p.readers != q.readers && p.readers != q.writers && p.writers != q.readers && p.writers != q.writers
    && p.readers.buf != q.readers.buf && p.readers.buf != q.writers.buf && p.writers.buf != q.readers.buf
    && p.writers.buf != q.writers.buf
  }

  /** What a pipe is made of. */
  function PartsOf(p: Pipe): set<object> {
    {p, p.buffer, p.readers, p.readers.buf, p.writers, p.writers.buf}
  }

  /** The queues of a pipe are two. */
  ghost predicate Double(p: Pipe) {
    p.readers != p.writers && p.readers.buf != p.writers.buf
  }

  ghost predicate AllDistinct(ps: seq<Pipe>) {
    && (forall i {:trigger ps[i]} :: 0 <= i < |ps| ==> Double(ps[i]))
    && forall i, j {:trigger Distinct(ps[i], ps[j])} :: 0 <= i < |ps| && 0 <= j < |ps| && i != j ==>
       Distinct(ps[i], ps[j])
  }

  /** What a new reference to an end means for the pipe, and what a returned one does. */
  function Opened(s: Spec.Pipes, d: Spec.Fd): Spec.Pipes {
    if d.kind == Spec.ReadEnd && d.pipe < |s.pipes| then Spec.SetPipe(s, d.pipe, Spec.OpenRead(s.pipes[d.pipe], s.view))
    else if d.kind == Spec.WriteEnd && d.pipe < |s.pipes| then
      Spec.SetPipe(s, d.pipe, Spec.OpenWrite(s.pipes[d.pipe], s.view))
    else s
  }

  function Returned(s: Spec.Pipes, d: Spec.Fd): Spec.Pipes {
    if d.kind == Spec.ReadEnd && d.pipe < |s.pipes| then
      Spec.SetPipe(s, d.pipe, Spec.CloseRead(s.pipes[d.pipe], s.view))
    else if d.kind == Spec.WriteEnd && d.pipe < |s.pipes| then
      Spec.SetPipe(s, d.pipe, Spec.CloseWrite(s.pipes[d.pipe], s.view))
    else s
  }

  /** Whom a new reader, or writer, of a named pipe wakes. */
  function ToReader(p: Spec.Pipe, v: View): (Spec.Pipe, View) {
    if p.named then Spec.WakeAllWriters(p, v) else (p, v)
  }

  function ToWriter(p: Spec.Pipe, v: View): (Spec.Pipe, View) {
    if p.named then Spec.WakeAllReaders(p.(eof := false), v) else (p, v)
  }

  lemma OpensAre(p: Spec.Pipe, v: View)
    ensures Spec.OpenRead(p, v) == ToReader(p.(openRead := p.openRead + 1), v)
    ensures Spec.OpenWrite(p, v) == ToWriter(p.(openWrite := p.openWrite + 1), v)
  {
  }

  lemma IncrefIs(s: Spec.Pipes, f: nat)
    requires Spec.Valid(s, f)
    ensures Spec.Incref(s, f) == Opened(s.(fds := s.fds[f := s.fds[f].(refs := s.fds[f].refs + 1)]), s.fds[f])
  {
  }

  lemma DecrefIs(s: Spec.Pipes, f: nat)
    requires Spec.Valid(s, f) && s.fds[f].refs > 0
    ensures Spec.Decref(s, f) ==
            Returned(s.(fds := s.fds[f := Spec.Reclaim(s.fds[f].(refs := s.fds[f].refs - 1))]), s.fds[f])
  {
  }

  lemma ReturnedFds(s: Spec.Pipes, d: Spec.Fd, fds: seq<Spec.Fd>)
    ensures Returned(s, d).(fds := fds) == Returned(s.(fds := fds), d) && Returned(s, d).fds == s.fds
  {
  }

  class PipeTable {
    const pipes: seq<Pipe>
    const fds: array<Spec.Fd>
    const procs: Table
    ghost var all: seq<Spec.Pipe>
    /** Everything the pipes are made of. */
    ghost const parts: set<object>

    ghost predicate Apart(i: nat, j: nat)
      requires i < |pipes| && j < |pipes|
    {
      Distinct(pipes[i], pipes[j])
    }

    ghost predicate Twofold(i: nat)
      requires i < |pipes|
    {
      Double(pipes[i])
    }

    /** The caller's buffer is no part of the tables. */
    ghost predicate Outside(buf: array<Byte>) {
      buf as object != fds && buf as object != procs.slots && buf !in parts
    }

    /** What pipe i is made of. */
    ghost function Own(i: nat): set<object>
      requires i < |pipes|
    {
      PartsOf(pipes[i])
    }

    /** Pipe i shares nothing with any other, and its queues are two. */
    ghost predicate Alone(i: nat)
      requires i < |pipes|
    {
      Twofold(i) && Own(i) <= parts && forall j: nat {:trigger Apart(i, j)} :: j < |pipes| && j != i ==> Apart(i, j)
    }

    ghost predicate SeparateFrom(i: nat)
      decreases |pipes| - i
    {
      i < |pipes| ==> Alone(i) && SeparateFrom(i + 1)
    }

    lemma {:induction false} AloneFrom(k: nat, i: nat)
      requires SeparateFrom(k) && k <= i < |pipes|
      ensures Alone(i)
      decreases i - k
    {
      if k < i { AloneFrom(k + 1, i); }
    }

    lemma {:induction false} AllAlone(k: nat)
      requires forall i: nat {:trigger Alone(i)} :: i < |pipes| ==> Alone(i)
      ensures SeparateFrom(k)
      decreases |pipes| - k
    {
      if k < |pipes| { AllAlone(k + 1); }
    }

    ghost predicate Separate() {
      && |pipes| == Spec.MAX_PIPES && fds.Length == Spec.MAX_FDS
      && SeparateFrom(0) && procs !in parts && procs.slots !in parts && fds !in parts && this !in parts
    }

    ghost predicate PipeAt(i: nat)
      requires i < |pipes| == |all|
      reads this, Own(i)
    {
      pipes[i].Valid() && pipes[i].Value() == all[i]
    }

    ghost predicate Valid()
      reads this, parts, procs, procs.slots
    {
      && Separate() && |all| == |pipes| && procs.Valid()
      && forall i: nat {:trigger PipeAt(i)} :: i < |pipes| ==> Own(i) <= parts && PipeAt(i)
    }

    ghost function Value(): Spec.Pipes
      reads this, fds, procs, procs.slots
    {
      Spec.Pipes(all, fds[..], procs.Value())
    }

    static method NewPipes() returns (ps: seq<Pipe>, ghost parts: set<object>)
      ensures |ps| == Spec.MAX_PIPES && AllDistinct(ps) && fresh(parts)
      ensures forall i {:trigger ps[i]} :: 0 <= i < |ps| ==>
              ps[i].Valid() && ps[i].Value() == Spec.Closed && PartsOf(ps[i]) <= parts
    {
      ps, parts := [], {};
      while |ps| < Spec.MAX_PIPES
        invariant |ps| <= Spec.MAX_PIPES && AllDistinct(ps) && fresh(parts)
        invariant forall i {:trigger ps[i]} :: 0 <= i < |ps| ==> PartsOf(ps[i]) <= parts
        invariant forall i {:trigger ps[i]} :: 0 <= i < |ps| ==> ps[i].Valid() && ps[i].Value() == Spec.Closed
      {
        var q := new Pipe();
        forall i | 0 <= i < |ps| ensures Distinct(ps[i], q) && Distinct(q, ps[i]) { }
        ps, parts := ps + [q], parts + PartsOf(q);
      }
    }

    /** Pipe i and the processes became what r says, the other pipes are as before. */
    ghost predicate Became(was: seq<Spec.Pipe>, i: nat, r: (Spec.Pipe, View))
      requires i < |was|
      reads this, procs, procs.slots
    {
      Only(was, i) && all[i] == r.0 && procs.Value() == r.1
    }

    /** At most pipe i is another than before. */
    ghost predicate Only(was: seq<Spec.Pipe>, i: nat)
      reads this
    {
      i < |was| == |all| && all == was[i := all[i]]
    }

    static method NewFds() returns (fds: array<Spec.Fd>)
      ensures fresh(fds) && fds.Length == Spec.MAX_FDS
      ensures forall f :: 0 <= f < fds.Length ==>
              fds[f] == Spec.Fd(if f <= Spec.FD_STDOUT then Spec.Terminal else Spec.NoFd, 0, 0)
    {
      fds := new Spec.Fd[Spec.MAX_FDS](f => Spec.Fd(if f <= Spec.FD_STDOUT then Spec.Terminal else Spec.NoFd, 0, 0));
    }

    /** pipe_init and fd_init. */
    constructor (p: Table)
      requires p.Valid()
      ensures Valid() && procs == p && fresh(fds) && fresh(parts)
      ensures |all| == Spec.MAX_PIPES && forall i :: 0 <= i < |all| ==> all[i] == Spec.Closed
      ensures forall f :: 0 <= f < fds.Length ==>
              fds[f] == Spec.Fd(if f <= Spec.FD_STDOUT then Spec.Terminal else Spec.NoFd, 0, 0)
    {
      ghost var made: set<object>;
      var ps: seq<Pipe>;
      ps, made := NewPipes();
      var table := NewFds();
      pipes, procs, fds, parts := ps, p, table, made;
      all := seq(Spec.MAX_PIPES, _ => Spec.Closed);
      new;
      DistinctAlone();
    }

    lemma DistinctAlone()
      requires AllDistinct(pipes) && forall i {:trigger Own(i)} :: 0 <= i < |pipes| ==> Own(i) <= parts
      ensures SeparateFrom(0)
    {
      forall i: nat | i < |pipes| ensures Alone(i) {
        assert Double(pipes[i]);
        forall j: nat | j < |pipes| && j != i ensures Apart(i, j) { assert Distinct(pipes[i], pipes[j]); }
      }
      AllAlone(0);
    }

    // ---------------------------------------------------------------- small steps

    /** Nothing of pipe j belongs to pipe i. */
    lemma NotOwn(i: nat, j: nat)
      requires i < |pipes| && j < |pipes| && i != j && Separate()
      ensures Own(i) !! Own(j) && Own(j) <= parts
    {
      AloneFrom(0, i);
      AloneFrom(0, j);
      assert Apart(i, j);
    }

    /** A step that touches nothing but pipe i leaves the others what they were. */
    twostate lemma OthersAsBefore(i: nat)
      requires old(Valid()) && i < |pipes| && Only(old(all), i) && PipeAt(i) && procs.Valid()
      requires forall o: object :: o in parts && o !in Own(i) ==> unchanged(o)
      ensures Valid()
    {
      forall j: nat | j < |pipes| ensures Own(j) <= parts && PipeAt(j) {
        assert old(PipeAt(j));
        if j != i { NotOwn(i, j); }
      }
    }

    /** The counts and flags of one pipe are overwritten. */
    method Put(i: nat, openRead: nat, openWrite: nat, eof: bool, opens: nat)
      requires Valid() && i < |pipes|
      modifies pipes[i], this`all
      ensures Valid() && Only(old(all), i)
      ensures all[i] == old(all)[i].(openRead := openRead, openWrite := openWrite, eof := eof, opens := opens)
    {
      AloneFrom(0, i);
      assert PipeAt(i);
      pipes[i].SetCounts(openRead, openWrite, eof, opens);
      all := all[i := all[i].(openRead := openRead, openWrite := openWrite, eof := eof, opens := opens)];
      OthersAsBefore(i);
    }

    /** pipe_reset. */
    method Reset(i: nat, inUse: bool)
      requires Valid() && i < |pipes|
      modifies pipes[i], pipes[i].readers, pipes[i].writers, this`all
      ensures Valid() && Only(old(all), i) && all[i] == Spec.Closed.(inUse := inUse)
    {
      AloneFrom(0, i);
      assert PipeAt(i);
      pipes[i].Reset(inUse);
      all := all[i := Spec.Closed.(inUse := inUse)];
      OthersAsBefore(i);
    }

    method Name(i: nat, name: string)
      requires Valid() && i < |pipes|
      modifies pipes[i], this`all
      ensures Valid() && Only(old(all), i) && all[i] == old(all)[i].(named := true, name := name, opens := 1)
    {
      AloneFrom(0, i);
      assert PipeAt(i);
      pipes[i].SetName(name);
      all := all[i := all[i].(named := true, name := name, opens := 1)];
      OthersAsBefore(i);
    }

    method PopReader(i: nat) returns (pid: nat)
      requires Valid() && i < |pipes| && all[i].readers != []
      modifies pipes[i].readers, this`all
      ensures Valid() && pid == old(all)[i].readers[0] && Only(old(all), i)
      ensures all[i] == old(all)[i].(readers := old(all)[i].readers[1..])
    {
      AloneFrom(0, i);
      assert PipeAt(i);
      pid := pipes[i].readers.Pop();
      all := all[i := all[i].(readers := all[i].readers[1..])];
      OthersAsBefore(i);
    }

    method PopWriter(i: nat) returns (pid: nat)
      requires Valid() && i < |pipes| && all[i].writers != []
      modifies pipes[i].writers, this`all
      ensures Valid() && pid == old(all)[i].writers[0] && Only(old(all), i)
      ensures all[i] == old(all)[i].(writers := old(all)[i].writers[1..])
    {
      AloneFrom(0, i);
      assert PipeAt(i);
      pid := pipes[i].writers.Pop();
      all := all[i := all[i].(writers := all[i].writers[1..])];
      OthersAsBefore(i);
    }

    method PushReader(i: nat, pid: nat)
      requires Valid() && i < |pipes|
      modifies pipes[i].readers, pipes[i].readers.buf, this`all
      ensures Valid() && Only(old(all), i) && all[i] == old(all)[i].(readers := Spec.Push(old(all)[i].readers, pid))
    {
      AloneFrom(0, i);
      assert PipeAt(i);
      pipes[i].readers.PushOnce(pid);
      all := all[i := all[i].(readers := Spec.Push(all[i].readers, pid))];
      OthersAsBefore(i);
    }

    method PushWriter(i: nat, pid: nat)
      requires Valid() && i < |pipes|
      modifies pipes[i].writers, pipes[i].writers.buf, this`all
      ensures Valid() && Only(old(all), i) && all[i] == old(all)[i].(writers := Spec.Push(old(all)[i].writers, pid))
    {
      AloneFrom(0, i);
      assert PipeAt(i);
      pipes[i].writers.PushOnce(pid);
      all := all[i := all[i].(writers := Spec.Push(all[i].writers, pid))];
      OthersAsBefore(i);
    }

    method Unqueue(i: nat, pid: nat)
      requires Valid() && i < |pipes|
      modifies pipes[i].readers, pipes[i].readers.buf, pipes[i].writers, pipes[i].writers.buf, this`all
      ensures Valid()
      ensures Only(old(all), i) && all[i] == Spec.Dropped(old(all)[i], pid)
    {
      AloneFrom(0, i);
      assert PipeAt(i);
      pipes[i].Unqueue(pid);
      all := all[i := Spec.Dropped(all[i], pid)];
      OthersAsBefore(i);
    }

    method Drain(i: nat, buf: array<Byte>, m: nat)
      requires Valid() && i < |pipes| && m <= |all[i].contents| && m <= buf.Length && Outside(buf)
      modifies pipes[i], buf, this`all
      ensures Valid() && Only(old(all), i) && all[i] == old(all)[i].(contents := old(all)[i].contents[m..])
      ensures buf[..m] == old(all)[i].contents[..m]
    {
      AloneFrom(0, i);
      assert PipeAt(i);
      pipes[i].Drain(buf, m);
      all := all[i := all[i].(contents := all[i].contents[m..])];
      OthersAsBefore(i);
    }

    method Fill(i: nat, data: seq<Byte>, m: nat)
      requires Valid() && i < |pipes| && m <= |data| && |all[i].contents| + m <= Spec.PIPE_BUFFER_SIZE
      modifies pipes[i], pipes[i].buffer, this`all
      ensures Valid() && Only(old(all), i) && all[i] == old(all)[i].(contents := old(all)[i].contents + data[..m])
    {
      AloneFrom(0, i);
      assert PipeAt(i);
      pipes[i].Fill(data, m);
      all := all[i := all[i].(contents := all[i].contents + data[..m])];
      OthersAsBefore(i);
    }

    /** process_block and process_unblock, which the pipes do not notice. */
    method Block(pid: nat)
      requires Valid()
      modifies procs`force, procs.slots
      ensures Valid() && Value() == old(Value()).(view := ProcessBlock(old(procs.Value()), pid))
      ensures SamePids(old(procs.slots[..]), procs.slots[..])
    {
      procs.Block(pid);
      forall j: nat | j < |pipes| ensures Own(j) <= parts && PipeAt(j) { assert old(PipeAt(j)); }
    }

    method Unblock(pid: nat)
      requires Valid()
      modifies procs`force, procs.slots
      ensures Valid() && Value() == old(Value()).(view := ProcessUnblock(old(procs.Value()), pid))
      ensures SamePids(old(procs.slots[..]), procs.slots[..])
    {
      procs.Unblock(pid);
      forall j: nat | j < |pipes| ensures Own(j) <= parts && PipeAt(j) { assert old(PipeAt(j)); }
    }

    // ---------------------------------------------------------------- waking

    method WakeReader(i: nat)
      requires Valid() && i < |pipes|
      modifies parts, this`all, procs`force, procs.slots
      ensures Valid() && Became(old(all), i, Spec.WakeReader(old(all)[i], old(procs.Value())))
      ensures SamePids(old(procs.slots[..]), procs.slots[..])
    {
      assert PipeAt(i);
      if pipes[i].readers.count > 0 {
        var pid := PopReader(i);
        Unblock(pid);
      } else {
        assert all[i := all[i]] == all;
      }
    }

    method WakeWriter(i: nat)
      requires Valid() && i < |pipes|
      modifies parts, this`all, procs`force, procs.slots
      ensures Valid() && Became(old(all), i, Spec.WakeWriter(old(all)[i], old(procs.Value())))
      ensures SamePids(old(procs.slots[..]), procs.slots[..])
    {
      assert PipeAt(i);
      if pipes[i].writers.count > 0 {
        var pid := PopWriter(i);
        Unblock(pid);
      } else {
        assert all[i := all[i]] == all;
      }
    }

    method WakeAllReaders(i: nat)
      requires Valid() && i < |pipes|
      modifies parts, this`all, procs`force, procs.slots
      ensures Valid() && Became(old(all), i, Spec.WakeAllReaders(old(all)[i], old(procs.Value())))
      ensures SamePids(old(procs.slots[..]), procs.slots[..])
    {
      assert PipeAt(i);
      while pipes[i].readers.count > 0
        invariant Valid() && fds[..] == old(fds[..]) && SamePids(old(procs.slots[..]), procs.slots[..])
        invariant Only(old(all), i) && all[i] == old(all)[i].(readers := all[i].readers)
        invariant Spec.UnblockAll(procs.Value(), all[i].readers) ==
                  Spec.UnblockAll(old(procs.Value()), old(all)[i].readers)
        invariant PipeAt(i)
        decreases |all[i].readers|
      {
        WakeReader(i);
        assert PipeAt(i);
      }
    }

    method WakeAllWriters(i: nat)
      requires Valid() && i < |pipes|
      modifies parts, this`all, procs`force, procs.slots
      ensures Valid() && Became(old(all), i, Spec.WakeAllWriters(old(all)[i], old(procs.Value())))
      ensures SamePids(old(procs.slots[..]), procs.slots[..])
    {
      assert PipeAt(i);
      while pipes[i].writers.count > 0
        invariant Valid() && fds[..] == old(fds[..]) && SamePids(old(procs.slots[..]), procs.slots[..])
        invariant Only(old(all), i) && all[i] == old(all)[i].(writers := all[i].writers)
        invariant Spec.UnblockAll(procs.Value(), all[i].writers) ==
                  Spec.UnblockAll(old(procs.Value()), old(all)[i].writers)
        invariant PipeAt(i)
        decreases |all[i].writers|
      {
        WakeWriter(i);
        assert PipeAt(i);
      }
    }

    // ---------------------------------------------------------------- opening and closing ends

    /** The writers of a named pipe are told of a reader. */
    method WelcomeReader(i: nat)
      requires Valid() && i < |pipes|
      modifies parts, this`all, procs`force, procs.slots
      ensures Valid() && SamePids(old(procs.slots[..]), procs.slots[..])
      ensures Became(old(all), i, ToReader(old(all)[i], old(procs.Value())))
    {
      assert PipeAt(i) && all[i := all[i]] == all;
      if pipes[i].named && pipes[i].writers.count > 0 {
        WakeAllWriters(i);
      } else if pipes[i].named {
        assert all[i].(writers := []) == all[i];
      }
    }

    /** One reader, or one writer, more. */
    method CountOpen(i: nat, reader: bool)
      requires Valid() && i < |pipes|
      modifies parts, this`all
      ensures Valid()
      ensures Only(old(all), i)
      ensures all[i] ==
              (if reader then old(all)[i].(openRead := old(all)[i].openRead + 1)
               else old(all)[i].(openWrite := old(all)[i].openWrite + 1))
    {
      assert PipeAt(i);
      if reader {
        Put(i, pipes[i].openRead + 1, pipes[i].openWrite, pipes[i].eof, pipes[i].opens);
      } else {
        Put(i, pipes[i].openRead, pipes[i].openWrite + 1, pipes[i].eof, pipes[i].opens);
      }
    }

    method OpenRead(i: nat)
      requires Valid() && i < |pipes|
      modifies parts, this`all, procs`force, procs.slots
      ensures Valid() && Became(old(all), i, Spec.OpenRead(old(all)[i], old(procs.Value())))
      ensures SamePids(old(procs.slots[..]), procs.slots[..])
    {
      OpensAre(all[i], procs.Value());
      CountOpen(i, true);
      WelcomeReader(i);
    }

    /** The readers of a named pipe are told of a writer. */
    method WelcomeWriter(i: nat)
      requires Valid() && i < |pipes|
      modifies parts, this`all, procs`force, procs.slots
      ensures Valid() && SamePids(old(procs.slots[..]), procs.slots[..])
      ensures Became(old(all), i, ToWriter(old(all)[i], old(procs.Value())))
    {
      assert PipeAt(i) && all[i := all[i]] == all;
      if pipes[i].named {
        Put(i, pipes[i].openRead, pipes[i].openWrite, false, pipes[i].opens);
        WakeAllReaders(i);
      }
    }

    method OpenWrite(i: nat)
      requires Valid() && i < |pipes|
      modifies parts, this`all, procs`force, procs.slots
      ensures Valid() && Became(old(all), i, Spec.OpenWrite(old(all)[i], old(procs.Value())))
      ensures SamePids(old(procs.slots[..]), procs.slots[..])
    {
      OpensAre(all[i], procs.Value());
      CountOpen(i, false);
      WelcomeWriter(i);
    }

    /** pipe_maybe_free. */
    method MaybeFree(i: nat)
      requires Valid() && i < |pipes|
      modifies parts, this`all
      ensures Valid() && Only(old(all), i) && all[i] == Spec.MaybeFree(old(all)[i])
    {
      assert PipeAt(i);
      if pipes[i].openRead == 0 && pipes[i].openWrite == 0 {
        Reset(i, false);
      }
    }

    /** One reader, or one writer, less. */
    method CountClose(i: nat, reader: bool)
      requires Valid() && i < |pipes|
      modifies parts, this`all
      ensures Valid() && Only(old(all), i)
      ensures all[i] == if reader then old(all)[i].(openRead := Spec.Less(old(all)[i].openRead))
                        else old(all)[i].(openWrite := Spec.Less(old(all)[i].openWrite))
    {
      assert PipeAt(i);
      if reader {
        Put(i, if pipes[i].openRead > 0 then pipes[i].openRead - 1 else 0, pipes[i].openWrite, pipes[i].eof,
            pipes[i].opens);
      } else {
        Put(i, pipes[i].openRead, if pipes[i].openWrite > 0 then pipes[i].openWrite - 1 else 0, pipes[i].eof,
            pipes[i].opens);
      }
    }

    method CloseRead(i: nat)
      requires Valid() && i < |pipes|
      modifies parts, this`all, procs`force, procs.slots
      ensures Valid() && Became(old(all), i, Spec.CloseRead(old(all)[i], old(procs.Value())))
      ensures SamePids(old(procs.slots[..]), procs.slots[..])
    {
      CountClose(i, true);
      assert PipeAt(i);
      if pipes[i].openRead == 0 {
        WakeAllWriters(i);
      }
      MaybeFree(i);
    }

    method LastWriterGone(i: nat)
      requires Valid() && i < |pipes|
      modifies parts, this`all, procs`force, procs.slots
      ensures Valid() && SamePids(old(procs.slots[..]), procs.slots[..])
      ensures var p := old(all)[i];
              Became(old(all), i,
                     Spec.WakeAllReaders(p.(eof := p.eof || (p.named && p.opens >= 2)), old(procs.Value())))
    {
      assert PipeAt(i);
      if pipes[i].named && pipes[i].opens >= 2 {
        Put(i, pipes[i].openRead, pipes[i].openWrite, true, pipes[i].opens);
      }
      WakeAllReaders(i);
    }

    method CloseWrite(i: nat)
      requires Valid() && i < |pipes|
      modifies parts, this`all, procs`force, procs.slots
      ensures Valid() && Became(old(all), i, Spec.CloseWrite(old(all)[i], old(procs.Value())))
      ensures SamePids(old(procs.slots[..]), procs.slots[..])
    {
      CountClose(i, false);
      assert PipeAt(i);
      if pipes[i].openWrite == 0 {
        LastWriterGone(i);
      }
      MaybeFree(i);
    }

    // ---------------------------------------------------------------- reading and writing

    /** The caller goes to sleep among the readers. */
    method SleepReader(i: nat)
      requires Valid() && i < |pipes|
      modifies parts, this`all, procs`force, procs.slots
      ensures Valid() && SamePids(old(procs.slots[..]), procs.slots[..])
      ensures Became(old(all), i, if old(procs.Cur()).None? then (old(all)[i], old(procs.Value()))
        else (old(all)[i].(readers := Spec.Push(old(all)[i].readers, old(procs.Cur()).value)),
              ProcessBlock(old(procs.Value()), old(procs.Cur()).value)))
    {
      if procs.current.Some? {
        var pid := procs.slots[procs.current.value].pid;
        assert PipeAt(i);
        PushReader(i, pid);
        Block(pid);
      } else {
        assert all[i := all[i]] == all;
      }
    }

    /** What pipe_read copies, and the writer it wakes. */
    method Deliver(i: nat, buf: array<Byte>, m: nat)
      requires Valid() && i < |pipes| && m <= |all[i].contents| && m <= buf.Length && Outside(buf)
      modifies parts, this`all, procs`force, procs.slots, buf
      ensures Valid() && SamePids(old(procs.slots[..]), procs.slots[..]) && buf[..m] == old(all)[i].contents[..m]
      ensures var p := old(all)[i].(contents := old(all)[i].contents[m..]);
              Became(old(all), i, if |p.contents| < Spec.PIPE_BUFFER_SIZE then
                     Spec.WakeWriter(p, old(procs.Value())) else (p, old(procs.Value())))
    {
      assert PipeAt(i);
      Drain(i, buf, m);
      WakeAfterRead(i);
    }

    /** pipe_read. */
    method ReadPipe(i: nat, buf: array?<Byte>, count: nat) returns (r: int)
      requires Valid() && i < |pipes| && (buf != null ==> count <= buf.Length && Outside(buf))
      modifies parts, this`all, procs`force, procs.slots, buf
      ensures Valid() && SamePids(old(procs.slots[..]), procs.slots[..])
      ensures buf == null ==> r == 0 && all == old(all) && procs.Value() == old(procs.Value())
      ensures buf != null ==>
                var (p, v, n, data) := Spec.ReadPipe(old(all)[i], old(procs.Value()), count);
                Became(old(all), i, (p, v)) && r == n && |data| <= buf.Length && buf[..|data|] == data
    {
      assert PipeAt(i) && all[i := all[i]] == all;
      if buf == null || count == 0 {
        return 0;
      }
      if pipes[i].count == 0 {
        if pipes[i].named {
          if pipes[i].eof {
            return 0;
          }
        } else if pipes[i].openWrite == 0 {
          return 0;
        }
        SleepReader(i);
        return Spec.BLOCKED;
      }
      var toRead := count;
      if toRead > pipes[i].count {
        toRead := pipes[i].count;
      }
      Deliver(i, buf, toRead);
      return toRead;
    }

    method WakeAfterRead(i: nat)
      requires Valid() && i < |pipes|
      modifies parts, this`all, procs`force, procs.slots
      ensures Valid() && SamePids(old(procs.slots[..]), procs.slots[..])
      ensures Became(old(all), i,
                     if |old(all)[i].contents| < Spec.PIPE_BUFFER_SIZE then
                       Spec.WakeWriter(old(all)[i], old(procs.Value())) else (old(all)[i], old(procs.Value())))
    {
      assert PipeAt(i) && all[i := all[i]] == all;
      if pipes[i].writers.count > 0 && pipes[i].count < Spec.PIPE_BUFFER_SIZE {
        WakeWriter(i);
      }
    }

    /** The caller goes to sleep among the writers. */
    method SleepWriter(i: nat)
      requires Valid() && i < |pipes|
      modifies parts, this`all, procs`force, procs.slots
      ensures Valid() && SamePids(old(procs.slots[..]), procs.slots[..])
      ensures var (p, v, n) := Spec.BlockWriter(old(all)[i], old(procs.Value())); Became(old(all), i, (p, v))
    {
      assert all[i := all[i]] == all;
      if procs.current.Some? {
        var pid := procs.slots[procs.current.value].pid;
        assert PipeAt(i);
        PushWriter(i, pid);
        Block(pid);
      }
    }

    /** What pipe_write copies, and the reader it wakes. */
    method Accept(i: nat, data: seq<Byte>, m: nat)
      requires Valid() && i < |pipes| && m <= |data| && |all[i].contents| + m <= Spec.PIPE_BUFFER_SIZE
      modifies parts, this`all, procs`force, procs.slots
      ensures Valid() && SamePids(old(procs.slots[..]), procs.slots[..])
      ensures var p := old(all)[i].(contents := old(all)[i].contents + data[..m]);
              var v := old(procs.Value());
              Became(old(all), i, if |p.contents| > 0 then Spec.WakeReader(p, v) else (p, v))
    {
      assert PipeAt(i);
      Fill(i, data, m);
      assert PipeAt(i) && all[i := all[i]] == all;
      if pipes[i].readers.count > 0 && pipes[i].count > 0 {
        WakeReader(i);
      }
    }

    /** pipe_write. */
    method WritePipe(i: nat, data: seq<Byte>) returns (r: int)
      requires Valid() && i < |pipes|
      modifies parts, this`all, procs`force, procs.slots
      ensures Valid() && SamePids(old(procs.slots[..]), procs.slots[..])
      ensures var (p, v, n) := Spec.WritePipe(old(all)[i], old(procs.Value()), data);
              Became(old(all), i, (p, v)) && r == n
    {
      assert PipeAt(i) && all[i := all[i]] == all;
      if data == [] {
        return 0;
      }
      if pipes[i].openRead == 0 {
        if pipes[i].named && !pipes[i].eof {
          SleepWriter(i);
          return Spec.BLOCKED;
        }
        return 0;
      }
      if pipes[i].count >= Spec.PIPE_BUFFER_SIZE {
        SleepWriter(i);
        return Spec.BLOCKED;
      }
      var space := Spec.PIPE_BUFFER_SIZE - pipes[i].count;
      var toWrite := if |data| < space then |data| else space;
      Accept(i, data, toWrite);
      return toWrite;
    }

    // ---------------------------------------------------------------- the FD table

    method PutFd(f: nat, fd: Spec.Fd)
      requires Valid() && f < fds.Length
      modifies fds
      ensures Valid() && Value() == old(Value()).(fds := old(fds[..])[f := fd])
    {
      fds[f] := fd;
      assert fds[..] == old(fds[..])[f := fd];
      forall j: nat | j < |pipes| ensures Own(j) <= parts && PipeAt(j) { assert old(PipeAt(j)); }
    }

    method NotifyOpen(d: Spec.Fd)
      requires Valid()
      modifies parts, this`all, procs`force, procs.slots
      ensures Valid() && Value() == Opened(old(Value()), d) && SamePids(old(procs.slots[..]), procs.slots[..])
    {
      if d.kind == Spec.ReadEnd && d.pipe < |pipes| {
        OpenRead(d.pipe);
      } else if d.kind == Spec.WriteEnd && d.pipe < |pipes| {
        OpenWrite(d.pipe);
      }
    }

    method NotifyClose(d: Spec.Fd)
      requires Valid()
      modifies parts, this`all, procs`force, procs.slots
      ensures Valid() && Value() == Returned(old(Value()), d) && SamePids(old(procs.slots[..]), procs.slots[..])
    {
      if d.kind == Spec.ReadEnd && d.pipe < |pipes| {
        CloseRead(d.pipe);
      } else if d.kind == Spec.WriteEnd && d.pipe < |pipes| {
        CloseWrite(d.pipe);
      }
    }

    /** fd_incref. */
    method Incref(f: nat)
      requires Valid()
      modifies parts, this`all, procs`force, procs.slots, fds
      ensures Valid() && Value() == Spec.Incref(old(Value()), f) && SamePids(old(procs.slots[..]), procs.slots[..])
    {
      if f >= Spec.MAX_FDS || fds[f].kind == Spec.NoFd {
        return;
      }
      AddRef(f);
    }

    method AddRef(f: nat)
      requires Valid() && f < fds.Length && fds[f].kind != Spec.NoFd
      modifies parts, this`all, procs`force, procs.slots, fds
      ensures Valid() && Value() == Spec.Incref(old(Value()), f) && SamePids(old(procs.slots[..]), procs.slots[..])
    {
      var d := fds[f];
      ghost var s := Value();
      IncrefIs(s, f);
      assert s.fds[f] == d;
      ghost var s1 := s.(fds := s.fds[f := d.(refs := d.refs + 1)]);
      assert Spec.Incref(s, f) == Opened(s1, d);
      PutFd(f, d.(refs := d.refs + 1));
      assert Value() == s1;
      NotifyOpen(d);
    }

    /** fd_decref. */
    method Decref(f: nat)
      requires Valid()
      modifies parts, this`all, procs`force, procs.slots, fds
      ensures Valid() && Value() == Spec.Decref(old(Value()), f) && SamePids(old(procs.slots[..]), procs.slots[..])
    {
      if f >= Spec.MAX_FDS || fds[f].kind == Spec.NoFd {
        return;
      }
      var d := fds[f];
      if d.refs > 0 {
        ReturnRef(f);
      } else if d.kind != Spec.Terminal {
        PutFd(f, Spec.Fd(Spec.NoFd, 0, 0));
      } else {
        assert fds[..][f := fds[f]] == fds[..];
      }
    }

    method ReturnRef(f: nat)
      requires Valid() && f < fds.Length && fds[f].kind != Spec.NoFd && fds[f].refs > 0
      modifies parts, this`all, procs`force, procs.slots, fds
      ensures Valid() && Value() == Spec.Decref(old(Value()), f) && SamePids(old(procs.slots[..]), procs.slots[..])
    {
      DecrefIs(Value(), f);
      var d := fds[f];
      ghost var s := Value();
      var d' := d.(refs := d.refs - 1);
      PutFd(f, d');
      NotifyClose(d);
      ReturnedFds(s.(fds := s.fds[f := d']), d, s.fds[f := Spec.Reclaim(d')]);
      if fds[f].refs == 0 && fds[f].kind != Spec.Terminal {
        PutFd(f, Spec.Fd(Spec.NoFd, 0, 0));
      }
      assert fds[..] == s.fds[f := Spec.Reclaim(d')];
    }

    /** fd_alloc and the first reference: fd_create_pipe. */
    method CreateFd(i: nat, kind: Spec.Kind) returns (r: int)
      requires Valid() && i < |pipes|
      modifies parts, this`all, procs`force, procs.slots, fds
      ensures Valid() && (Value(), r) == Spec.CreateFd(old(Value()), i, kind)
      ensures SamePids(old(procs.slots[..]), procs.slots[..])
    {
      var f := FreeFd();
      if f.None? {
        return Spec.ERROR;
      }
      PutFd(f.value, Spec.Fd(kind, 0, i));
      Incref(f.value);
      return f.value;
    }

    method FreeFd() returns (r: Option<nat>)
      requires Valid()
      ensures r == Spec.FreeFd(fds[..], 0)
    {
      for f := 0 to fds.Length
        invariant Spec.FreeFd(fds[..], 0) == Spec.FreeFd(fds[..], f)
      {
        if fds[f].kind == Spec.NoFd {
          return Some(f);
        }
      }
      return None;
    }

    // ---------------------------------------------------------------- system calls

    /** pipe_open. */
    method PipeOpen(name: Option<string>) returns (r: Option<nat>)
      requires Valid()
      modifies parts, this`all
      ensures Valid() && (all, r) == Spec.PipeOpen(old(all), name)
    {
      if name.Some? {
        r := OpenNamed(name.value);
        if r.Some? {
          return;
        }
      }
      r := StartNew(name);
    }

    /** One more open of an existing named pipe. */
    method OpenNamed(name: string) returns (r: Option<nat>)
      requires Valid()
      modifies parts, this`all
      ensures Valid() && r == Spec.FindNamed(old(all), name, 0)
      ensures all == if r.Some? then old(all)[r.value := Spec.Reopened(old(all)[r.value])] else old(all)
    {
      r := FindNamed(name);
      if r.Some? {
        var i := r.value;
        assert Valid() && PipeAt(i);
        Put(i, pipes[i].openRead, pipes[i].openWrite, pipes[i].eof, pipes[i].opens + 1);
      }
    }

    method StartNew(name: Option<string>) returns (r: Option<nat>)
      requires Valid()
      modifies parts, this`all
      ensures Valid() && r == Spec.FindFree(old(all), 0)
      ensures all == if r.None? then old(all)
        else old(all)[r.value := Spec.Begun(name)]
    {
      r := FindFree();
      if r.Some? {
        Begin(r.value, name);
      }
    }

    /** pipe_alloc, and the name of a named pipe. */
    method Begin(i: nat, name: Option<string>)
      requires Valid() && i < |pipes|
      modifies parts, this`all
      ensures Valid() && Only(old(all), i) && all[i] == Spec.Begun(name)
    {
      assert PipeAt(i);
      Reset(i, true);
      if name.Some? {
        Name(i, if |name.value| < Spec.PIPE_NAME_LEN then name.value else name.value[..Spec.PIPE_NAME_LEN - 1]);
      }
    }

    method FindNamed(name: string) returns (r: Option<nat>)
      requires Valid()
      ensures r == Spec.FindNamed(all, name, 0)
    {
      for i := 0 to |pipes|
        invariant Spec.FindNamed(all, name, 0) == Spec.FindNamed(all, name, i)
      {
        assert PipeAt(i);
        if pipes[i].inUse && pipes[i].named && pipes[i].name == name {
          return Some(i);
        }
      }
      return None;
    }

    method FindFree() returns (r: Option<nat>)
      requires Valid()
      ensures r == Spec.FindFree(all, 0)
    {
      for i := 0 to |pipes|
        invariant Spec.FindFree(all, 0) == Spec.FindFree(all, i)
      {
        assert PipeAt(i);
        if !pipes[i].inUse {
          return Some(i);
        }
      }
      return None;
    }

    /** pipe_create_fds. */
    method CreateBoth(i: nat) returns (r: Option<(nat, nat)>)
      requires Valid() && i < |pipes|
      modifies parts, this`all, procs`force, procs.slots, fds
      ensures Valid() && (Value(), r) == Spec.CreateBoth(old(Value()), i)
      ensures SamePids(old(procs.slots[..]), procs.slots[..])
    {
      var readFd := CreateFd(i, Spec.ReadEnd);
      if readFd < 0 {
        return None;
      }
      var writeFd := CreateFd(i, Spec.WriteEnd);
      if writeFd < 0 {
        Decref(readFd);
        return None;
      }
      return Some((readFd, writeFd));
    }

    /** The caller's two integers are no part of the tables. */
    ghost predicate OutsideInts(out: array<int>) {
      out.Length == 2 && out !in parts
    }

    /** What the two ends of a pipe, or their absence, mean for the caller. */
    ghost predicate Answered(out: array<int>, was: seq<int>, ends: Option<(nat, nat)>, r: int)
      reads out
    {
      if ends.Some? then r == 0 && out[..] == [ends.value.0, ends.value.1] else r == Spec.ERROR && out[..] == was
    }

    /** sys_pipe; a null array is refused. */
    method SysPipe(out: array?<int>) returns (r: int)
      requires Valid() && (out != null ==> OutsideInts(out))
      modifies parts, this`all, procs`force, procs.slots, fds, out
      ensures Valid()
      ensures out == null ==> r == Spec.ERROR && Value() == old(Value())
      ensures out != null ==>
                var (s', ends) := Spec.SysPipe(old(Value()), None);
                Value() == s' && Answered(out, old(out[..]), ends, r)
    {
      if out == null {
        return Spec.ERROR;
      }
      r := OpenEnds(None, out);
    }

    /** sys_pipe_open; a null name or array is refused. */
    method SysPipeOpen(name: Option<string>, out: array?<int>) returns (r: int)
      requires Valid() && (out != null ==> OutsideInts(out))
      modifies parts, this`all, procs`force, procs.slots, fds, out
      ensures Valid()
      ensures name.None? || out == null ==> r == Spec.ERROR && Value() == old(Value())
      ensures name.Some? && out != null ==>
                var (s', ends) := Spec.SysPipe(old(Value()), name);
                Value() == s' && Answered(out, old(out[..]), ends, r)
    {
      if name.None? || out == null {
        return Spec.ERROR;
      }
      r := OpenEnds(name, out);
    }

    /** What both do: a pipe and its two ends. */
    method OpenEnds(name: Option<string>, out: array<int>) returns (r: int)
      requires Valid() && OutsideInts(out)
      modifies parts, this`all, procs`force, procs.slots, fds, out
      ensures Valid()
      ensures var (s', ends) := Spec.SysPipe(old(Value()), name); Value() == s' && Answered(out, old(out[..]), ends, r)
    {
      var ends := MakePipe(name);
      if ends.None? {
        return Spec.ERROR;
      }
      label made:
      out[0], out[1] := ends.value.0, ends.value.1;
      forall j: nat | j < |pipes| ensures Own(j) <= parts && PipeAt(j) { assert old@made(PipeAt(j)); }
      return 0;
    }

    method MakePipe(name: Option<string>) returns (r: Option<(nat, nat)>)
      requires Valid()
      modifies parts, this`all, procs`force, procs.slots, fds
      ensures Valid() && (Value(), r) == Spec.SysPipe(old(Value()), name)
    {
      var i := PipeOpen(name);
      if i.None? {
        return None;
      }
      r := CreateBoth(i.value);
    }

    /** A standard stream of a live process is pointed at a FD. */
    method Point(slot: nat, target: nat, f: int)
      requires Valid() && slot < procs.slots.Length && Live(procs.slots[slot])
      modifies procs.slots
      ensures Valid() && Value() == Spec.Point(old(Value()), old(procs.slots[slot].pid), target, f)
      ensures SamePids(old(procs.slots[..]), procs.slots[..])
    {
      ByPidAt(procs.slots[..], slot);
      var b := procs.slots[slot];
      procs.Put(slot, if target == 0 then b.(stdin := f) else b.(stdout := f));
      forall j: nat | j < |pipes| ensures Own(j) <= parts && PipeAt(j) { assert old(PipeAt(j)); }
    }

    method Redirect(slot: nat, target: nat, f: int)
      requires Valid() && slot < procs.slots.Length && Live(procs.slots[slot])
      modifies parts, this`all, procs`force, procs.slots, fds
      ensures Valid() && old(procs.slots[slot].pid) in old(procs.Procs())
      ensures Value() == Spec.Redirect(old(Value()), old(procs.slots[slot].pid), target, f)
    {
      ByPidAt(procs.slots[..], slot);
      var was := if target == 0 then procs.slots[slot].stdin else procs.slots[slot].stdout;
      if was >= 0 {
        Decref(was);
      }
      Point(slot, target, f);
      if f >= 0 {
        Incref(f);
      }
    }

    /** sys_dup2. */
    method Dup2(oldFd: nat, newFd: nat) returns (r: int)
      requires Valid()
      modifies parts, this`all, procs`force, procs.slots, fds
      ensures Valid() && (Value(), r) == Spec.Dup2(old(Value()), oldFd, newFd)
    {
      if newFd > 1 || oldFd >= Spec.MAX_FDS || fds[oldFd].kind == Spec.NoFd || procs.current.None? {
        return Spec.ERROR;
      }
      var slot := procs.current.value;
      ByPidAt(procs.slots[..], slot);
      if (if newFd == 0 then procs.slots[slot].stdin else procs.slots[slot].stdout) == oldFd {
        return oldFd;
      }
      Redirect(slot, newFd, oldFd);
      return oldFd;
    }

    /** process_pipe_setup. */
    method Setup(pid: nat, f: int, target: nat)
      requires Valid()
      modifies parts, this`all, procs`force, procs.slots, fds
      ensures Valid() && Value() == Spec.Setup(old(Value()), pid, f, target)
    {
      var child := procs.Get(pid);
      if child.None? || target > 1 {
        return;
      }
      Redirect(child.value, target, f);
    }

    method Real(n: nat, lastStd: nat) returns (r: Option<nat>)
      requires Valid()
      ensures r == Spec.Real(Value(), n, lastStd)
    {
      if procs.current.None? {
        return None;
      }
      ByPidAt(procs.slots[..], procs.current.value);
      if n <= lastStd {
        var b := procs.slots[procs.current.value];
        var f := if n == 0 then b.stdin else b.stdout;
        return if f < 0 then None else Some(f);
      }
      return Some(n % 0x1_0000_0000);
    }

    /** A read from the terminal, given what the keyboard has ready. */
    method ReadTerminal(buf: array<Byte>, count: nat, typed: Option<seq<Byte>>) returns (r: int)
      requires Valid() && procs.current.Some? && count <= buf.Length && Outside(buf)
      modifies procs`force, procs.slots, buf
      ensures Valid() && old(procs.Cur()).Some? && old(procs.Cur()).value in old(procs.Procs())
      ensures var (s', k, data) := Spec.ReadTerminal(old(Value()), old(procs.Cur()).value, count, typed);
              Value() == s' && r == k && |data| <= buf.Length && buf[..|data|] == data
    {
      var slot := procs.current.value;
      ByPidAt(procs.slots[..], slot);
      if procs.slots[slot].foreground == 0 {
        return 0;
      }
      if typed.None? {
        SleepAtTerminal(slot);
        return Spec.BLOCKED;
      }
      var m := if |typed.value| > count then count else |typed.value|;
      CopyOut(typed.value, m, buf);
      return m;
    }

    method SleepAtTerminal(slot: nat)
      requires Valid() && procs.current == Some(slot)
      modifies procs`force, procs.slots
      ensures Valid() && old(procs.Cur()).Some? && old(procs.Cur()).value in old(procs.Procs())
      ensures var pid := old(procs.Cur()).value;
              var b := old(procs.Procs())[pid];
              Value() == old(Value()).(view := View(old(procs.Procs())[pid := b.(state := Blocked)], Some(pid), true))
    {
      ByPidAt(procs.slots[..], slot);
      procs.Put(slot, procs.slots[slot].(state := Blocked));
      procs.force := true;
      forall j: nat | j < |pipes| ensures Own(j) <= parts && PipeAt(j) { assert old(PipeAt(j)); }
    }

    method CopyOut(data: seq<Byte>, m: nat, buf: array<Byte>)
      requires Valid() && m <= |data| && m <= buf.Length && Outside(buf)
      modifies buf
      ensures Valid() && Value() == old(Value()) && buf[..m] == data[..m]
    {
      for i := 0 to m
        invariant buf[..i] == data[..i]
      {
        buf[i] := data[i];
      }
      forall j: nat | j < |pipes| ensures Own(j) <= parts && PipeAt(j) { assert old(PipeAt(j)); }
    }

    /** sys_read; `typed` is what the keyboard has ready for a read from the terminal. */
    method SysRead(n: nat, buf: array?<Byte>, count: nat, typed: Option<seq<Byte>>) returns (r: int)
      requires Valid() && (buf != null ==> count <= buf.Length && Outside(buf))
      modifies parts, this`all, procs`force, procs.slots, buf
      ensures Valid()
      ensures buf == null ==> r == 0 && Value() == old(Value())
      ensures buf != null ==>
                var (s', k, data) := Spec.SysRead(old(Value()), n, count, typed);
                Value() == s' && r == k && |data| <= buf.Length && buf[..|data|] == data
    {
      if buf == null || count == 0 {
        return 0;
      }
      var f := Real(n, Spec.FD_STDIN);
      if f.None? || f.value >= Spec.MAX_FDS {
        return 0;
      }
      var d := fds[f.value];
      if d.kind == Spec.Terminal {
        r := ReadTerminal(buf, count, typed);
      } else if d.kind == Spec.ReadEnd && d.pipe < Spec.MAX_PIPES {
        r := ReadPipe(d.pipe, buf, count);
      } else {
        r := 0;
      }
    }

    /** sys_write; a null buffer, like an empty one, comes to no data. */
    method SysWrite(n: nat, data: seq<Byte>) returns (r: int)
      requires Valid()
      modifies parts, this`all, procs`force, procs.slots
      ensures Valid() && (Value(), r) == Spec.SysWrite(old(Value()), n, data)
    {
      var f := Real(n, Spec.FD_STDOUT);
      if f.None? || f.value >= Spec.MAX_FDS {
        return 0;
      }
      var d := fds[f.value];
      if d.kind == Spec.Terminal {
        return |data|;
      } else if d.kind == Spec.WriteEnd && d.pipe < Spec.MAX_PIPES {
        r := WritePipe(d.pipe, data);
      } else {
        r := 0;
      }
    }

    // ---------------------------------------------------------------- death

    /** pipe_cleanup_for_process. */
    method Cleanup(pid: nat)
      requires Valid()
      modifies parts, this`all
      ensures Valid() && Value() == Spec.PipeCleanup(old(Value()), pid)
    {
      ghost var t := Spec.PipeCleanup(Value(), pid).pipes;
      for i := 0 to |pipes|
        invariant Valid() && all == t[..i] + old(all)[i..]
      {
        ghost var before := all;
        CleanOne(i, pid);
        CleanStep(old(all), t, before, all, i);
      }
      assert all == t;
    }

    static lemma CleanStep(was: seq<Spec.Pipe>, t: seq<Spec.Pipe>, a: seq<Spec.Pipe>, b: seq<Spec.Pipe>, i: nat)
      requires i < |was| == |t| && a == t[..i] + was[i..] && |b| == |a| && b == a[i := b[i]] && b[i] == t[i]
      ensures b == t[..i + 1] + was[i + 1..] && a[i] == was[i]
    {
    }

    method CleanOne(i: nat, pid: nat)
      requires Valid() && i < |pipes|
      modifies parts, this`all
      ensures Valid() && Only(old(all), i) && all[i] == Spec.Unqueued(old(all)[i], pid)
    {
      assert PipeAt(i);
      if pipes[i].inUse {
        Unqueue(i, pid);
      }
    }

    /** The references to both standard streams are given back. */
    method DropBoth(stdin: int, stdout: int)
      requires Valid()
      modifies parts, this`all, procs`force, procs.slots, fds
      ensures Valid() && Value() == Spec.DropBoth(old(Value()), stdin, stdout)
      ensures SamePids(old(procs.slots[..]), procs.slots[..])
    {
      if stdin >= 0 {
        Decref(stdin);
      }
      if stdout >= 0 {
        Decref(stdout);
      }
    }

    /** Both streams of a process are marked as closed. */
    method Unpoint(slot: nat)
      requires Valid() && slot < procs.slots.Length && Live(procs.slots[slot])
      modifies procs.slots
      ensures Valid() && SamePids(old(procs.slots[..]), procs.slots[..])
      ensures var pid := old(procs.slots[slot].pid);
              Value() == Spec.Point(Spec.Point(old(Value()), pid, 0, -1), pid, 1, -1)
    {
      Point(slot, 0, -1);
      Point(slot, 1, -1);
    }

    /** process_release_fds. */
    method ReleaseFds(slot: nat)
      requires Valid() && slot < procs.slots.Length && Live(procs.slots[slot])
      modifies parts, this`all, procs`force, procs.slots, fds
      ensures Valid() && Value() == Spec.ReleaseFds(old(Value()), old(procs.slots[slot].pid))
      ensures SamePids(old(procs.slots[..]), procs.slots[..])
    {
      ByPidAt(procs.slots[..], slot);
      DropBoth(procs.slots[slot].stdin, procs.slots[slot].stdout);
      Unpoint(slot);
    }
  }
}
