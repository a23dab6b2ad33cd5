/**
 How much a read or a write of a pipe transfers and what it answers, whom it wakes, and that what is written to one end
 comes out at the other.
 */
module PipeAmounts {
  import opened Processes
  import opened PipeSpec
  import opened PipeRefs
  import opened PipeQueues
  import opened PipeStreams

  // ---------------------------------------------------------------- one pipe

  /** A write with nobody left to read: it fails, or, for a named pipe that has not ended, it waits. */
  predicate NobodyReads(p: Pipe) { p.openRead == 0 }

  /** The cases of a write: nothing to do; no reader; no room; or as much as there is room for, and the first reader
      asleep is woken and nobody else. */
  lemma WriteCases(p: Pipe, v: View, data: seq<Byte>)
    requires v.cur.Some? && |p.contents| <= PIPE_BUFFER_SIZE
    ensures var (p', v', r) := WritePipe(p, v, data);
            var sleeps := data != [] && if NobodyReads(p) then p.named && !p.eof else |p.contents| == PIPE_BUFFER_SIZE;
            && (sleeps <==> r == BLOCKED)
            && (sleeps ==> p' == p.(writers := Push(p.writers, v.cur.value)) && v' == ProcessBlock(v, v.cur.value))
            && (!sleeps && (data == [] || NobodyReads(p)) ==> r == 0 && p' == p && v' == v)
            && (!sleeps && data != [] && !NobodyReads(p) ==>
                && 0 < r <= |data| && p'.contents == p.contents + data[..r]
                && (r == |data| || |p'.contents| == PIPE_BUFFER_SIZE) && |p'.contents| <= PIPE_BUFFER_SIZE
                && p' == p.(contents := p'.contents, readers := if p.readers == [] then [] else p.readers[1..])
                && v' == (if p.readers == [] then v else ProcessUnblock(v, p.readers[0])))
  {
  }

  /** An empty pipe to which nobody can write any more, or, if it is named, that has ended. */
  predicate Ended(p: Pipe) { if p.named then p.eof else p.openWrite == 0 }

  /** The cases of a read: nothing asked for; nothing there, and the end or a wait; or as much as is asked for or there,
      and the first writer asleep is woken and nobody else. */
  lemma ReadCases(p: Pipe, v: View, count: nat)
    requires v.cur.Some? && |p.contents| <= PIPE_BUFFER_SIZE
    ensures var (p', v', r, data) := ReadPipe(p, v, count);
            var sleeps := count > 0 && p.contents == [] && !Ended(p);
            && (sleeps <==> r == BLOCKED) && (r != BLOCKED ==> r == |data|) && p.contents == data + p'.contents
            && (sleeps ==> p' == p.(readers := Push(p.readers, v.cur.value)) && v' == ProcessBlock(v, v.cur.value))
            && (!sleeps && (count == 0 || p.contents == []) ==> r == 0 && p' == p && v' == v)
            && (!sleeps && count > 0 && p.contents != [] ==>
                && 0 < r <= count && (r == count || p'.contents == [])
                && p' == p.(contents := p'.contents, writers := if p.writers == [] then [] else p.writers[1..])
                && v' == (if p.writers == [] then v else ProcessUnblock(v, p.writers[0])))
  {
  }

  // ---------------------------------------------------------------- through FDs, in every run

  /** In every run: a write to a pipe that has room and a read end open accepts all of the data or fills the buffer, and
      what it accepts it appends. */
  lemma WriteAmount(t: Traced, es: seq<Event>, n: nat, data: seq<Byte>)
    requires Initial(t) && Runs(t, es) && WriteTo(End(t, es).s, n).Some? && data != []
    requires var p := End(t, es).s.pipes[WriteTo(End(t, es).s, n).value];
             p.openRead > 0 && |p.contents| < PIPE_BUFFER_SIZE
    ensures var (s, i) := (End(t, es).s, WriteTo(End(t, es).s, n).value);
            var (s', r) := SysWrite(s, n, data);
            && i < |s'.pipes| && s' == Next(s, Write(n, data)) && 0 < r <= |data|
            && s'.pipes[i].contents == s.pipes[i].contents + data[..r]
            && (r == |data| || |s'.pipes[i].contents| == PIPE_BUFFER_SIZE)
  {
    InitialInv(t);
    PipeStreams.RunKeeps(t, es);
    var e := End(t, es);
    var i := WriteTo(e.s, n).value;
    assert FdOk(e.s.fds[Real(e.s, n, FD_STDOUT).value], e.s.pipes) && LogOk(e.s.pipes[i], e.logs[i]);
    WriteCases(e.s.pipes[i], e.s.view, data);
  }

  /** And a read of a pipe with something in it answers how much it delivers, which is all that was asked for or all
      there is. */
  lemma ReadAmount(t: Traced, es: seq<Event>, n: nat, count: nat, typed: Option<seq<Byte>>)
    requires Initial(t) && Runs(t, es) && ReadFrom(End(t, es).s, n).Some? && count > 0
    requires End(t, es).s.pipes[ReadFrom(End(t, es).s, n).value].contents != []
    ensures var (s, i) := (End(t, es).s, ReadFrom(End(t, es).s, n).value);
            var (s', r, data) := SysRead(s, n, count, typed);
            && i < |s'.pipes| && s' == Next(s, Read(n, count, typed)) && 0 < r == |data| <= count
            && s.pipes[i].contents == data + s'.pipes[i].contents
            && (r == count || s'.pipes[i].contents == [])
  {
    InitialInv(t);
    PipeStreams.RunKeeps(t, es);
    var e := End(t, es);
    var i := ReadFrom(e.s, n).value;
    assert FdOk(e.s.fds[Real(e.s, n, FD_STDIN).value], e.s.pipes) && LogOk(e.s.pipes[i], e.logs[i]);
    ReadCases(e.s.pipes[i], e.s.view, count);
  }

  // ---------------------------------------------------------------- the ends of a pipe

  /** The two FDs of a new pipe. */
  predicate AreEnds(s: Pipes, i: nat, r: nat, w: nat) {
    && i < |s.pipes| && r < |s.fds| && w < |s.fds| && r != w
    && s.fds[r] == Fd(ReadEnd, 1, i) && s.fds[w] == Fd(WriteEnd, 1, i)
  }

  /** sys_pipe answers with a read end and a write end of one new pipe, which nothing else refers to, in FDs that were
      not in use. */
  lemma PipeIs(s: Pipes)
    requires RefInv(s.pipes, s.fds) && SysPipe(s, None).1.Some?
    ensures var (s', ends) := SysPipe(s, None);
            var (r, w) := ends.value;
            exists i: nat {:trigger AreEnds(s', i, r, w)} ::
              && AreEnds(s', i, r, w) && i < |s.pipes| && !s.pipes[i].inUse && r < |s.fds| && w < |s.fds|
              && s.fds[r].kind == NoFd && s.fds[w].kind == NoFd && s'.view == s.view
              && s' == s.(pipes := s.pipes[i := Begun(None).(openRead := 1, openWrite := 1)],
                          fds := s.fds[r := Fd(ReadEnd, 1, i)][w := Fd(WriteEnd, 1, i)])
  {
    var (ps, i) := PipeOpen(s.pipes, None);
    var t := s.(pipes := ps);
    PipeOpenRefs(s.pipes, s.fds, None);
    var (s1, r) := CreateFd(t, i.value, ReadEnd);
    var (s2, w) := CreateFd(s1, i.value, WriteEnd);
    CreateFdRefs(t, i.value, ReadEnd);
    CreateFdRefs(s1, i.value, WriteEnd);
    assert s1.fds == s.fds[r := Fd(ReadEnd, 1, i.value)];
    assert s2.fds == s1.fds[w := Fd(WriteEnd, 1, i.value)];
    assert s2.pipes == s.pipes[i.value := Begun(None).(openRead := 1, openWrite := 1)];
    assert AreEnds(s2, i.value, r, w);
  }

  /** What is written to one end of an empty pipe comes out at the other. */
  lemma EndsCarry(s: Pipes, i: nat, r: nat, w: nat, data: seq<Byte>, count: nat)
    requires AreEnds(s, i, r, w) && 1 < r < |s.fds| && 1 < w < |s.fds| <= MAX_FDS && i < |s.pipes| && CallerRuns(s.view)
    requires s.pipes[i] == Begun(None).(openRead := 1, openWrite := 1)
    requires 0 < |data| <= PIPE_BUFFER_SIZE && |data| <= count
    ensures var (s2, m) := SysWrite(s, w, data);
            var (s3, n, got) := SysRead(s2, r, count, None);
            m == |data| == n && got == data
  {
    var p := s.pipes[i];
    WriteCases(p, s.view, data);
    var (p', v', m) := WritePipe(p, s.view, data);
    assert [] + data[..m] == data;
    assert Real(s, w, FD_STDOUT) == Some(w);
    var s2 := SysWrite(s, w, data).0;
    assert s2.pipes[i] == p' && s2.view == s.view && s2.fds == s.fds;
    assert Real(s2, r, FD_STDIN) == Some(r);
    ReadCases(p', s.view, count);
    var (p3, v3, n, got) := ReadPipe(p', s.view, count);
    assert p3.contents == [] ==> got + [] == got;
  }

  /** What is written to the write end of a new pipe comes out at its read end. */
  lemma PipeCarries(s: Pipes, data: seq<Byte>, count: nat)
    requires RefInv(s.pipes, s.fds) && SysPipe(s, None).1.Some? && CallerRuns(s.view)
    requires 2 <= |s.fds| <= MAX_FDS && s.fds[0].kind == Terminal && s.fds[1].kind == Terminal
    requires 0 < |data| <= PIPE_BUFFER_SIZE && |data| <= count
    ensures var (s1, ends) := SysPipe(s, None);
            var (s2, m) := SysWrite(s1, ends.value.1, data);
            var (s3, r, got) := SysRead(s2, ends.value.0, count, None);
            m == |data| == r && got == data
  {
    var (s1, ends) := SysPipe(s, None);
    var (r, w) := ends.value;
    PipeIs(s);
    var i: nat :| AreEnds(s1, i, r, w) && i < |s1.pipes| && s1.view == s.view && r < |s.fds| && w < |s.fds|
             && s.fds[r].kind == NoFd && s.fds[w].kind == NoFd && |s1.fds| == |s.fds|
             && s1.pipes[i] == Begun(None).(openRead := 1, openWrite := 1);
    EndsCarry(s1, i, r, w, data, count);
  }
}
