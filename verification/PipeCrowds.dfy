/**
 Several readers or writers at one pipe: each write wakes one reader, and each read one writer, whatever they bring. So
 others may sleep on although there is something for them, and this is the only way it comes about.
 */
module PipeCrowds {
  import opened Processes
  import opened PipeSpec
  import opened PipeQueues
  import opened PipeRefs
  import opened PipeStreams
  import PipeLeaks

  const WRITER: nat := 1
  const FIRST: nat := 2
  const SECOND: nat := 3

  function Someone(pid: nat, state: State): Pcb {
    Pcb(pid, DEFAULT_PRIORITY, DEFAULT_PRIORITY, 0, state, 1, 0, 1, 0, 0, 0, {}, {}, None, None, 0)
  }

  /** The three processes, one of them on the CPU. */
  function Three(cur: nat, a: State, b: State, c: State): View {
    View(map[WRITER := Someone(WRITER, a), FIRST := Someone(FIRST, b), SECOND := Someone(SECOND, c)], Some(cur), false)
  }

  /** The only pipe has FD 2 for its read end and FD 3 for its write end. */
  ghost predicate Only(s: Pipes, p: Pipe) {
    && |s.pipes| == MAX_PIPES && s.pipes[0] == p && (forall i :: 1 <= i < |s.pipes| ==> s.pipes[i] == Closed)
    && |s.fds| == MAX_FDS && s.fds[2] == Fd(ReadEnd, 1, 0) && s.fds[3] == Fd(WriteEnd, 1, 0)
  }

  /** An anonymous pipe with both ends open. */
  function Opened(contents: seq<Byte>, readers: seq<nat>): Pipe {
    Closed.(contents := contents, openRead := 1, openWrite := 1, readers := readers, inUse := true)
  }

  lemma OnlyWaiters(s: Pipes, p: Pipe)
    requires Only(s, p) && p.writers == []
    ensures AllWaiters(s.pipes) <= Elems(p.readers)
  {
    forall x | x in AllWaiters(s.pipes) ensures x in p.readers {
      var i: nat :| i < |s.pipes| && x in Waiters(s.pipes[i]);
      assert i == 0;
    }
  }

  // ---------------------------------------------------------------- the events

  lemma OpenGives(view: View)
    ensures var s := PipeLeaks.Fresh(view).s;
            Only(Next(s, Open(None)), Opened([], [])) && Next(s, Open(None)).view == view
  {
    var s := PipeLeaks.Fresh(view).s;
    var (ps, i) := PipeOpen(s.pipes, None);
    assert i == Some(0) && ps[0] == Begun(None);
    var t := s.(pipes := ps);
    PipeLeaks.FreeFdIs(t.fds, 0, 2);
    var (s1, r) := CreateFd(t, 0, ReadEnd);
    assert s1.fds == t.fds[2 := Fd(ReadEnd, 1, 0)];
    PipeLeaks.FreeFdIs(s1.fds, 0, 3);
  }

  /** The CPU goes to another, and those who sleep sleep on. */
  lemma CpuGoes(s: Pipes, p: Pipe, v: View)
    requires Only(s, p) && p.writers == [] && forall x :: x in p.readers ==> Asleep(v.procs, x)
    ensures Enabled(s, Others(v)) && Only(Next(s, Others(v)), p) && Next(s, Others(v)).view == v
  {
    OnlyWaiters(s, p);
  }

  lemma ReadsNothing(s: Pipes, readers: seq<nat>)
    requires Only(s, Opened([], readers)) && CallerRuns(s.view) && |readers| < MAX_PROCESSES
    requires s.view.cur.value !in readers
    ensures var e := Read(2, 1, None);
            Enabled(s, e) && Only(Next(s, e), Opened([], readers + [s.view.cur.value]))
  {
  }

  lemma WritesTwo(s: Pipes, x: Byte, y: Byte, readers: seq<nat>)
    requires Only(s, Opened([], readers)) && CallerRuns(s.view) && readers != []
    ensures var e := Write(3, [x, y]); Enabled(s, e) && Only(Next(s, e), Opened([x, y], readers[1..]))
  {
    assert [] + [x, y] == [x, y];
  }

  lemma ReadsOne(s: Pipes, x: Byte, y: Byte, readers: seq<nat>)
    requires Only(s, Opened([x, y], readers)) && CallerRuns(s.view)
    ensures var e := Read(2, 1, None);
            Enabled(s, e) && Only(Next(s, e), Opened([y], readers)) && Next(s, e).view == s.view
  {
    assert [x, y][1..] == [y];
  }

  // ---------------------------------------------------------------- the run

  lemma {:induction false} RunsOn(t: Traced, es: seq<Event>, e: Event)
    requires Runs(t, es) && Enabled(End(t, es).s, e)
    ensures Runs(t, es + [e]) && End(t, es + [e]) == PipeStreams.After(End(t, es), e)
    decreases |es|
  {
    if es == [] {
      assert [] + [e] == [e] && [e][1..] == [];
    } else {
      RunsOn(PipeStreams.After(t, es[0]), es[1..], e);
      assert (es + [e])[1..] == es[1..] + [e];
    }
  }

  function Beginning(): Traced { PipeLeaks.Fresh(Three(WRITER, Running, State.Ready, State.Ready)) }

  /** es leads to a state in which the pipe is p. */
  ghost predicate Reached(es: seq<Event>, s: Pipes, p: Pipe) {
    Runs(Beginning(), es) && End(Beginning(), es).s == s && Only(s, p)
  }

  lemma Further(es: seq<Event>, s: Pipes, p: Pipe, e: Event, p': Pipe)
    requires Reached(es, s, p) && Enabled(s, e) && Only(Next(s, e), p')
    ensures Reached(es + [e], Next(s, e), p')
  {
    RunsOn(Beginning(), es, e);
  }

  /** Somebody else gets the CPU and makes a call. */
  lemma Turn(es: seq<Event>, s: Pipes, p: Pipe, v: View) returns (es': seq<Event>, s': Pipes)
    requires Reached(es, s, p) && p.writers == [] && forall x :: x in p.readers ==> Asleep(v.procs, x)
    ensures Reached(es', s', p) && s'.view == v
  {
    CpuGoes(s, p, v);
    Further(es, s, p, Others(v), p);
    es', s' := es + [Others(v)], Next(s, Others(v));
  }

  lemma BothAsleep() returns (es: seq<Event>, s: Pipes)
    ensures Reached(es, s, Opened([], [FIRST, SECOND]))
  {
    var t := Beginning();
    OpenGives(t.s.view);
    RunsOn(t, [], Open(None));
    es, s := [] + [Open(None)], Next(t.s, Open(None));
    es, s := Turn(es, s, Opened([], []), Three(FIRST, State.Ready, Running, State.Ready));
    ReadsNothing(s, []);
    Further(es, s, Opened([], []), Read(2, 1, None), Opened([], [FIRST]));
    es, s := es + [Read(2, 1, None)], Next(s, Read(2, 1, None));
    es, s := Turn(es, s, Opened([], [FIRST]), Three(SECOND, State.Ready, Blocked, Running));
    ReadsNothing(s, [FIRST]);
    assert [FIRST] + [SECOND] == [FIRST, SECOND];
    Further(es, s, Opened([], [FIRST]), Read(2, 1, None), Opened([], [FIRST, SECOND]));
    es, s := es + [Read(2, 1, None)], Next(s, Read(2, 1, None));
  }

  /** Two readers sleep, two bytes are written, the reader that is woken reads one of them: the other sleeps at a pipe
      with a byte in it. */
  lemma ReaderLeftBehind(x: Byte, y: Byte) returns (es: seq<Event>)
    ensures Initial(Beginning()) && Runs(Beginning(), es)
    ensures var s := End(Beginning(), es).s;
            && s.pipes != [] && s.pipes[0] == Opened([y], [SECOND]) && Asleep(s.view.procs, SECOND)
  {
    var s;
    es, s := BothAsleep();
    es, s := Turn(es, s, Opened([], [FIRST, SECOND]), Three(WRITER, Running, Blocked, Blocked));
    WritesTwo(s, x, y, [FIRST, SECOND]);
    assert [FIRST, SECOND][1..] == [SECOND];
    Further(es, s, Opened([], [FIRST, SECOND]), Write(3, [x, y]), Opened([x, y], [SECOND]));
    es, s := es + [Write(3, [x, y])], Next(s, Write(3, [x, y]));
    es, s := Turn(es, s, Opened([x, y], [SECOND]), Three(FIRST, State.Ready, Running, Blocked));
    ReadsOne(s, x, y, [SECOND]);
    Further(es, s, Opened([x, y], [SECOND]), Read(2, 1, None), Opened([y], [SECOND]));
    es, s := es + [Read(2, 1, None)], Next(s, Read(2, 1, None));
  }

  // ---------------------------------------------------------------- just how it comes about

  /** A reader sleeps at a pipe that is not empty. */
  predicate ReadersMissed(p: Pipe) { p.readers != [] && p.contents != [] }

  /** A writer sleeps at a pipe that has room. */
  predicate WritersMissed(p: Pipe) { p.writers != [] && |p.contents| < PIPE_BUFFER_SIZE }

  /** The event writes something to pipe i, which has read ends open and more than one reader asleep. */
  predicate WritesToCrowd(s: Pipes, e: Event, i: nat)
    requires i < |s.pipes|
  {
    e.Write? && WriteTo(s, e.n) == Some(i) && e.data != [] && s.pipes[i].openRead > 0 && |s.pipes[i].readers| > 1
  }

  /** The event reads something from pipe i, where more than one writer is asleep. */
  predicate ReadsFromCrowd(s: Pipes, e: Event, i: nat)
    requires i < |s.pipes|
  {
    e.Read? && ReadFrom(s, e.n) == Some(i) && e.count > 0 && |s.pipes[i].writers| > 1
  }

  lemma WriteMisses(p: Pipe, v: View, data: seq<Byte>)
    requires !ReadersMissed(p)
    ensures ReadersMissed(WritePipe(p, v, data).0) <==> data != [] && p.openRead > 0 && |p.readers| > 1
  {
  }

  lemma WriteMissesNobody(p: Pipe, v: View, data: seq<Byte>)
    requires !p.named && !WritersMissed(p)
    ensures !WritersMissed(WritePipe(p, v, data).0)
  {
  }

  lemma ReadMisses(p: Pipe, v: View, n: nat)
    requires |p.contents| <= PIPE_BUFFER_SIZE
    ensures !ReadersMissed(p) ==> !ReadersMissed(ReadPipe(p, v, n).0)
    ensures !WritersMissed(p) ==> (WritersMissed(ReadPipe(p, v, n).0) <==> n > 0 && |p.writers| > 1)
  {
  }

  /** Whatever the event: readers come to be missed at a pipe if and only if something is written to several of them. */
  lemma ReadersMissedIff(t: Traced, e: Event, i: nat)
    requires PipeStreams.Inv(t) && i < |t.s.pipes| && !ReadersMissed(t.s.pipes[i])
    ensures i < |Next(t.s, e).pipes|
    ensures ReadersMissed(Next(t.s, e).pipes[i]) <==> WritesToCrowd(t.s, e, i)
  {
    var p := t.s.pipes[i];
    assert LogOk(p, t.logs[i]) && CountsOk(p, t.s.fds, i);
    match e
    case Open(name) =>
      OpenStep(t.s, name);
      assert Some(i) != Started(t.s, name) ==> Evolves(p, Next(t.s, e).pipes[i]);
    case Read(n, count, typed) =>
      ReadStep(t.s, n, count, typed);
      if ReadFrom(t.s, n) == Some(i) { ReadMisses(p, t.s.view, count); }
    case Write(n, data) =>
      WriteStep(t.s, n, data);
      if WriteTo(t.s, n) == Some(i) { WriteMisses(p, t.s.view, data); }
    case _ =>
      OtherStep(t.s, e);
      assert Evolves(p, Next(t.s, e).pipes[i]);
  }

  /** And writers at an anonymous pipe if and only if something is read while several of them wait. */
  lemma WritersMissedIff(t: Traced, e: Event, i: nat)
    requires PipeStreams.Inv(t) && i < |t.s.pipes| && !WritersMissed(t.s.pipes[i]) && !t.s.pipes[i].named
    ensures i < |Next(t.s, e).pipes|
    ensures WritersMissed(Next(t.s, e).pipes[i]) <==> ReadsFromCrowd(t.s, e, i)
  {
    var p := t.s.pipes[i];
    assert LogOk(p, t.logs[i]) && CountsOk(p, t.s.fds, i);
    match e
    case Open(name) =>
      OpenStep(t.s, name);
      assert Some(i) != Started(t.s, name) ==> Evolves(p, Next(t.s, e).pipes[i]);
    case Read(n, count, typed) =>
      ReadStep(t.s, n, count, typed);
      if ReadFrom(t.s, n) == Some(i) { ReadMisses(p, t.s.view, count); }
    case Write(n, data) =>
      WriteStep(t.s, n, data);
      if WriteTo(t.s, n) == Some(i) { WriteMissesNobody(p, t.s.view, data); }
    case _ =>
      OtherStep(t.s, e);
      assert Evolves(p, Next(t.s, e).pipes[i]);
  }
}
