/**
 Named pipes: one name, one pipe; how often a pipe was opened; and the end of a named pipe, when all its writers have
 left.
 */
module PipeNames {
  import opened Processes
  import opened PipeSpec
  import opened PipeRefs
  import opened PipeStreams

  predicate Goes(p: Pipe, name: string) { p.inUse && p.named && p.name == name }

  /** Slot i is the first with that name. */
  predicate IsFirst(ps: seq<Pipe>, name: string, i: nat) {
    i < |ps| && Goes(ps[i], name) && forall j :: 0 <= j < i ==> !Goes(ps[j], name)
  }

  predicate IsFirstUnused(ps: seq<Pipe>, i: nat) {
    i < |ps| && !ps[i].inUse && forall j :: 0 <= j < i ==> ps[j].inUse
  }

  /** A pipe as it begins. */
  predicate IsNew(p: Pipe, name: Option<string>) {
    && p.inUse && p.contents == [] && p.openRead == 0 && p.openWrite == 0 && p.readers == [] && p.writers == []
    && !p.eof
    && (match name
        case None => !p.named && p.opens == 0
        case Some(n) => p.named && p.opens == 1 && p.name == (if |n| < 32 then n else n[..31]))
  }

  /** Opening a pipe by name finds the first of that name, and only counts the opening; if there is none, or for a pipe
      without a name, the first slot not in use begins a new one; only if there is no such slot it fails. */
  lemma PipeOpenIs(ps: seq<Pipe>, name: Option<string>)
    ensures var (ps', r) := PipeOpen(ps, name);
            if name.Some? && exists i {:trigger Goes(ps[i],
                                                     name.value)} :: 0 <= i < |ps| && Goes(ps[i], name.value) then
              r.Some? && IsFirst(ps, name.value, r.value)
                && ps' == ps[r.value := ps[r.value].(opens := ps[r.value].opens + 1)]
            else if exists i :: 0 <= i < |ps| && !ps[i].inUse then
              r.Some? && IsFirstUnused(ps, r.value) && IsNew(ps'[r.value], name) && ps' == ps[r.value := ps'[r.value]]
            else r.None? && ps' == ps
  {
    if name.Some? {
      var f := FindNamed(ps, name.value, 0);
      assert f.Some? ==> Goes(ps[f.value], name.value);
      assert forall i {:trigger Goes(ps[i], name.value)} :: 0 <= i < |ps| && Goes(ps[i], name.value) ==> f.Some?;
    }
  }

  // ---------------------------------------------------------------- one name, one pipe

  predicate Twins(ps: seq<Pipe>, i: nat, j: nat)
    requires i < |ps| && j < |ps|
  {
    ps[i].inUse && ps[j].inUse && ps[i].named && ps[j].named && ps[i].name == ps[j].name
  }

  ghost predicate OneEach(ps: seq<Pipe>) {
    forall i: nat, j: nat {:trigger Twins(ps, i, j)} :: i < j < |ps| ==> !Twins(ps, i, j)
  }

  /** Pipes are opened by names that need not be cut. */
  predicate ShortName(e: Event) {
    e.Open? && e.name.Some? ==> |e.name.value| < PIPE_NAME_LEN
  }

  /** Whatever is in use keeps its name or goes out of use. */
  ghost predicate NamesStay(ps: seq<Pipe>, ps': seq<Pipe>, but: Option<nat>) {
    |ps'| == |ps| && forall i: nat :: i < |ps| && Some(i) != but && ps'[i].inUse ==>
      ps[i].inUse && SameName(ps[i], ps'[i])
  }

  lemma StayOne(ps: seq<Pipe>, ps': seq<Pipe>)
    requires OneEach(ps) && NamesStay(ps, ps', None)
    ensures OneEach(ps')
  {
    forall i: nat, j: nat | i < j < |ps'| ensures !Twins(ps', i, j) { assert !Twins(ps, i, j); }
  }

  lemma OpenOne(s: Pipes, name: Option<string>)
    requires RefInv(s.pipes, s.fds) && OneEach(s.pipes) && (name.Some? ==> |name.value| < PIPE_NAME_LEN)
    ensures OneEach(Next(s, Open(name)).pipes)
  {
    var ps' := Next(s, Open(name)).pipes;
    var b := Started(s, name);
    OpenStep(s, name);
    forall i: nat | i < |s.pipes| && Some(i) != b && ps'[i].inUse
      ensures s.pipes[i].inUse && SameName(s.pipes[i], ps'[i])
    {
      assert Evolves(s.pipes[i], ps'[i]);
    }
    forall i: nat, j: nat | i < j < |ps'| ensures !Twins(ps', i, j) {
      assert !Twins(s.pipes, i, j);
      if Some(i) == b || Some(j) == b { PipeOpenIs(s.pipes, name); }
    }
  }

  lemma StepOne(t: Traced, e: Event)
    requires PipeStreams.Inv(t) && OneEach(t.s.pipes) && ShortName(e)
    ensures OneEach(Next(t.s, e).pipes)
  {
    match e
    case Open(name) => OpenOne(t.s, name);
    case Read(n, count, typed) =>
      ReadStep(t.s, n, count, typed);
      StayOne(t.s.pipes, Next(t.s, e).pipes);
    case Write(n, data) =>
      WriteStep(t.s, n, data);
      StayOne(t.s.pipes, Next(t.s, e).pipes);
    case _ =>
      OtherStep(t.s, e);
      var ps' := Next(t.s, e).pipes;
      forall i: nat | i < |t.s.pipes| && ps'[i].inUse
        ensures t.s.pipes[i].inUse && SameName(t.s.pipes[i], ps'[i])
      {
        assert Evolves(t.s.pipes[i], ps'[i]);
      }
      StayOne(t.s.pipes, ps');
  }

  predicate ShortNames(es: seq<Event>) {
    forall i :: 0 <= i < |es| ==> ShortName(es[i])
  }

  lemma {:induction false} RunOne(t: Traced, es: seq<Event>)
    requires PipeStreams.Inv(t) && OneEach(t.s.pipes) && Runs(t, es) && ShortNames(es)
    ensures OneEach(End(t, es).s.pipes)
    decreases |es|
  {
    if es != [] {
      PipeStreams.StepKeeps(t, es[0]);
      StepOne(t, es[0]);
      RunOne(PipeStreams.After(t, es[0]), es[1..]);
    }
  }

  /** In every run no two pipes in use have the same name, so whoever opens that name gets the same pipe. */
  lemma OneNameOnePipe(t: Traced, es: seq<Event>, i: nat, name: string)
    requires Initial(t) && Runs(t, es) && ShortNames(es)
    requires i < |End(t, es).s.pipes| && Goes(End(t, es).s.pipes[i], name)
    ensures PipeOpen(End(t, es).s.pipes, Some(name)).1 == Some(i)
    ensures forall j :: 0 <= j < |End(t, es).s.pipes| && Goes(End(t, es).s.pipes[j], name) ==> j == i
  {
    InitialInv(t);
    RunOne(t, es);
    var ps := End(t, es).s.pipes;
    PipeOpenIs(ps, Some(name));
    forall j: nat | j < |ps| && Goes(ps[j], name) ensures j == i {
      assert (i < j ==> !Twins(ps, i, j)) && (j < i ==> !Twins(ps, j, i));
    }
  }

  // ---------------------------------------------------------------- the end of a named pipe

  /** The last write end of a named pipe opened at least twice closes: that is its end. Another one opens: it is not. */
  lemma EndsIff(p: Pipe, v: View)
    requires p.named && (p.openRead > 0 || p.openWrite > 1)
    ensures CloseWrite(p, v).0.eof <==> p.eof || (p.openWrite <= 1 && p.opens >= 2)
    ensures !OpenWrite(p, v).0.eof && OpenRead(p, v).0.eof == p.eof
    ensures p.openRead > 1 || p.openWrite > 0 ==> CloseRead(p, v).0.eof == p.eof
  {
  }

  ghost predicate AllEnd(ps: seq<Pipe>) {
    forall i {:trigger EndOk(ps[i])} :: 0 <= i < |ps| ==> EndOk(ps[i])
  }

  lemma StepEnds(t: Traced, e: Event)
    requires PipeStreams.Inv(t) && AllEnd(t.s.pipes)
    ensures AllEnd(Next(t.s, e).pipes)
  {
    var ps' := Next(t.s, e).pipes;
    match e
    case Open(name) =>
      OpenStep(t.s, name);
      forall i | 0 <= i < |ps'| ensures EndOk(ps'[i]) {
        assert EndOk(t.s.pipes[i]);
        assert Some(i) != Started(t.s, name) ==> Evolves(t.s.pipes[i], ps'[i]);
      }
    case Read(n, count, typed) =>
      ReadStep(t.s, n, count, typed);
      forall i | 0 <= i < |ps'| ensures EndOk(ps'[i]) { assert EndOk(t.s.pipes[i]); }
    case Write(n, data) =>
      WriteStep(t.s, n, data);
      forall i | 0 <= i < |ps'| ensures EndOk(ps'[i]) { assert EndOk(t.s.pipes[i]); }
    case _ =>
      OtherStep(t.s, e);
      forall i | 0 <= i < |ps'| ensures EndOk(ps'[i]) { assert EndOk(t.s.pipes[i]) && Evolves(t.s.pipes[i], ps'[i]); }
  }

  lemma {:induction false} RunEnds(t: Traced, es: seq<Event>)
    requires PipeStreams.Inv(t) && AllEnd(t.s.pipes) && Runs(t, es)
    ensures AllEnd(End(t, es).s.pipes) && PipeStreams.Inv(End(t, es))
    decreases |es|
  {
    if es != [] {
      PipeStreams.StepKeeps(t, es[0]);
      StepEnds(t, es[0]);
      RunEnds(PipeStreams.After(t, es[0]), es[1..]);
    }
  }

  /** In every run, a read of at least one byte that returns 0 on a named pipe tells the truth: it is empty, has been
      opened at least twice, and nobody has a write end open. */
  lemma NamedEof(t: Traced, es: seq<Event>, n: nat, count: nat, typed: Option<seq<Byte>>)
    requires Initial(t) && Runs(t, es) && count > 0
    requires var s := End(t, es).s;
             && ReadFrom(s, n).Some? && s.pipes[ReadFrom(s, n).value].named && SysRead(s, n, count, typed).1 == 0
    ensures var s := End(t, es).s;
            var p := s.pipes[ReadFrom(s, n).value];
            p.contents == [] && p.openWrite == 0 && Refs(s.fds, WriteEnd, ReadFrom(s, n).value) == 0 && p.opens >= 2
  {
    InitialInv(t);
    RunEnds(t, es);
    var s := End(t, es).s;
    var i := ReadFrom(s, n).value;
    assert EndOk(s.pipes[i]) && CountsOk(s.pipes[i], s.fds, i);
    assert FdOk(s.fds[Real(s, n, FD_STDIN).value], s.pipes);
  }
}
