/**
 The two ways in which killing a participant of an MVar does harm, reached from the start: a writer killed after it has
 finished a put leaves two tokens behind, and one killed between its access to the slot and its post loses a value.
 */
module MVarKills {
  import opened Processes
  import opened SemaphoreSpec
  import opened SemaphoreTheorems
  import opened SemaphoreFrames
  import opened SemaphoreSlices
  import opened MVar

  const WRITER: nat := 1
  const READER: nat := 2

  function Sleeper(pid: nat, state: State): Pcb {
    Pcb(pid, DEFAULT_PRIORITY, DEFAULT_PRIORITY, 0, state, 1, 0, 1, 0, 0, 0, {}, {}, None, None, 0)
  }

  /** A writer on the CPU, a reader, and no semaphores. */
  function Beginning(name: string, letter: char): System {
    System(name,
           World(seq(MAX_SEMS, i => Sem("", 0, [], 0)),
                 View(map[WRITER := Sleeper(WRITER, Running), READER := Sleeper(READER, State.Ready)], Some(WRITER),
                      false)),
           ' ', Parts(letter, Start, Start), [], [])
  }

  function Parts(letter: char, a: Pc, b: Pc): seq<Part> {
    [Part(WRITER, true, letter, a), Part(READER, false, letter, b)]
  }

  /** Process cur runs and the other is ready. */
  predicate OnCpu(v: View, cur: nat) {
    && v.cur == Some(cur) && cur in {WRITER, READER} && v.procs.Keys == {WRITER, READER}
    && v.procs[cur].state == Running && v.procs[WRITER + READER - cur].state == State.Ready
  }

  /** Where the two participants and their semaphores are; cur, the first or the second of them, is on the CPU. */
  ghost predicate Stands(s: System, cur: nat, ts: seq<Part>, m: Pair) {
    && MVar.Inv(s) && OnCpu(s.w.view, cur) && s.parts == ts && Sems(s) == m
    && |ts| == 2 && ts[0].pid == WRITER && ts[1].pid == READER
  }

  lemma BeginningIs(name: string, letter: char)
    ensures var s := Beginning(name, letter);
            Initial(s) && Stands(s, WRITER, Parts(letter, Start, Start), Pair(Absent, Absent)) && StreamOk(s)
  {
    var s := Beginning(name, letter);
    forall i: nat | i < |s.w.sems| ensures SemOk(s.w.sems[i], s.w.view.procs, i) {
      assert Openers(s.w.view.procs, i) == {} && Holders(s.w.view.procs, i) == {};
    }
    assert |s.w.view.procs.Keys| == 2;
    InitialInv(s);
  }

  // ---------------------------------------------------------------- runs of one event more

  lemma {:induction false} RunsOn(s: System, es: seq<Event>, e: Event)
    requires Runs(s, es) && Allowed(End(s, es), e)
    ensures Runs(s, es + [e]) && End(s, es + [e]) == MVar.After(End(s, es), e)
    ensures UndisturbedRun(s, es) && Undisturbed(End(s, es), e) ==> UndisturbedRun(s, es + [e])
    decreases |es|
  {
    if es == [] {
      assert [e][1..] == [] && [] + [e] == [e];
    } else {
      RunsOn(MVar.After(s, es[0]), es[1..], e);
      assert (es + [e])[1..] == es[1..] + [e];
    }
  }

  /** The other process gets the CPU. */
  function Switched(v: View): View
    requires v.procs.Keys == {WRITER, READER} && v.cur.Some? && v.cur.value in {WRITER, READER}
  {
    var c := v.cur.value;
    var o := WRITER + READER - c;
    View(v.procs[c := v.procs[c].(state := State.Ready)][o := v.procs[o].(state := Running)], Some(o), v.force)
  }

  /** With one process running and the other ready nobody is queued, so anything may happen to their states. */
  lemma SwitchLegal(w: World)
    requires SemInv(w) && w.view.cur.Some? && OnCpu(w.view, w.view.cur.value)
    ensures Legal(w, Other(Switched(w.view)))
  {
    forall i: nat, p | i < |w.sems| && p in w.sems[i].queue ensures p !in w.view.procs {
      assert SemOk(w.sems[i], w.view.procs, i);
    }
  }

  lemma SwitchedOnCpu(v: View, cur: nat)
    requires OnCpu(v, cur)
    ensures OnCpu(Switched(v), WRITER + READER - cur)
  {
  }

  lemma SwitchStands(s: System, cur: nat, ts: seq<Part>, m: Pair) returns (e: Event)
    requires Stands(s, cur, ts, m)
    ensures Allowed(s, e) && Undisturbed(s, e)
    ensures var s' := MVar.After(s, e);
            Stands(s', WRITER + READER - cur, ts, m) && s' == s.(w := s.w.(view := Switched(s.w.view)))
  {
    e := Outside(Other(Switched(s.w.view)));
    SwitchLegal(s.w);
    SwitchedOnCpu(s.w.view, cur);
    assert Elsewhere(s.w, e.s, EmptyName(s.name)) && Elsewhere(s.w, e.s, FullName(s.name));
    OutsideKeeps(s, e.s);
  }

  // ---------------------------------------------------------------- the statements of the one on the CPU

  /** The participant on the CPU takes its next statement, and its semaphores change accordingly. */
  lemma Statement(s: System, cur: nat, ts: seq<Part>, m: Pair, k: nat)
    requires Stands(s, cur, ts, m) && k == cur - 1 && k < 2 && !ts[k].pc.Failed? && !ts[k].pc.Dead?
    ensures Allowed(s, PartStep(k)) && Undisturbed(s, PartStep(k))
    ensures MVar.Inv(Do(s, k)) && Sems(Do(s, k)) == Moved(m, ts[k], Do(s, k).parts[k].pc)
  {
    PartKeepsInv(s, k);
    StepOnSems(s, k);
  }

  /** There is the semaphore to open, or room for it. */
  predicate Openable(w: World, name: string) { Find(w, name).Some? || FreeFrom(w.sems, 0).Some? }

  lemma OpenSucceeds(w: World, name: string, initial: nat, cur: nat)
    requires Openable(w, name) && OnCpu(w.view, cur)
    ensures SemOpen(w, name, initial).1 == 1 && OnCpu(SemOpen(w, name, initial).0.view, cur)
  {
  }

  /** The two opens of the participant on the CPU. */
  lemma FirstOpen(s: System, cur: nat, ts: seq<Part>, m: Pair, k: nat)
    requires Stands(s, cur, ts, m) && k == cur - 1 && k < 2 && ts[k].pc.Start? && Openable(s.w, EmptyName(s.name))
    ensures Allowed(s, PartStep(k)) && Undisturbed(s, PartStep(k))
    ensures var s' := Do(s, k);
            && Stands(s', cur, ts[k := ts[k].(pc := HasEmpty)], m.(empty := OpenSlice(m.empty, cur, 1)))
            && s'.w == SemOpen(s.w, EmptyName(s.name), 1).0 && s'.name == s.name && s'.puts == s.puts
            && s'.takes == s.takes
  {
    OpenSucceeds(s.w, EmptyName(s.name), 1, cur);
    Statement(s, cur, ts, m, k);
  }

  lemma SecondOpen(s: System, cur: nat, ts: seq<Part>, m: Pair, k: nat)
    requires Stands(s, cur, ts, m) && k == cur - 1 && k < 2 && ts[k].pc.HasEmpty? && Openable(s.w, FullName(s.name))
    ensures Allowed(s, PartStep(k)) && Undisturbed(s, PartStep(k))
    ensures var s' := Do(s, k);
            && Stands(s', cur, ts[k := ts[k].(pc := Idle)], m.(full := OpenSlice(m.full, cur, 0)))
            && s'.name == s.name && s'.puts == s.puts && s'.takes == s.takes
  {
    OpenSucceeds(s.w, FullName(s.name), 0, cur);
    Statement(s, cur, ts, m, k);
  }

  /** A semaphore somebody has open is found. */
  lemma FoundOpen(s: System)
    requires MVar.Inv(s)
    ensures Sems(s).empty.openers != {} ==> Openable(s.w, EmptyName(s.name))
    ensures Sems(s).full.openers != {} ==> Openable(s.w, FullName(s.name))
  {
    SliceIsOk(s.w, EmptyName(s.name));
    SliceIsOk(s.w, FullName(s.name));
  }

  lemma WaitOnCpu(w: World, name: string, cur: nat)
    requires OnCpu(w.view, cur) && Find(w, name).Some? && w.sems[Find(w, name).value].value > 0
    ensures OnCpu(SemWait(w, name).0.view, cur)
  {
  }

  lemma PostOnCpu(w: World, name: string, cur: nat)
    requires OnCpu(w.view, cur) && (Find(w, name).Some? ==> w.sems[Find(w, name).value].queue == [])
    ensures OnCpu(SemPost(w, name).0.view, cur)
  {
  }

  /** A wait that does not have to, the access, and a post that wakes nobody. */
  lemma WaitPasses(s: System, cur: nat, ts: seq<Part>, m: Pair, k: nat)
    requires Stands(s, cur, ts, m) && k == cur - 1 && k < 2 && ts[k].pc.Idle? && Mine(m, ts[k]).value > 0
    ensures Allowed(s, PartStep(k)) && Undisturbed(s, PartStep(k))
    ensures var s' := Do(s, k);
            && Stands(s', cur, ts[k := ts[k].(pc := Waited)], AfterWait(m, ts[k]))
            && s'.name == s.name && s'.puts == s.puts && s'.takes == s.takes
  {
    WaitOnCpu(s.w, WaitName(s, ts[k]), cur);
    Statement(s, cur, ts, m, k);
  }

  lemma Accesses(s: System, ts: seq<Part>, m: Pair)
    requires Stands(s, WRITER, ts, m) && ts[0].pc.Waited? && ts[0].writer
    ensures Allowed(s, PartStep(0)) && Undisturbed(s, PartStep(0))
    ensures var s' := Do(s, 0);
            && Stands(s', WRITER, ts[0 := ts[0].(pc := Touched)], m)
            && s'.name == s.name && s'.puts == s.puts + [ts[0].letter] && s'.takes == s.takes
  {
    Statement(s, WRITER, ts, m, 0);
  }

  lemma PostWakesNobody(s: System, cur: nat, ts: seq<Part>, m: Pair, k: nat)
    requires Stands(s, cur, ts, m) && k == cur - 1 && k < 2 && ts[k].pc.Touched? && Theirs(m, ts[k]).queue == []
    ensures Allowed(s, PartStep(k)) && Undisturbed(s, PartStep(k))
    ensures var s' := Do(s, k);
            && Stands(s', cur, ts[k := ts[k].(pc := Idle)], AfterPost(m, ts[k]))
            && s'.name == s.name && s'.puts == s.puts && s'.takes == s.takes
  {
    PostOnCpu(s.w, PostName(s, ts[k]), cur);
    Statement(s, cur, ts, m, k);
  }

  // ---------------------------------------------------------------- the runs

  /** es is a run from the start to s in which nobody is killed between its access and its post. */
  ghost predicate Reached(name: string, letter: char, es: seq<Event>, s: System) {
    && Runs(Beginning(name, letter), es) && UndisturbedRun(Beginning(name, letter), es)
    && End(Beginning(name, letter), es) == s && s.name == name
  }

  lemma Further(name: string, letter: char, es: seq<Event>, s: System, e: Event)
    requires Reached(name, letter, es, s) && Allowed(s, e) && Undisturbed(s, e)
    ensures Reached(name, letter, es + [e], MVar.After(s, e))
  {
    RunsOn(Beginning(name, letter), es, e);
  }

  /** The semaphores of a writer that has opened both, and then those of both participants. */
  const EMPTY_ONE: Slice := Slice(1, [], {WRITER}, {})
  const FULL_ONE: Slice := Slice(0, [], {WRITER}, {})
  const EMPTY_BOTH: Slice := Slice(1, [], {WRITER, READER}, {})
  const EMPTY_TAKEN: Slice := Slice(0, [], {WRITER, READER}, {WRITER})
  const FULL_BOTH: Slice := Slice(0, [], {WRITER, READER}, {})

  lemma OpenToBoth()
    ensures OpenSlice(EMPTY_ONE, READER, 1) == EMPTY_BOTH && OpenSlice(FULL_ONE, READER, 0) == FULL_BOTH
  {
    assert {WRITER} + {READER} == {WRITER, READER};
  }

  lemma WriterOpensFirst(name: string, letter: char) returns (es: seq<Event>, s: System)
    ensures Reached(name, letter, es, s) && s.puts == [] && s.takes == [] && Openable(s.w, FullName(name))
    ensures Stands(s, WRITER, Parts(letter, HasEmpty, Start), Pair(EMPTY_ONE, Absent))
  {
    var s0 := Beginning(name, letter);
    BeginningIs(name, letter);
    assert FreeFrom(s0.w.sems, 0) == Some(0) && Find(s0.w, EmptyName(name)).None?;
    assert Reached(name, letter, [], s0);
    FirstOpen(s0, WRITER, s0.parts, Sems(s0), 0);
    Further(name, letter, [], s0, PartStep(0));
    es, s := [] + [PartStep(0)], Do(s0, 0);
    assert s.w.sems[1].opens == 0;
    assert Parts(letter, Start, Start)[0 := Part(WRITER, true, letter, HasEmpty)] == Parts(letter, HasEmpty, Start);
  }

  lemma WriterOpens(name: string, letter: char) returns (es: seq<Event>, s: System)
    ensures Reached(name, letter, es, s) && s.puts == [] && s.takes == []
    ensures Stands(s, WRITER, Parts(letter, Idle, Start), Pair(EMPTY_ONE, FULL_ONE))
  {
    var es1, s1 := WriterOpensFirst(name, letter);
    SecondOpen(s1, WRITER, s1.parts, Sems(s1), 0);
    Further(name, letter, es1, s1, PartStep(0));
    es, s := es1 + [PartStep(0)], Do(s1, 0);
    assert Parts(letter, HasEmpty, Start)[0 := Part(WRITER, true, letter, Idle)] == Parts(letter, Idle, Start);
  }

  lemma ReaderTakesOver(name: string, letter: char) returns (es: seq<Event>, s: System)
    ensures Reached(name, letter, es, s) && s.puts == [] && s.takes == [] && Openable(s.w, EmptyName(name))
    ensures Stands(s, READER, Parts(letter, Idle, Start), Pair(EMPTY_ONE, FULL_ONE))
  {
    var es1, s1 := WriterOpens(name, letter);
    var e := SwitchStands(s1, WRITER, s1.parts, Sems(s1));
    Further(name, letter, es1, s1, e);
    es, s := es1 + [e], MVar.After(s1, e);
    FoundOpen(s);
  }

  lemma ReaderOpensFirst(name: string, letter: char) returns (es: seq<Event>, s: System)
    ensures Reached(name, letter, es, s) && s.puts == [] && s.takes == [] && Openable(s.w, FullName(name))
    ensures Stands(s, READER, Parts(letter, Idle, HasEmpty), Pair(EMPTY_BOTH, FULL_ONE))
  {
    var es1, s1 := ReaderTakesOver(name, letter);
    FirstOpen(s1, READER, s1.parts, Sems(s1), 1);
    Further(name, letter, es1, s1, PartStep(1));
    es, s := es1 + [PartStep(1)], Do(s1, 1);
    assert Parts(letter, Idle, Start)[1 := Part(READER, false, letter, HasEmpty)] == Parts(letter, Idle, HasEmpty);
    OpenToBoth();
    FoundOpen(s);
  }

  lemma ReaderOpens(name: string, letter: char) returns (es: seq<Event>, s: System)
    ensures Reached(name, letter, es, s) && s.puts == [] && s.takes == []
    ensures Stands(s, READER, Parts(letter, Idle, Idle), Pair(EMPTY_BOTH, FULL_BOTH))
  {
    var es1, s1 := ReaderOpensFirst(name, letter);
    var ts := Parts(letter, Idle, HasEmpty);
    assert Pair(EMPTY_BOTH, FULL_ONE).(full := OpenSlice(FULL_ONE, READER, 0)) == Pair(EMPTY_BOTH, FULL_BOTH) by {
      OpenToBoth();
    }
    assert ts[1 := ts[1].(pc := Idle)] == Parts(letter, Idle, Idle);
    SecondOpen(s1, READER, ts, Pair(EMPTY_BOTH, FULL_ONE), 1);
    Further(name, letter, es1, s1, PartStep(1));
    es, s := es1 + [PartStep(1)], Do(s1, 1);
  }

  /** Both have both semaphores open, and the writer is on the CPU again. */
  lemma BothOpen(name: string, letter: char) returns (es: seq<Event>, s: System)
    ensures Reached(name, letter, es, s) && s.puts == [] && s.takes == []
    ensures Stands(s, WRITER, Parts(letter, Idle, Idle), Pair(EMPTY_BOTH, FULL_BOTH))
  {
    var es1, s1 := ReaderOpens(name, letter);
    var e := SwitchStands(s1, READER, s1.parts, Sems(s1));
    Further(name, letter, es1, s1, e);
    es, s := es1 + [e], MVar.After(s1, e);
  }

  lemma WriterWaits(name: string, letter: char) returns (es: seq<Event>, s: System)
    ensures Reached(name, letter, es, s) && s.puts == [] && s.takes == []
    ensures Stands(s, WRITER, Parts(letter, Waited, Idle), Pair(EMPTY_TAKEN, FULL_BOTH))
  {
    var es1, s1 := BothOpen(name, letter);
    WaitPasses(s1, WRITER, s1.parts, Sems(s1), 0);
    Further(name, letter, es1, s1, PartStep(0));
    es, s := es1 + [PartStep(0)], Do(s1, 0);
    assert Parts(letter, Idle, Idle)[0 := Part(WRITER, true, letter, Waited)] == Parts(letter, Waited, Idle);
    assert {} + {WRITER} == {WRITER};
  }

  /** The writer has waited and written. */
  lemma Written(name: string, letter: char) returns (es: seq<Event>, s: System)
    ensures Reached(name, letter, es, s) && s.puts == [letter] && s.takes == []
    ensures Stands(s, WRITER, Parts(letter, Touched, Idle), Pair(EMPTY_TAKEN, FULL_BOTH))
  {
    var es1, s1 := WriterWaits(name, letter);
    Accesses(s1, s1.parts, Sems(s1));
    Further(name, letter, es1, s1, PartStep(0));
    es, s := es1 + [PartStep(0)], Do(s1, 0);
    assert Parts(letter, Waited, Idle)[0 := Part(WRITER, true, letter, Touched)] == Parts(letter, Touched, Idle);
  }

  /** A writer that is killed after it has finished a put: there are two tokens, one for a writer and one for a
      reader. */
  lemma KilledAfterPut(name: string, letter: char) returns (es: seq<Event>, s: System)
    ensures Initial(Beginning(name, letter)) && Reached(name, letter, es, s)
    ensures Enabled(s, KillPart(0)) && s.parts[0].pc.Idle? && !Survivable(Sems(s), s.parts[0])
    ensures var s' := MVar.After(s, KillPart(0));
            Tokens(Sems(s'), s'.parts) == 2 && Sems(s').empty.value == 1 && Sems(s').full.value == 1
  {
    BeginningIs(name, letter);
    var es1, s1 := Written(name, letter);
    PostWakesNobody(s1, WRITER, s1.parts, Sems(s1), 0);
    Further(name, letter, es1, s1, PartStep(0));
    es, s := es1 + [PartStep(0)], Do(s1, 0);
    assert s.parts[1].pid != s.parts[0].pid && HasBoth(s.parts[1]);
    KillKeepsToken(s, 0);
    KillOnSems(s, 0);
  }

  /** A writer that is killed between its access and its post: what it wrote will never be read, for the next writer may
      write at once. */
  lemma KilledBeforePost(name: string, letter: char) returns (es: seq<Event>, s: System)
    ensures Initial(Beginning(name, letter)) && Reached(name, letter, es, s)
    ensures Allowed(s, KillPart(0)) && s.parts[0].pc.Touched? && StreamOk(s)
    ensures var s' := MVar.After(s, KillPart(0));
            && MVar.Inv(s') && !StreamOk(s') && s'.puts == [letter] && s'.takes == []
            && Sems(s').empty.value == 1 && Sems(s').full.value == 0
  {
    BeginningIs(name, letter);
    es, s := Written(name, letter);
    RunKeepsInv(Beginning(name, letter), es);
    assert s.parts[1].pid != s.parts[0].pid && HasBoth(s.parts[1]);
    KillKeepsToken(s, 0);
    KillKeepsStream(s, 0);
    KillOnSems(s, 0);
  }
}
