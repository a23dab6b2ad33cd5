/**
 One semaphore, looked up by name, with the processes that have it open or hold it: all a client protocol depends on.
 Each system call is an equation on the slice of its own semaphore and leaves the others' alone.
 */
module SemaphoreSlices {
  import opened Sequences
  import opened Processes
  import opened SemaphoreSpec
  import opened SemaphoreTheorems
  import opened SemaphoreFrames

  datatype Slice = Slice(value: int, queue: seq<nat>, openers: set<nat>, holders: set<nat>)

  /** A semaphore nobody has open. */
  const Absent: Slice := Slice(0, [], {}, {})

  ghost function SliceAt(w: World, i: nat): Slice
    requires i < |w.sems|
  {
    Slice(w.sems[i].value, w.sems[i].queue, Openers(w.view.procs, i), Holders(w.view.procs, i))
  }

  ghost function SliceOf(w: World, name: string): Slice {
    match Find(w, name)
    case None => Absent
    case Some(i) => SliceAt(w, i)
  }

  ghost predicate SliceOk(s: Slice) {
    && NoDup(s.queue) && (forall p :: p in s.queue ==> p in s.openers) && s.holders <= s.openers
    && |s.queue| == Waiting(s.value)
    && (s.openers == {} ==> s == Absent)
  }

  // ---------------------------------------------------------------- what each call does to a slice

  function OpenSlice(s: Slice, me: nat, initial: nat): Slice {
    if s.openers == {} then Slice(initial, [], {me}, {}) else s.(openers := s.openers + {me})
  }

  function WaitSlice(s: Slice, me: nat): Slice {
    if s.value > 0 then s.(value := s.value - 1, holders := s.holders + {me})
    else s.(value := s.value - 1, queue := s.queue + [me])
  }

  function GiveBackSlice(s: Slice): Slice {
    if s.queue == [] then s.(value := s.value + 1)
    else s.(value := s.value + 1, queue := s.queue[1..], holders := s.holders + {s.queue[0]})
  }

  function PostSlice(s: Slice, me: nat): Slice {
    GiveBackSlice(s.(holders := s.holders - {me}))
  }

  function CloseSlice(s: Slice, me: nat): Slice {
    if s.openers == {me} then Absent else s.(openers := s.openers - {me}, holders := s.holders - {me})
  }

  /** The death of a process: it leaves the queue, or what it holds is given back. */
  function LeaveSlice(s: Slice, pid: nat): Slice {
    if pid !in s.openers then s
    else
      var out := s.(openers := s.openers - {pid}, holders := s.holders - {pid});
      if pid in s.queue then out.(value := s.value + 1, queue := Remove(s.queue, pid))
      else if pid in s.holders then GiveBackSlice(out)
      else out
  }

  function DieSlice(s: Slice, pid: nat): Slice {
    if s.openers == {pid} then Absent else LeaveSlice(s, pid)
  }

  // ---------------------------------------------------------------- whom a change concerns

  /** The two versions of a semaphore agree on process p. */
  predicate SameFor(a: Slice, b: Slice, p: nat) {
    (p in a.openers <==> p in b.openers) && (p in a.holders <==> p in b.holders) && (p in a.queue <==> p in b.queue)
  }

  /** They differ at most in the part of process p. */
  ghost predicate OnlyFor(a: Slice, b: Slice, p: nat) {
    forall q {:trigger SameFor(a, b, q)} :: q != p ==> SameFor(a, b, q)
  }

  // ---------------------------------------------------------------- the equations

  lemma SliceIsOk(w: World, name: string)
    requires SemInv(w)
    ensures SliceOk(SliceOf(w, name))
    ensures CallerRuns(w) ==> w.view.cur.value !in SliceOf(w, name).queue
    ensures SliceOf(w, name).openers == {} <==> Find(w, name).None?
  {
    if Find(w, name).Some? {
      var i := Find(w, name).value;
      assert SemOk(w.sems[i], w.view.procs, i);
      if CallerRuns(w) { CallerFacts(w, i); }
    }
  }

  lemma OpenEquation(w: World, name: string, initial: nat)
    requires SemInv(w) && Legal(w, Open(name, initial))
    ensures var (w', r) := SemOpen(w, name, initial);
            SemInv(w') && (if r == 0 then w' == w
                           else r == 1 && SliceOf(w', name) == OpenSlice(SliceOf(w, name), w.view.cur.value, initial))
  {
    OpenKeeps(w, name, initial);
    OpenEffect(w, name, initial);
    SliceIsOk(w, name);
  }

  lemma WaitEquation(w: World, name: string)
    requires SemInv(w) && Legal(w, Wait(name)) && Find(w, name).Some?
    ensures var w' := SemWait(w, name).0;
            SemInv(w') && SliceOf(w', name) == WaitSlice(SliceOf(w, name), w.view.cur.value)
  {
    WaitKeeps(w, name);
    WaitEffect(w, name, Find(w, name).value);
  }

  lemma PostEquation(w: World, name: string)
    requires SemInv(w) && Legal(w, Post(name)) && Find(w, name).Some?
    ensures var w' := SemPost(w, name).0;
            SemInv(w') && SliceOf(w', name) == PostSlice(SliceOf(w, name), w.view.cur.value)
  {
    PostKeeps(w, name);
    PostEffect(w, name, Find(w, name).value);
  }

  lemma CloseEquation(w: World, name: string)
    requires SemInv(w) && Legal(w, Close(name)) && Find(w, name).Some?
    ensures var w' := SemClose(w, name).0;
            SemInv(w') && SliceOf(w', name) == CloseSlice(SliceOf(w, name), w.view.cur.value)
  {
    CloseKeeps(w, name);
    CloseEffect(w, name, Find(w, name).value);
  }

  lemma ElsewhereEquation(w: World, s: Step, name: string)
    requires SemInv(w) && Legal(w, s) && Elsewhere(w, s, name)
    ensures SemInv(Next(w, s)) && SliceOf(Next(w, s), name) == SliceOf(w, name)
  {
    StepKeeps(w, s);
    ElsewhereFrame(w, s, name);
  }

  // ---------------------------------------------------------------- death

  lemma CleanupElsewhere(w: World, pid: nat, j: nat, i: nat)
    requires TableOk(w) && pid in w.view.procs && j < |w.sems| && i < |w.sems| && i != j
    ensures SliceAt(CleanupOne(w, pid, j), i) == SliceAt(w, i) && CleanupOne(w, pid, j).sems[i] == w.sems[i]
  {
    CleanupOneIs(w, pid, j);
    if j in w.view.procs[pid].openedSems {
      var d := Detach(w, pid, j);
      DetachKeeps(w, pid, j);
      assert SemOk(d.sems[j], d.view.procs, j);
      BitsFrame(w.view.procs, pid, d.view.procs[pid], i);
      GiveBackFrame(d, j, i);
    }
  }

  lemma CleanupHere(w: World, pid: nat, i: nat)
    requires TableOk(w) && pid in w.view.procs && i < |w.sems| && w.sems[i].opens > 0
    ensures SliceAt(CleanupOne(w, pid, i), i) == LeaveSlice(SliceAt(w, i), pid)
    ensures CleanupOne(w, pid, i).sems[i].name == w.sems[i].name
    ensures pid !in CleanupOne(w, pid, i).sems[i].queue
  {
    CleanupOneIs(w, pid, i);
    CleanupOneKeeps(w, pid, i);
    assert SemOk(w.sems[i], w.view.procs, i);
    if i in w.view.procs[pid].openedSems {
      var d := Detach(w, pid, i);
      DetachKeeps(w, pid, i);
      OpenersUpdate(w.view.procs, pid, d.view.procs[pid], i);
      RemoveIs(w.sems[i].queue, pid);
      assert SliceAt(d, i).openers == Openers(w.view.procs, i) - {pid};
      GiveBackHere(d, i);
    }
  }

  lemma GiveBackHere(w: World, i: nat)
    requires i < |w.sems| && SemOk(w.sems[i], w.view.procs, i)
    ensures |w.sems[i].queue| == Waiting(w.sems[i].value) ==> SliceAt(GiveBack(w, i), i) == GiveBackSlice(SliceAt(w, i))
    ensures GiveBack(w, i).sems[i].name == w.sems[i].name
  {
    var q := w.sems[i].queue;
    if q != [] && w.sems[i].value + 1 <= 0 {
      assert q[0] in q;
      var ps := w.view.procs;
      var b := ps[q[0]].(heldSems := ps[q[0]].heldSems + {i}, state := Ready, waitTicks := 0);
      assert GiveBack(w, i).view.procs == ps[q[0] := b];
      OpenersUpdate(ps, q[0], b, i);
      assert q[0] in Openers(ps, i);
    }
  }

  lemma {:induction false} CleanupSlice(w: World, pid: nat, j: nat, i: nat)
    requires TableOk(w) && pid in w.view.procs && j <= |w.sems| && i < |w.sems| && (j <= i ==> w.sems[i].opens > 0)
    ensures var c := CleanupFrom(w, pid, j);
            c.sems[i].name == w.sems[i].name && SliceAt(c, i) == if j <= i then LeaveSlice(SliceAt(w, i), pid)
                                                                 else SliceAt(w, i)
    decreases |w.sems| - j
  {
    if j < |w.sems| {
      CleanupOneKeeps(w, pid, j);
      if i == j { CleanupHere(w, pid, i); } else { CleanupElsewhere(w, pid, j, i); }
      CleanupSlice(CleanupOne(w, pid, j), pid, j + 1, i);
    }
  }

  lemma DieSliceAt(w: World, pid: nat, i: nat)
    requires SemInv(w) && pid in w.view.procs && i < |w.sems| && w.sems[i].opens > 0
    ensures var n := Next(w, Die(pid));
            |n.sems| == |w.sems| && SliceAt(n, i) == LeaveSlice(SliceAt(w, i), pid) && n.sems[i].name == w.sems[i].name
  {
    var n := Next(w, Die(pid));
    var c := CleanupFrom(w, pid, 0);
    CleanupKeeps(w, pid, 0);
    CleanupSlice(w, pid, 0, i);
    assert GoneFrom(c, pid, i);
    assert n.sems == c.sems && n.view.procs == c.view.procs - {pid};
    assert Openers(n.view.procs, i) == Openers(c.view.procs, i) && Holders(n.view.procs, i) == Holders(c.view.procs, i);
  }

  lemma DieFind(w: World, pid: nat, name: string)
    requires SemInv(w) && pid in w.view.procs
    ensures var n := Next(w, Die(pid));
            SemInv(n) && Find(n, name) ==
              match Find(w, name) case None => None case Some(i) => if n.sems[i].opens > 0 then Some(i) else None
  {
    DieKeeps(w, pid);
    var n := Next(w, Die(pid));
    CleanupKeeps(w, pid, 0);
    CleanupNoNew(w, pid, 0);
    assert NoNewEntries(w, n);
    if Find(w, name).Some? {
      var i := Find(w, name).value;
      if n.sems[i].opens > 0 { FoundIs(n, i); }
      if n.sems[i].opens == 0 && Find(n, name).Some? { FoundIs(w, Find(n, name).value); }
      assert SemOk(n.sems[i], n.view.procs, i);
    }
  }

  lemma DieEquation(w: World, pid: nat, name: string)
    requires SemInv(w) && pid in w.view.procs
    ensures SemInv(Next(w, Die(pid))) && SliceOf(Next(w, Die(pid)), name) == DieSlice(SliceOf(w, name), pid)
  {
    DieFind(w, pid, name);
    if Find(w, name).Some? {
      var i := Find(w, name).value;
      var n := Next(w, Die(pid));
      DieSliceAt(w, pid, i);
      assert SemOk(n.sems[i], n.view.procs, i) && SemOk(w.sems[i], w.view.procs, i);
      assert SliceAt(n, i).openers == SliceAt(w, i).openers - {pid};
    }
  }
}
