/**
 Conservation: a semaphore that each process posts only after having waited for it never loses or gains a unit,
 whatever else happens to the table and whoever dies.
 */
module SemaphoreUnits {
  import opened Processes
  import opened SemaphoreSpec
  import opened SemaphoreTheorems

  ghost function Total(s: Sem, holders: set<nat>): int {
    s.value + |holders| + |s.queue|
  }

  /** Value, holders and waiters add up to the initial value, and nobody waits for what it holds. */
  ghost predicate UnitsOk(w: World, i: nat, init: int)
    requires i < |w.sems|
  {
    w.sems[i].opens > 0 ==>
      && Total(w.sems[i], Holders(w.view.procs, i)) == init
      && forall p :: p in w.sems[i].queue ==> p !in Holders(w.view.procs, i)
  }

  /** Used as a lock: on semaphore i, a process waits only for what it does not hold, and posts only what it holds. */
  ghost predicate Disciplined(w: World, s: Step, i: nat) {
    match s
    case Wait(name) => CallerRuns(w) && (Find(w, name) == Some(i) ==> i !in Me(w).heldSems)
    case Post(name) => CallerRuns(w) && (Find(w, name) == Some(i) ==> i in Me(w).heldSems)
    case Close(name) => CallerRuns(w) && (Find(w, name) == Some(i) ==> i !in Me(w).heldSems)
    case _ => true
  }

  /** The units of semaphore i after the step: its creation decides them. */
  function NextInit(w: World, s: Step, i: nat, init: int): int {
    match s
    case Open(name, initial) => if Find(w, name).None? && FreeFrom(w.sems, 0) == Some(i) then initial else init
    case _ => init
  }

  lemma UnitsFrame(w: World, w': World, i: nat, init: int)
    requires i < |w.sems| && i < |w'.sems| && UnitsOk(w, i, init)
    requires w'.sems[i] == w.sems[i] && Holders(w'.view.procs, i) == Holders(w.view.procs, i)
    ensures UnitsOk(w', i, init)
  {
  }

  /** Giving back one unit: to the first waiter or to the value. */
  lemma GiveBackUnits(w: World, i: nat, j: nat, init: int)
    requires TableOk(w) && i < |w.sems| && j < |w.sems|
    requires UnitsOk(w, j, if i == j then init - 1 else init)
    ensures UnitsOk(GiveBack(w, i), j, init)
  {
    var s := w.sems[i].(value := w.sems[i].value + 1);
    var ps := w.view.procs;
    assert SemOk(w.sems[i], ps, i);
    if s.value <= 0 && |s.queue| > 0 {
      var pid := s.queue[0];
      assert pid in s.queue;
      var b := ps[pid].(heldSems := ps[pid].heldSems + {i}, state := Ready, waitTicks := 0);
      assert GiveBack(w, i).view.procs == ps[pid := b];
      OpenersUpdate(ps, pid, b, j);
      if i == j {
        HeadIsNew(s.queue);
      } else {
        assert Holders(ps[pid := b], j) == Holders(ps, j);
      }
    }
  }

  lemma WaitUnits(w: World, name: string, j: nat, init: int)
    requires SemInv(w) && Legal(w, Wait(name)) && j < |w.sems| && Disciplined(w, Wait(name), j) && UnitsOk(w, j, init)
    ensures UnitsOk(SemWait(w, name).0, j, init)
  {
    if Find(w, name).Some? {
      var i := Find(w, name).value;
      if w.sems[i].value - 1 < 0 { QueueUnits(w, name, i, j, init); } else { TakeUnits(w, name, i, j, init); }
    }
  }

  /** The caller has to wait: one unit less in the value, one more owed. */
  lemma QueueUnits(w: World, name: string, i: nat, j: nat, init: int)
    requires SemInv(w) && Legal(w, Wait(name)) && j < |w.sems| && Disciplined(w, Wait(name), j) && UnitsOk(w, j, init)
    requires Find(w, name) == Some(i) && w.sems[i].value - 1 < 0
    ensures UnitsOk(SemWait(w, name).0, j, init)
  {
    var ps := w.view.procs;
    var me := w.view.cur.value;
    assert SemOk(w.sems[i], ps, i);
    NotQueued(w, me);
    RoomInQueue(w.sems[i].queue, ps, me, i);
    OpenersUpdate(ps, me, ps[me].(state := Blocked), j);
    assert Holders(ps[me := ps[me].(state := Blocked)], j) == Holders(ps, j);
  }

  /** The caller gets a unit of the value. */
  lemma TakeUnits(w: World, name: string, i: nat, j: nat, init: int)
    requires SemInv(w) && Legal(w, Wait(name)) && j < |w.sems| && Disciplined(w, Wait(name), j) && UnitsOk(w, j, init)
    requires Find(w, name) == Some(i) && w.sems[i].value - 1 >= 0
    ensures UnitsOk(SemWait(w, name).0, j, init)
  {
    var ps := w.view.procs;
    var me := w.view.cur.value;
    var b := ps[me].(heldSems := ps[me].heldSems + {i});
    NotQueued(w, me);
    OpenersUpdate(ps, me, b, j);
    if i != j { assert Holders(ps[me := b], j) == Holders(ps, j); }
  }

  lemma PostUnits(w: World, name: string, j: nat, init: int)
    requires SemInv(w) && Legal(w, Post(name)) && j < |w.sems| && Disciplined(w, Post(name), j) && UnitsOk(w, j, init)
    ensures UnitsOk(SemPost(w, name).0, j, init)
  {
    if Find(w, name).Some? {
      var i := Find(w, name).value;
      var ps := w.view.procs;
      var me := w.view.cur.value;
      var b := ps[me].(heldSems := ps[me].heldSems - {i});
      var c := w.(view := ClearHeld(w.view, w.view.cur, i));
      OpenersUpdate(ps, me, b, j);
      assert SemOk(w.sems[i], ps, i);
      SemFrameHeld(w.sems[i], ps, me, b, i);
      OthersFrame(w.sems, ps, me, b, i);
      if i == j {
        assert me in Holders(ps, i);
      } else {
        assert Holders(ps[me := b], j) == Holders(ps, j);
      }
      GiveBackUnits(c, i, j, init);
    }
  }

  lemma CloseUnits(w: World, name: string, j: nat, init: int)
    requires SemInv(w) && Legal(w, Close(name)) && j < |w.sems| && Disciplined(w, Close(name), j) && UnitsOk(w, j, init)
    ensures UnitsOk(SemClose(w, name).0, j, init)
  {
    if Find(w, name).Some? {
      var i := Find(w, name).value;
      var ps := w.view.procs;
      var me := w.view.cur.value;
      var b := ps[me].(heldSems := ps[me].heldSems - {i}, openedSems := ps[me].openedSems - {i});
      assert SemClose(w, name).0.view.procs == ps[me := b];
      OpenersUpdate(ps, me, b, j);
      assert i != j || i !in ps[me].heldSems;
      assert Holders(ps[me := b], j) == Holders(ps, j);
    }
  }

  /** The bitmap of opened semaphores is no part of the units. */
  lemma OpenedUnits(w: World, me: nat, i: nat, j: nat)
    requires me in w.view.procs
    ensures Holders(SetOpened(w.view, Some(me), i).procs, j) == Holders(w.view.procs, j)
  {
    OpenersUpdate(w.view.procs, me, w.view.procs[me].(openedSems := w.view.procs[me].openedSems + {i}), j);
  }

  lemma OpenUnits(w: World, name: string, initial: nat, j: nat, init: int)
    requires SemInv(w) && Legal(w, Open(name, initial)) && j < |w.sems| && UnitsOk(w, j, init)
    ensures UnitsOk(SemOpen(w, name, initial).0, j, NextInit(w, Open(name, initial), j, init))
  {
    var found := Find(w, name);
    var slot := if found.Some? then found else FreeFrom(w.sems, 0);
    if slot.Some? {
      assert SemOk(w.sems[slot.value], w.view.procs, slot.value);
      OpenedUnits(w, w.view.cur.value, slot.value, j);
    }
  }

  lemma DetachUnits(w: World, pid: nat, i: nat, j: nat, init: int)
    requires TableOk(w) && pid in w.view.procs && i < |w.sems| && j < |w.sems| && i in w.view.procs[pid].openedSems
    requires UnitsOk(w, j, init)
    ensures UnitsOk(Detach(w, pid, i), j, if i == j && i in w.view.procs[pid].heldSems then init - 1 else init)
  {
    var ps := w.view.procs;
    var b := Detached(ps[pid], i);
    assert SemOk(w.sems[i], ps, i);
    RemoveIs(w.sems[i].queue, pid);
    OpenersUpdate(ps, pid, b, j);
    assert i in ps[pid].heldSems <==> pid in Holders(ps, i);
    if i != j || i !in ps[pid].heldSems {
      assert Holders(ps[pid := b], j) == Holders(ps, j);
    }
  }

  lemma {:induction false} CleanupUnits(w: World, pid: nat, i: nat, j: nat, init: int)
    requires TableOk(w) && pid in w.view.procs && i <= |w.sems| && j < |w.sems| && UnitsOk(w, j, init)
    ensures UnitsOk(CleanupFrom(w, pid, i), j, init)
    decreases |w.sems| - i
  {
    if i < |w.sems| {
      CleanupOneKeeps(w, pid, i);
      CleanupOneIs(w, pid, i);
      if i in w.view.procs[pid].openedSems {
        DetachUnits(w, pid, i, j, init);
        assert SemOk(w.sems[i], w.view.procs, i);
        assert i in w.view.procs[pid].heldSems <==> pid in Holders(w.view.procs, i);
        if i in w.view.procs[pid].heldSems && pid !in w.sems[i].queue {
          DetachKeeps(w, pid, i);
          GiveBackUnits(Detach(w, pid, i), i, j, init);
        }
      }
      CleanupUnits(CleanupOne(w, pid, i), pid, i + 1, j, init);
    }
  }

  lemma DieUnits(w: World, pid: nat, j: nat, init: int)
    requires SemInv(w) && pid in w.view.procs && j < |w.sems| && UnitsOk(w, j, init)
    ensures UnitsOk(Next(w, Die(pid)), j, init)
  {
    var c := CleanupFrom(w, pid, 0);
    CleanupKeeps(w, pid, 0);
    CleanupUnits(w, pid, 0, j, init);
    var n := Next(w, Die(pid));
    assert GoneFrom(c, pid, j);
    assert n.view.procs == c.view.procs - {pid};
    assert Holders(n.view.procs, j) == Holders(c.view.procs, j);
    UnitsFrame(c, n, j, init);
  }

  /** Every step, a death at any point included, conserves the units of a semaphore used as a lock. */
  lemma StepUnits(w: World, s: Step, j: nat, init: int)
    requires SemInv(w) && Legal(w, s) && j < |w.sems| && Disciplined(w, s, j) && UnitsOk(w, j, init)
    ensures |Next(w, s).sems| == MAX_SEMS && UnitsOk(Next(w, s), j, NextInit(w, s, j, init))
  {
    StepKeeps(w, s);
    match s
    case Open(name, initial) => OpenUnits(w, name, initial, j, init);
    case Wait(name) => WaitUnits(w, name, j, init);
    case Post(name) => PostUnits(w, name, j, init);
    case Close(name) => CloseUnits(w, name, j, init);
    case Die(pid) => DieUnits(w, pid, j, init);
    case Other(view) =>
      assert forall p :: p in w.view.procs ==> SameBits(w.view.procs[p], view.procs[p]);
      assert Holders(view.procs, j) == Holders(w.view.procs, j);
  }

  // ---------------------------------------------------------------- runs

  ghost predicate LegalRun(w: World, ss: seq<Step>)
    decreases |ss|
  {
    ss == [] || (Legal(w, ss[0]) && LegalRun(Next(w, ss[0]), ss[1..]))
  }

  ghost predicate DisciplinedRun(w: World, ss: seq<Step>, i: nat)
    decreases |ss|
  {
    ss == [] || (Disciplined(w, ss[0], i) && DisciplinedRun(Next(w, ss[0]), ss[1..], i))
  }

  function After(w: World, ss: seq<Step>): World
    decreases |ss|
  {
    if ss == [] then w else After(Next(w, ss[0]), ss[1..])
  }

  function InitAfter(w: World, ss: seq<Step>, i: nat, init: int): int
    decreases |ss|
  {
    if ss == [] then init else InitAfter(Next(w, ss[0]), ss[1..], i, NextInit(w, ss[0], i, init))
  }

  /** After any legal run the waiters are the negative part of the value, and any semaphore used as a lock
      throughout satisfies value == initial - holders - waiters. */
  lemma {:induction false} RunUnits(w: World, ss: seq<Step>, i: nat, init: int)
    requires SemInv(w) && LegalRun(w, ss) && i < |w.sems| && UnitsOk(w, i, init) && DisciplinedRun(w, ss, i)
    ensures var e := After(w, ss);
            SemInv(e) && (e.sems[i].opens > 0 ==>
              && |e.sems[i].queue| == Waiting(e.sems[i].value)
              && e.sems[i].value == InitAfter(w, ss, i, init) - |Holders(e.view.procs, i)| - |e.sems[i].queue|)
    decreases |ss|
  {
    if ss == [] {
      assert SemOk(w.sems[i], w.view.procs, i);
    } else {
      StepKeeps(w, ss[0]);
      StepUnits(w, ss[0], i, init);
      RunUnits(Next(w, ss[0]), ss[1..], i, NextInit(w, ss[0], i, init));
    }
  }

  /** A post serves the process that has waited longest: it becomes the holder and is ready. */
  lemma PostServesFirst(w: World, name: string)
    requires SemInv(w) && Legal(w, Post(name)) && Find(w, name).Some? && w.sems[Find(w, name).value].queue != []
    ensures var i := Find(w, name).value;
            var q := w.sems[i].queue;
            var r := SemPost(w, name).0;
            && q[0] in r.view.procs && i in r.view.procs[q[0]].heldSems && r.view.procs[q[0]].state == Ready
            && r.sems == w.sems[i := w.sems[i].(value := w.sems[i].value + 1, queue := q[1..])]
            && forall p :: p in w.view.procs && p != q[0] ==>
               p in r.view.procs && r.view.procs[p].state == w.view.procs[p].state
  {
    var i := Find(w, name).value;
    assert SemOk(w.sems[i], w.view.procs, i);
    assert w.sems[i].queue[0] in w.sems[i].queue;
    NotQueued(w, w.view.cur.value);
  }
}
