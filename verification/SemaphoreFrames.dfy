/**
 What a step that is not about a given semaphore leaves alone: its entry, its openers and its holders.
 */
module SemaphoreFrames {
  import opened Processes
  import opened SemaphoreSpec
  import opened SemaphoreTheorems

  /** The step names another semaphore, or is the death of a process that does not have this one open. */
  ghost predicate Elsewhere(w: World, s: Step, name: string) {
    match s
    case Open(n, _) => n != name
    case Wait(n) => n != name
    case Post(n) => n != name
    case Close(n) => n != name
    case Die(pid) => pid in w.view.procs
      && (Find(w, name).Some? ==> Find(w, name).value !in w.view.procs[pid].openedSems)
    case Other(_) => true
  }

  /** The two tables agree on semaphore i, its openers and its holders. */
  ghost predicate SameSem(w: World, w': World, i: nat) {
    && i < |w.sems| == |w'.sems| && w'.sems[i] == w.sems[i]
    && Openers(w'.view.procs, i) == Openers(w.view.procs, i) && Holders(w'.view.procs, i) == Holders(w.view.procs, i)
  }

  /** No entry came to life, and entries that lived on kept their name. */
  ghost predicate NoNewEntries(w: World, w': World) {
    |w'.sems| == |w.sems| && forall j :: 0 <= j < |w.sems| && w'.sems[j].opens > 0 ==>
      w.sems[j].opens > 0 && w'.sems[j].name == w.sems[j].name
  }

  lemma FoundIs(w: World, i: nat)
    requires UniqueNames(w.sems) && i < |w.sems| && w.sems[i].opens > 0
    ensures Find(w, w.sems[i].name) == Some(i)
  {
  }

  lemma BitsFrame(ps: Procs, p: nat, b: Pcb, i: nat)
    requires p in ps && SameTo(i, ps[p], b)
    ensures Openers(ps[p := b], i) == Openers(ps, i) && Holders(ps[p := b], i) == Holders(ps, i)
  {
    OpenersUpdate(ps, p, b, i);
  }

  lemma GiveBackFrame(w: World, j: nat, i: nat)
    requires j < |w.sems| && i < |w.sems| && i != j && forall p :: p in w.sems[j].queue ==> p in w.view.procs
    ensures SameSem(w, GiveBack(w, j), i) && NoNewEntries(w, GiveBack(w, j))
  {
    var s := w.sems[j].(value := w.sems[j].value + 1);
    if s.value <= 0 && |s.queue| > 0 {
      var pid := s.queue[0];
      assert pid in w.sems[j].queue;
      var v := SetHeld(w.view, Some(pid), j);
      BitsFrame(w.view.procs, pid, v.procs[pid], i);
      BitsFrame(v.procs, pid, ProcessUnblock(v, pid).procs[pid], i);
    }
  }

  lemma CleanupOneFrame(w: World, pid: nat, j: nat, i: nat)
    requires TableOk(w) && pid in w.view.procs && j < |w.sems| && i < |w.sems| && i !in w.view.procs[pid].openedSems
    ensures SameSem(w, CleanupOne(w, pid, j), i) && NoNewEntries(w, CleanupOne(w, pid, j))
    ensures i !in CleanupOne(w, pid, j).view.procs[pid].openedSems
  {
    CleanupOneIs(w, pid, j);
    CleanupOneKeeps(w, pid, j);
    if j in w.view.procs[pid].openedSems {
      var d := Detach(w, pid, j);
      DetachKeeps(w, pid, j);
      assert SemOk(d.sems[j], d.view.procs, j);
      BitsFrame(w.view.procs, pid, d.view.procs[pid], i);
      GiveBackFrame(d, j, i);
      GiveBackOthers(d, j, pid);
    }
  }

  lemma {:induction false} CleanupFrame(w: World, pid: nat, j: nat, i: nat)
    requires TableOk(w) && pid in w.view.procs && j <= |w.sems| && i < |w.sems| && i !in w.view.procs[pid].openedSems
    ensures SameSem(w, CleanupFrom(w, pid, j), i) && NoNewEntries(w, CleanupFrom(w, pid, j))
    decreases |w.sems| - j
  {
    if j < |w.sems| {
      CleanupOneFrame(w, pid, j, i);
      CleanupOneKeeps(w, pid, j);
      CleanupFrame(CleanupOne(w, pid, j), pid, j + 1, i);
    }
  }

  lemma {:induction false} CleanupNoNew(w: World, pid: nat, j: nat)
    requires TableOk(w) && pid in w.view.procs && j <= |w.sems|
    ensures NoNewEntries(w, CleanupFrom(w, pid, j))
    decreases |w.sems| - j
  {
    if j < |w.sems| {
      CleanupOneKeeps(w, pid, j);
      CleanupOneIs(w, pid, j);
      if j in w.view.procs[pid].openedSems {
        var d := Detach(w, pid, j);
        DetachKeeps(w, pid, j);
        assert NoNewEntries(w, d);
        assert NoNewEntries(d, GiveBack(d, j));
      }
      CleanupNoNew(CleanupOne(w, pid, j), pid, j + 1);
    }
  }

  lemma DieFrame(w: World, pid: nat, i: nat)
    requires SemInv(w) && pid in w.view.procs && i < |w.sems| && i !in w.view.procs[pid].openedSems
    ensures SameSem(w, Next(w, Die(pid)), i)
  {
    var c := CleanupFrom(w, pid, 0);
    CleanupKeeps(w, pid, 0);
    CleanupFrame(w, pid, 0, i);
    var n := Next(w, Die(pid));
    assert GoneFrom(c, pid, i);
    assert n.view.procs == c.view.procs - {pid};
    assert Openers(n.view.procs, i) == Openers(c.view.procs, i) && Holders(n.view.procs, i) == Holders(c.view.procs, i);
  }

  /** A step elsewhere on the table does not change semaphore i. */
  lemma StepFrame(w: World, s: Step, name: string, i: nat)
    requires SemInv(w) && Legal(w, s) && Elsewhere(w, s, name) && Find(w, name) == Some(i)
    ensures SameSem(w, Next(w, s), i)
  {
    match s
    case Open(n, initial) =>
      var slot := if Find(w, n).Some? then Find(w, n) else FreeFrom(w.sems, 0);
      if slot.Some? {
        var me := w.view.cur.value;
        BitsFrame(w.view.procs, me, Next(w, s).view.procs[me], i);
      }
    case Wait(n) =>
      if Find(w, n).Some? {
        var me := w.view.cur.value;
        BitsFrame(w.view.procs, me, Next(w, s).view.procs[me], i);
      }
    case Post(n) =>
      if Find(w, n).Some? {
        var j := Find(w, n).value;
        var me := w.view.cur.value;
        var c := w.(view := ClearHeld(w.view, w.view.cur, j));
        BitsFrame(w.view.procs, me, c.view.procs[me], i);
        assert SemOk(w.sems[j], w.view.procs, j);
        GiveBackFrame(c, j, i);
      }
    case Close(n) =>
      if Find(w, n).Some? {
        var j := Find(w, n).value;
        var me := w.view.cur.value;
        var v := ClearHeld(w.view, w.view.cur, j);
        BitsFrame(w.view.procs, me, v.procs[me], i);
        BitsFrame(v.procs, me, ClearOpened(v, w.view.cur, j).procs[me], i);
      }
    case Die(pid) => DieFrame(w, pid, i);
    case Other(view) =>
      assert forall p :: p in w.view.procs ==> SameBits(w.view.procs[p], view.procs[p]);
  }

  /** A step elsewhere neither creates, destroys nor renames the semaphore of the given name. */
  lemma ElsewhereFrame(w: World, s: Step, name: string)
    requires SemInv(w) && Legal(w, s) && Elsewhere(w, s, name)
    ensures Find(Next(w, s), name) == Find(w, name)
    ensures Find(w, name).Some? ==> SameSem(w, Next(w, s), Find(w, name).value)
  {
    StepKeeps(w, s);
    if Find(w, name).Some? {
      var i := Find(w, name).value;
      StepFrame(w, s, name, i);
      FoundIs(Next(w, s), i);
    } else {
      match s
      case Die(pid) =>
        CleanupNoNew(w, pid, 0);
      case _ =>
    }
  }

  // ---------------------------------------------------------------- effects on the semaphore itself

  /** The caller is in no queue, and has no part in a semaphore nobody has open. */
  lemma CallerFacts(w: World, i: nat)
    requires SemInv(w) && CallerRuns(w) && i < |w.sems|
    ensures w.view.cur.value !in w.sems[i].queue
    ensures w.sems[i].opens == 0 ==> Openers(w.view.procs, i) == {} && Holders(w.view.procs, i) == {}
  {
    NotQueued(w, w.view.cur.value);
    assert SemOk(w.sems[i], w.view.procs, i);
  }

  lemma OpenEffect(w: World, name: string, initial: nat)
    requires SemInv(w) && Legal(w, Open(name, initial))
    ensures var (w', r) := SemOpen(w, name, initial);
            match Find(w, name)
            case Some(i) => r == 1 && Find(w', name) == Some(i)
              && Openers(w'.view.procs, i) == Openers(w.view.procs, i) + {w.view.cur.value}
              && Holders(w'.view.procs, i) == Holders(w.view.procs, i)
              && w'.sems[i] == w.sems[i].(opens := w.sems[i].opens + 1)
            case None => (r == 0 ==> w' == w) && (r != 0 ==> Find(w', name).Some? && var i := Find(w', name).value;
              Openers(w'.view.procs, i) == {w.view.cur.value} && Holders(w'.view.procs, i) == {}
              && w'.sems[i] == Sem(name, initial, [], 1) && FreeFrom(w.sems, 0) == Some(i))
  {
    var found := Find(w, name);
    var slot := if found.Some? then found else FreeFrom(w.sems, 0);
    if slot.Some? {
      var i := slot.value;
      var me := w.view.cur.value;
      CallerFacts(w, i);
      OpenKeeps(w, name, initial);
      OpenersUpdate(w.view.procs, me, w.view.procs[me].(openedSems := w.view.procs[me].openedSems + {i}), i);
      FoundIs(SemOpen(w, name, initial).0, i);
      assert me in w.view.procs && i !in w.view.procs[me].heldSems ==> me !in Holders(w.view.procs, i);
    }
  }

  lemma WaitEffect(w: World, name: string, i: nat)
    requires SemInv(w) && Legal(w, Wait(name)) && Find(w, name) == Some(i)
    ensures var w' := SemWait(w, name).0;
            var me := w.view.cur.value;
            && Find(w', name) == Some(i) && Openers(w'.view.procs, i) == Openers(w.view.procs, i)
            && w'.sems[i].value == w.sems[i].value - 1
            && if w.sems[i].value > 0
               then w'.sems[i].queue == w.sems[i].queue && Holders(w'.view.procs, i) == Holders(w.view.procs, i) + {me}
               else w'.sems[i].queue == w.sems[i].queue + [me] && Holders(w'.view.procs, i) == Holders(w.view.procs, i)
  {
    var me := w.view.cur.value;
    var ps := w.view.procs;
    CallerFacts(w, i);
    WaitKeeps(w, name);
    assert SemOk(w.sems[i], ps, i);
    RoomInQueue(w.sems[i].queue, ps, me, i);
    OpenersUpdate(ps, me, SemWait(w, name).0.view.procs[me], i);
    FoundIs(SemWait(w, name).0, i);
    assert me in Openers(ps, i);
  }

  lemma PostEffect(w: World, name: string, i: nat)
    requires SemInv(w) && Legal(w, Post(name)) && Find(w, name) == Some(i)
    ensures var w' := SemPost(w, name).0;
            var h := Holders(w.view.procs, i) - {w.view.cur.value};
            var q := w.sems[i].queue;
            && Find(w', name) == Some(i) && Openers(w'.view.procs, i) == Openers(w.view.procs, i)
            && w'.sems[i].value == w.sems[i].value + 1
            && if q == [] then w'.sems[i].queue == [] && Holders(w'.view.procs, i) == h
               else w'.sems[i].queue == q[1..] && Holders(w'.view.procs, i) == h + {q[0]} && q[0] !in q[1..]
  {
    CallerFacts(w, i);
    PostKeeps(w, name);
    FoundIs(SemPost(w, name).0, i);
    assert SemOk(w.sems[i], w.view.procs, i);
    ClearedIs(w, i);
    if w.sems[i].queue != [] { HandedOver(w, name, i); }
  }

  /** The caller's held bit goes first. */
  lemma ClearedIs(w: World, i: nat)
    requires SemInv(w) && CallerRuns(w) && i < |w.sems|
    ensures var ps := ClearHeld(w.view, w.view.cur, i).procs;
            && ps.Keys == w.view.procs.Keys && Openers(ps, i) == Openers(w.view.procs, i)
            && Holders(ps, i) == Holders(w.view.procs, i) - {w.view.cur.value}
  {
    var me := w.view.cur.value;
    var ps := w.view.procs;
    OpenersUpdate(ps, me, ClearHeld(w.view, w.view.cur, i).procs[me], i);
    assert i in ps[me].openedSems <==> me in Openers(ps, i);
  }

  /** Then the first in the queue gets its own. */
  lemma HandedOver(w: World, name: string, i: nat)
    requires SemInv(w) && Legal(w, Post(name)) && Find(w, name) == Some(i) && w.sems[i].queue != []
    ensures var ps := SemPost(w, name).0.view.procs;
            var q := w.sems[i].queue;
            && q[0] !in q[1..] && Openers(ps, i) == Openers(w.view.procs, i)
            && Holders(ps, i) == Holders(w.view.procs, i) - {w.view.cur.value} + {q[0]}
  {
    var ps := w.view.procs;
    var q := w.sems[i].queue;
    var c := ClearHeld(w.view, w.view.cur, i).procs;
    CallerFacts(w, i);
    ClearedIs(w, i);
    assert SemOk(w.sems[i], ps, i);
    HeadIsNew(q);
    assert q[0] in q && q[0] in ps && q[0] != w.view.cur.value;
    var b := ps[q[0]].(heldSems := ps[q[0]].heldSems + {i}, state := Ready, waitTicks := 0);
    assert SemPost(w, name).0.view.procs == c[q[0] := b];
    OpenersUpdate(c, q[0], b, i);
    assert q[0] in Openers(ps, i);
  }

  lemma CloseEffect(w: World, name: string, i: nat)
    requires SemInv(w) && Legal(w, Close(name)) && Find(w, name) == Some(i)
    ensures var w' := SemClose(w, name).0;
            var me := w.view.cur.value;
            && Openers(w'.view.procs, i) == Openers(w.view.procs, i) - {me}
            && Holders(w'.view.procs, i) == Holders(w.view.procs, i) - {me}
            && Find(w', name) == (if Openers(w.view.procs, i) == {me} then None else Some(i))
            && (Find(w', name).Some? ==> w'.sems[i] == w.sems[i].(opens := w.sems[i].opens - 1))
  {
    var me := w.view.cur.value;
    var ps := w.view.procs;
    var w' := SemClose(w, name).0;
    CallerFacts(w, i);
    CloseKeeps(w, name);
    assert SemOk(w.sems[i], ps, i) && SemOk(w'.sems[i], w'.view.procs, i);
    OpenersUpdate(ps, me, w'.view.procs[me], i);
    assert me in Openers(ps, i);
    if w'.sems[i].opens > 0 {
      FoundIs(w', i);
    } else {
      assert Openers(w'.view.procs, i) == {};
      assert w'.sems == w.sems[i := w'.sems[i]];
    }
  }
}
