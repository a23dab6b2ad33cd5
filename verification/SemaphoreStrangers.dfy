/**
 sem_close by a process that does not have the semaphore open: the count falls below the number of those that do, and
 the last of these may find it gone.
 */
module SemaphoreStrangers {
  import opened Processes
  import opened SemaphoreSpec
  import opened SemaphoreTheorems

  /** The entry's count is short of its openers. */
  ghost predicate Undercounted(w: World, i: nat) {
    i < |w.sems| && w.sems[i].opens < |Openers(w.view.procs, i)|
  }

  lemma UndercountedBreaks(w: World, i: nat)
    requires Undercounted(w, i)
    ensures !SemInv(w)
  {
    assert SemInv(w) ==> SemOk(w.sems[i], w.view.procs, i);
  }

  /** Nobody's bits change, and the count is one short; if only one process has it open, it is gone. */
  lemma StrangerCloses(w: World, name: string, i: nat)
    requires SemInv(w) && CallerRuns(w) && Find(w, name) == Some(i) && i !in Me(w).openedSems
    ensures var w' := SemClose(w, name).0;
            && w'.view == w.view && |w'.sems| == |w.sems|
            && (forall j :: 0 <= j < |w.sems| && j != i ==> w'.sems[j] == w.sems[j])
            && w'.sems[i].opens == |Openers(w.view.procs, i)| - 1 && Undercounted(w', i)
            && (|Openers(w.view.procs, i)| == 1 ==> Find(w', name).None?)
  {
    var me := w.view.cur.value;
    assert SemOk(w.sems[i], w.view.procs, i);
    assert me !in Openers(w.view.procs, i) && me !in Holders(w.view.procs, i);
    assert Me(w).heldSems - {i} == Me(w).heldSems && Me(w).openedSems - {i} == Me(w).openedSems;
    assert w.view.procs[me := w.view.procs[me]] == w.view.procs;
  }

  /** A close keeps the table consistent if and only if its caller has the semaphore open, or there is none. */
  lemma CloseKeepsIff(w: World, name: string)
    requires SemInv(w) && CallerRuns(w)
    ensures SemInv(SemClose(w, name).0) <==> Opened(w, name)
  {
    if Find(w, name).Some? {
      var i := Find(w, name).value;
      if i in Me(w).openedSems {
        CloseKeeps(w, name);
      } else {
        StrangerCloses(w, name, i);
        UndercountedBreaks(SemClose(w, name).0, i);
      }
    }
  }
}
