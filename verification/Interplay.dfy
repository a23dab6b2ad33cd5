/**
 What the system calls on semaphores do to the processes, in the terms in which the kernel's entries and the pipes see
 it: they change bitmaps, wake only processes they take out of a queue, or put the caller to sleep.
 */
module Interplay {
  import opened Processes
  import Sems = SemaphoreSpec
  import SemTheorems = SemaphoreTheorems
  import Queues = PipeQueues
  import KernelTheorems

  /** The PCB without its bitmaps and standard streams. */
  function Plain(b: Pcb): Pcb { b.(stdin := 0, stdout := 0, heldSems := {}, openedSems := {}) }

  predicate RousedPcb(a: Pcb, b: Pcb, may: bool) {
    || Plain(b) == Plain(a)
    || (may && a.state == Blocked && a.waitingFor == 0 && Plain(b) == Plain(a).(state := State.Ready, waitTicks := 0))
  }

  predicate RousedAt(v: View, v': View, q: set<nat>, p: nat)
    requires p in v.procs && p in v'.procs
  {
    RousedPcb(v.procs[p], v'.procs[p], p in q)
  }

  /** Only processes of q may have been woken, otherwise only bitmaps and streams changed, and a switch is asked for
      just if one of them has a higher priority than the current process. */
  ghost predicate Roused(v: View, v': View, q: set<nat>) {
    && v'.cur == v.cur && (v'.force <==> v.force || Boosted(v, v')) && v'.procs.Keys == v.procs.Keys
    && forall p {:trigger RousedAt(v, v', q, p)} :: p in v.procs && p in v'.procs ==> RousedAt(v, v', q, p)
  }

  lemma RousedTrans(v: View, v1: View, v2: View, q1: set<nat>, q2: set<nat>, q: set<nat>)
    requires Roused(v, v1, q1) && Roused(v1, v2, q2) && q1 <= q && q2 <= q
    ensures Roused(v, v2, q)
  {
    forall p | p in v.procs && p in v2.procs ensures RousedAt(v, v2, q, p) {
      assert RousedAt(v, v1, q1, p) && RousedAt(v1, v2, q2, p);
    }
    RousedOnly(v, v1, q1);
    RousedOnly(v1, v2, q2);
    BoostedTrans(v, v1, v2);
  }

  lemma RousedOnly(v: View, v': View, q: set<nat>)
    requires Roused(v, v', q)
    ensures OnlyWoken(v, v')
  {
    forall p | p in v.procs && p in v'.procs ensures AtMostWoken(v, v', p) { assert RousedAt(v, v', q, p); }
  }

  lemma WakesRouse(v: View, v': View, q: set<nat>)
    requires Queues.Wakes(v, v', q)
    ensures Roused(v, v', q)
  {
    forall p | p in v.procs && p in v'.procs ensures RousedAt(v, v', q, p) { assert Queues.WakesAt(v, v', q, p); }
  }

  /** What the kernel's entries allow. */
  lemma RousedIsSoft(v: View, v': View, q: set<nat>)
    requires Roused(v, v', q)
    ensures KernelTheorems.Soft(v, v')
  {
    forall p | p in v.procs && p in v'.procs ensures KernelTheorems.SoftAt(v, v', p) { assert RousedAt(v, v', q, p); }
    if v'.cur.Some? && v'.cur.value in v'.procs { assert RousedAt(v, v', q, v'.cur.value); }
  }

  lemma BlockIsSoft(v: View)
    requires v.cur.Some? && v.cur.value in v.procs && v.procs[v.cur.value].state == Running
    ensures KernelTheorems.Soft(v, ProcessBlock(v, v.cur.value))
  {
    var v' := ProcessBlock(v, v.cur.value);
    forall p | p in v.procs && p in v'.procs ensures KernelTheorems.SoftAt(v, v', p) { }
  }

  // ---------------------------------------------------------------- semaphores

  ghost function SemWaiting(sems: seq<Sems.Sem>): set<nat> {
    set i, x | 0 <= i < |sems| && x in sems[i].queue :: x
  }

  /** Who waits at a semaphore waits for no child. */
  ghost predicate Sleepy(w: Sems.World) {
    forall x {:trigger Queues.Sleepy(w.view.procs, x)} :: x in SemWaiting(w.sems) ==> Queues.Sleepy(w.view.procs, x)
  }

  lemma BitsRouse(v: View, p: nat, b: Pcb)
    requires p in v.procs && Plain(b) == Plain(v.procs[p])
    ensures Roused(v, v.(procs := v.procs[p := b]), {})
  {
    var v' := v.(procs := v.procs[p := b]);
    forall x | x in v.procs && x in v'.procs ensures RousedAt(v, v', {}, x) { }
  }

  lemma SelfRoused(v: View, q: set<nat>)
    ensures Roused(v, v, q)
  {
  }

  lemma UnblockRouses(v: View, p: nat)
    requires Queues.Sleepy(v.procs, p)
    ensures Roused(v, ProcessUnblock(v, p), {p})
  {
    Queues.UnblockWakes(v, p);
    WakesRouse(v, ProcessUnblock(v, p), {p});
  }

  /** An operation that wakes some of those waiting and has nobody new wait. */
  ghost predicate Gentle(w: Sems.World, w': Sems.World) {
    Roused(w.view, w'.view, SemWaiting(w.sems)) && SemWaiting(w'.sems) <= SemWaiting(w.sems) && Sleepy(w')
  }

  lemma StillSleepy(w: Sems.World, w': Sems.World)
    requires Sleepy(w) && Roused(w.view, w'.view, SemWaiting(w.sems)) && SemWaiting(w'.sems) <= SemWaiting(w.sems)
    ensures Gentle(w, w')
  {
    forall x | x in SemWaiting(w'.sems) ensures Queues.Sleepy(w'.view.procs, x) {
      assert Queues.Sleepy(w.view.procs, x);
      assert RousedAt(w.view, w'.view, SemWaiting(w.sems), x);
    }
  }

  lemma GentleTrans(w: Sems.World, w1: Sems.World, w2: Sems.World)
    requires Gentle(w, w1) && Gentle(w1, w2)
    ensures Gentle(w, w2)
  {
    RousedTrans(w.view, w1.view, w2.view, SemWaiting(w.sems), SemWaiting(w1.sems), SemWaiting(w.sems));
  }

  lemma BitsGentle(w: Sems.World, p: nat, b: Pcb)
    requires Sleepy(w) && p in w.view.procs && Plain(b) == Plain(w.view.procs[p])
    ensures Gentle(w, w.(view := w.view.(procs := w.view.procs[p := b])))
  {
    BitsRouse(w.view, p, b);
    var w' := w.(view := w.view.(procs := w.view.procs[p := b]));
    SelfRoused(w.view, SemWaiting(w.sems));
    RousedTrans(w.view, w.view, w'.view, SemWaiting(w.sems), {}, SemWaiting(w.sems));
    StillSleepy(w, w');
  }

  /** One semaphore changes, its queue at most shrinking. */
  lemma SemGentle(w: Sems.World, i: nat, s: Sems.Sem)
    requires Sleepy(w) && i < |w.sems| && forall x :: x in s.queue ==> x in w.sems[i].queue
    ensures Gentle(w, w.(sems := w.sems[i := s]))
  {
    SelfRoused(w.view, SemWaiting(w.sems));
    var w' := w.(sems := w.sems[i := s]);
    forall x | x in SemWaiting(w'.sems) ensures x in SemWaiting(w.sems) {
      var j :| 0 <= j < |w'.sems| && x in w'.sems[j].queue;
      assert x in w.sems[j].queue;
    }
    StillSleepy(w, w');
  }

  lemma GiveBackGentle(w: Sems.World, i: nat)
    requires Sleepy(w) && i < |w.sems|
    ensures Gentle(w, Sems.GiveBack(w, i))
  {
    var s := w.sems[i].(value := w.sems[i].value + 1);
    if s.value <= 0 && |s.queue| > 0 {
      var pid := s.queue[0];
      assert pid in w.sems[i].queue && pid in SemWaiting(w.sems);
      assert Queues.Sleepy(w.view.procs, pid);
      var b := w.view.procs[pid].(heldSems := w.view.procs[pid].heldSems + {i});
      BitsGentle(w, pid, b);
      var v1 := w.view.(procs := w.view.procs[pid := b]);
      UnblockRouses(v1, pid);
      var w' := Sems.GiveBack(w, i);
      RousedTrans(w.view, v1, w'.view, SemWaiting(w.sems), {pid}, SemWaiting(w.sems));
      SemGentle(w, i, s.(queue := s.queue[1..]));
      StillSleepy(w, w');
    } else {
      SemGentle(w, i, s);
    }
  }

  lemma ClearHeldGentle(w: Sems.World, p: Option<nat>, i: nat)
    requires Sleepy(w)
    ensures Gentle(w, w.(view := Sems.ClearHeld(w.view, p, i)))
  {
    if p.Some? && p.value in w.view.procs {
      BitsGentle(w, p.value, w.view.procs[p.value].(heldSems := w.view.procs[p.value].heldSems - {i}));
    } else {
      GentleSelf(w);
    }
  }

  lemma GentleSelf(w: Sems.World)
    requires Sleepy(w)
    ensures Gentle(w, w)
  {
    SelfRoused(w.view, SemWaiting(w.sems));
  }

  lemma PostGentle(w: Sems.World, name: string)
    requires Sleepy(w)
    ensures Gentle(w, Sems.SemPost(w, name).0)
  {
    GentleSelf(w);
    if Sems.Find(w, name).Some? {
      var i := Sems.Find(w, name).value;
      var w1 := w.(view := Sems.ClearHeld(w.view, w.view.cur, i));
      ClearHeldGentle(w, w.view.cur, i);
      GiveBackGentle(w1, i);
      GentleTrans(w, w1, Sems.GiveBack(w1, i));
    }
  }

  lemma OpenGentle(w: Sems.World, name: string, initial: nat)
    requires Sleepy(w)
    ensures Gentle(w, Sems.SemOpen(w, name, initial).0)
  {
    GentleSelf(w);
    var slot := if Sems.Find(w, name).Some? then Sems.Find(w, name) else Sems.FreeFrom(w.sems, 0);
    if slot.Some? {
      var i := slot.value;
      var w' := Sems.SemOpen(w, name, initial).0;
      var w1 := w.(sems := w'.sems);
      SemGentle(w, i, w'.sems[i]);
      if w.view.cur.Some? && w.view.cur.value in w.view.procs {
        var b := w.view.procs[w.view.cur.value];
        BitsGentle(w1, w.view.cur.value, b.(openedSems := b.openedSems + {i}));
      } else {
        GentleSelf(w1);
      }
      GentleTrans(w, w1, w');
    }
  }

  lemma CloseGentle(w: Sems.World, name: string)
    requires Sleepy(w)
    ensures Gentle(w, Sems.SemClose(w, name).0)
  {
    GentleSelf(w);
    if Sems.Find(w, name).Some? {
      var i := Sems.Find(w, name).value;
      var w' := Sems.SemClose(w, name).0;
      var w1 := w.(sems := w'.sems);
      SemGentle(w, i, w'.sems[i]);
      if w.view.cur.Some? && w.view.cur.value in w.view.procs {
        var b := w.view.procs[w.view.cur.value];
        var b' := b.(heldSems := b.heldSems - {i}, openedSems := b.openedSems - {i});
        BitsGentle(w1, w.view.cur.value, b');
        assert w'.view.procs == w.view.procs[w.view.cur.value := b'];
      } else {
        GentleSelf(w1);
      }
      GentleTrans(w, w1, w');
    }
  }

  /** sem_wait puts the caller to sleep in the queue, or lets it on. */
  lemma WaitEffect(w: Sems.World, name: string)
    requires Sleepy(w) && Queues.CallerRuns(w.view)
    ensures var w' := Sems.SemWait(w, name).0;
            || Gentle(w, w')
            || (w'.view == ProcessBlock(w.view, w.view.cur.value) && Sleepy(w')
                && SemWaiting(w'.sems) <= SemWaiting(w.sems) + {w.view.cur.value})
  {
    GentleSelf(w);
    var me := w.view.cur.value;
    if Sems.Find(w, name).Some? {
      var i := Sems.Find(w, name).value;
      var s := w.sems[i].(value := w.sems[i].value - 1);
      var w' := Sems.SemWait(w, name).0;
      if s.value < 0 {
        forall x | x in SemWaiting(w'.sems) ensures x in SemWaiting(w.sems) + {me} && Queues.Sleepy(w'.view.procs, x) {
          var j :| 0 <= j < |w'.sems| && x in w'.sems[j].queue;
          if x != me {
            assert x in w.sems[j].queue;
            assert Queues.Sleepy(w.view.procs, x);
          }
        }
      } else {
        var w1 := w.(sems := w'.sems);
        SemGentle(w, i, s);
        BitsGentle(w1, me, w.view.procs[me].(heldSems := w.view.procs[me].heldSems + {i}));
        GentleTrans(w, w1, w');
      }
    }
  }

  // ---------------------------------------------------------------- death

  lemma CleanupOneGentle(w: Sems.World, pid: nat, i: nat)
    requires Sleepy(w) && i < |w.sems| && pid in w.view.procs
    ensures Gentle(w, Sems.CleanupOne(w, pid, i))
  {
    GentleSelf(w);
    var s := w.sems[i];
    if s.opens > 0 {
      SemTheorems.RemoveIs(s.queue, pid);
      var opener := i in w.view.procs[pid].openedSems;
      var s2 := s.(queue := Sems.Remove(s.queue, pid), opens := if opener then s.opens - 1 else s.opens);
      var v2 := if opener then Sems.ClearOpened(w.view, Some(pid), i) else w.view;
      var w2 := Sems.World(w.sems[i := s2], v2);
      Step1(w, pid, i, s2, v2);
      var w3 := w2.(view := Sems.ClearHeld(v2, Some(pid), i));
      ClearHeldGentle(w2, Some(pid), i);
      GentleTrans(w, w2, w3);
      GiveBackGentle(w3, i);
      GentleTrans(w, w3, Sems.GiveBack(w3, i));
      var w4 := w3.(sems := w3.sems[i := s2.(value := s2.value + 1)]);
      SemGentle(w3, i, s2.(value := s2.value + 1));
      GentleTrans(w, w3, w4);
      assert w.sems[i := s2][i := s2.(value := s2.value + 1)] == w.sems[i := s2.(value := s2.value + 1)];
    }
  }

  lemma Step1(w: Sems.World, pid: nat, i: nat, s2: Sems.Sem, v2: View)
    requires Sleepy(w) && i < |w.sems| && pid in w.view.procs && (forall x :: x in s2.queue ==> x in w.sems[i].queue)
    requires (v2 == w.view || v2 == Sems.ClearOpened(w.view, Some(pid), i))
    ensures Gentle(w, Sems.World(w.sems[i := s2], v2))
  {
    var w1 := w.(sems := w.sems[i := s2]);
    SemGentle(w, i, s2);
    GentleSelf(w1);
    BitsGentle(w1, pid, w.view.procs[pid].(openedSems := w.view.procs[pid].openedSems - {i}));
    GentleTrans(w, w1, Sems.World(w.sems[i := s2], v2));
  }

  lemma {:induction false} CleanupFromGentle(w: Sems.World, pid: nat, i: nat)
    requires Sleepy(w) && i <= |w.sems| && pid in w.view.procs
    ensures Gentle(w, Sems.CleanupFrom(w, pid, i))
    decreases |w.sems| - i
  {
    GentleSelf(w);
    if i < |w.sems| {
      CleanupOneGentle(w, pid, i);
      CleanupFromGentle(Sems.CleanupOne(w, pid, i), pid, i + 1);
      GentleTrans(w, Sems.CleanupOne(w, pid, i), Sems.CleanupFrom(w, pid, i));
    }
  }

  lemma SemCleanupGentle(w: Sems.World, pid: nat)
    requires Sleepy(w)
    ensures Gentle(w, Sems.SemCleanup(w, pid))
  {
    GentleSelf(w);
    if pid in w.view.procs {
      CleanupFromGentle(w, pid, 0);
      var c := Sems.CleanupFrom(w, pid, 0);
      BitsGentle(c, pid, c.view.procs[pid].(heldSems := {}, openedSems := {}));
      GentleTrans(w, c, Sems.SemCleanup(w, pid));
    }
  }
}
