/**
 Process control blocks and the table they live in. A PCB pointer of the source is a slot number here;
 `Live` is the table as process_get sees it: the non-free PCBs by pid.
 */
module Processes {

  datatype Option<T> = None | Some(value: T)

  const MAX_PROCESSES: nat := 64
  const MIN_PRIORITY: nat := 1
  const MAX_PRIORITY: nat := 5
  const DEFAULT_PRIORITY: nat := 3

  datatype State = Free | Ready | Running | Blocked | Zombie

  /** `heldSems` and `openedSems` are the semaphore bitmaps, as sets of bit numbers; `stack` and `argv` are the
      kernel allocations the PCB owns; `savedRax` is the RAX slot of the saved stack frame. */
  datatype Pcb = Pcb(pid: nat, priority: nat, quanta: nat, waitTicks: nat, state: State, foreground: nat,
                     stdin: int, stdout: int, parent: nat, waitingFor: nat, retval: int,
                     heldSems: set<nat>, openedSems: set<nat>, stack: Option<nat>, argv: Option<nat>, savedRax: int)

  type Procs = map<nat, Pcb>

  /** What the system calls on semaphores and pipes see of the processes. */
  datatype View = View(procs: Procs, cur: Option<nat>, force: bool)

  function ProcessBlock(v: View, pid: nat): View {
    if pid !in v.procs || v.procs[pid].state in {Free, Zombie, Blocked} then v
    else v.(procs := v.procs[pid := v.procs[pid].(state := Blocked)], force := v.force || v.cur == Some(pid))
  }

  /** Wakes a blocked process; one of higher priority than the current asks for a switch. */
  function ProcessUnblock(v: View, pid: nat): View {
    if pid !in v.procs || v.procs[pid].state != Blocked then v
    else
      var p := v.procs[pid];
      v.(procs := v.procs[pid := p.(state := Ready, waitTicks := 0)],
         force := v.force || (v.cur.Some? && v.cur.value in v.procs && p.priority > v.procs[v.cur.value].priority))
  }

  /** p has been woken and has a higher priority than the current process. */
  predicate WokenAbove(v: View, v': View, p: nat) {
    && v.cur.Some? && v.cur.value in v.procs && p in v.procs && p in v'.procs
    && v.procs[p].state == Blocked && v'.procs[p].state == Ready && v.procs[p].priority > v.procs[v.cur.value].priority
  }

  ghost predicate Boosted(v: View, v': View) {
    exists p {:trigger WokenAbove(v, v', p)} :: WokenAbove(v, v', p)
  }

  predicate AtMostWoken(v: View, v': View, p: nat)
    requires p in v.procs && p in v'.procs
  {
    v'.procs[p].priority == v.procs[p].priority
      && (v'.procs[p].state == v.procs[p].state || (v.procs[p].state == Blocked && v'.procs[p].state == Ready))
  }

  ghost predicate OnlyWoken(v: View, v': View) {
    && v'.cur == v.cur && v'.procs.Keys == v.procs.Keys
    && forall p {:trigger AtMostWoken(v, v', p)} :: p in v.procs && p in v'.procs ==> AtMostWoken(v, v', p)
  }

  lemma BoostedTrans(v: View, v1: View, v2: View)
    requires OnlyWoken(v, v1) && OnlyWoken(v1, v2)
    ensures Boosted(v, v2) <==> Boosted(v, v1) || Boosted(v1, v2)
  {
    forall p | p in v.procs
      ensures WokenAbove(v, v2, p) <==> WokenAbove(v, v1, p) || WokenAbove(v1, v2, p)
    {
      assert AtMostWoken(v, v1, p) && AtMostWoken(v1, v2, p);
      if v.cur.Some? && v.cur.value in v.procs { assert AtMostWoken(v, v1, v.cur.value); }
    }
    if Boosted(v, v2) {
      var p :| WokenAbove(v, v2, p);
      assert WokenAbove(v, v1, p) || WokenAbove(v1, v2, p);
    }
    if Boosted(v, v1) {
      var p :| WokenAbove(v, v1, p);
      assert WokenAbove(v, v2, p);
    }
    if Boosted(v1, v2) {
      var p :| WokenAbove(v1, v2, p);
      assert WokenAbove(v, v2, p);
    }
  }
}
