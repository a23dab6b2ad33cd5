/**
 The system calls of semaphore.c as functions on the semaphore table and the processes.
 */
module SemaphoreSpec {
  import opened Processes

  const MAX_SEMS: nat := 32
  const SEM_NAME_LEN: nat := 32

  datatype Sem = Sem(name: string, value: int, queue: seq<nat>, opens: int)

  datatype World = World(sems: seq<Sem>, view: View)

  /** What sem_str_copy stores of a name. */
  function Stored(name: string): string {
    if |name| < SEM_NAME_LEN then name else name[..SEM_NAME_LEN - 1]
  }

  /** The cast of the initial value to a signed 64-bit integer. */
  function ToSigned(v: nat): int {
    if v < 0x8000_0000_0000_0000 then v else v - 0x1_0000_0000_0000_0000
  }

  /** The first open semaphore of the given name, from index i on. */
  function FindFrom(sems: seq<Sem>, name: string, i: nat): (r: Option<nat>)
    requires i <= |sems|
    ensures r.Some? ==> i <= r.value < |sems| && sems[r.value].opens > 0 && sems[r.value].name == name
    ensures r.None? ==> forall j :: i <= j < |sems| ==> !(sems[j].opens > 0 && sems[j].name == name)
    decreases |sems| - i
  {
    if i == |sems| then None
    else if sems[i].opens > 0 && sems[i].name == name then Some(i)
    else FindFrom(sems, name, i + 1)
  }

  function FreeFrom(sems: seq<Sem>, i: nat): (r: Option<nat>)
    requires i <= |sems|
    ensures r.Some? ==> i <= r.value < |sems| && sems[r.value].opens == 0
    ensures forall j :: i <= j < (if r.Some? then r.value else |sems|) ==> sems[j].opens != 0
    decreases |sems| - i
  {
    if i == |sems| then None else if sems[i].opens == 0 then Some(i) else FreeFrom(sems, i + 1)
  }

  function Find(w: World, name: string): Option<nat> {
    FindFrom(w.sems, name, 0)
  }

  /** A change to one process's bitmaps; no effect on a pid that is not live. */
  function SetOpened(v: View, pid: Option<nat>, i: nat): View {
    if pid.Some? && pid.value in v.procs then
      v.(procs := v.procs[pid.value := v.procs[pid.value].(openedSems := v.procs[pid.value].openedSems + {i})])
    else v
  }

  function SetHeld(v: View, pid: Option<nat>, i: nat): View {
    if pid.Some? && pid.value in v.procs then
      v.(procs := v.procs[pid.value := v.procs[pid.value].(heldSems := v.procs[pid.value].heldSems + {i})])
    else v
  }

  function ClearHeld(v: View, pid: Option<nat>, i: nat): View {
    if pid.Some? && pid.value in v.procs then
      v.(procs := v.procs[pid.value := v.procs[pid.value].(heldSems := v.procs[pid.value].heldSems - {i})])
    else v
  }

  function ClearOpened(v: View, pid: Option<nat>, i: nat): View {
    if pid.Some? && pid.value in v.procs then
      v.(procs := v.procs[pid.value := v.procs[pid.value].(openedSems := v.procs[pid.value].openedSems - {i})])
    else v
  }

  function Push(q: seq<nat>, pid: nat): seq<nat> {
    if |q| >= MAX_PROCESSES then q else q + [pid]
  }

  function Remove(q: seq<nat>, pid: nat): seq<nat> {
    if q == [] then [] else if q[0] == pid then Remove(q[1..], pid) else [q[0]] + Remove(q[1..], pid)
  }

  function SemOpen(w: World, name: string, initial: nat): (World, int) {
    match Find(w, name)
    case Some(i) =>
      (World(w.sems[i := w.sems[i].(opens := w.sems[i].opens + 1)], SetOpened(w.view, w.view.cur, i)), 1)
    case None =>
      match FreeFrom(w.sems, 0)
      case None => (w, 0)
      case Some(i) =>
        (World(w.sems[i := Sem(Stored(name), ToSigned(initial), [], 1)], SetOpened(w.view, w.view.cur, i)), 1)
  }

  function SemWait(w: World, name: string): (World, int) {
    match Find(w, name)
    case None => (w, -1)
    case Some(i) =>
      var s := w.sems[i].(value := w.sems[i].value - 1);
      if s.value < 0 then
        if w.view.cur.None? then (World(w.sems[i := s], w.view), -1)
        else (World(w.sems[i := s.(queue := Push(s.queue, w.view.cur.value))], ProcessBlock(w.view, w.view.cur.value)),
              0)
      else (World(w.sems[i := s], SetHeld(w.view, w.view.cur, i)), 0)
  }

  /** One unit given back: to the first process waiting, if any, otherwise to the value. */
  function GiveBack(w: World, i: nat): (r: World)
    requires i < |w.sems|
    ensures r.view.procs.Keys == w.view.procs.Keys && |r.sems| == |w.sems|
  {
    var s := w.sems[i].(value := w.sems[i].value + 1);
    if s.value <= 0 && |s.queue| > 0 then
      var pid := s.queue[0];
      World(w.sems[i := s.(queue := s.queue[1..])], ProcessUnblock(SetHeld(w.view, Some(pid), i), pid))
    else World(w.sems[i := s], w.view)
  }

  function SemPost(w: World, name: string): (World, int) {
    match Find(w, name)
    case None => (w, -1)
    case Some(i) => (GiveBack(w.(view := ClearHeld(w.view, w.view.cur, i)), i), 0)
  }

  function SemClose(w: World, name: string): (World, int) {
    match Find(w, name)
    case None => (w, -1)
    case Some(i) =>
      var s := w.sems[i].(opens := w.sems[i].opens - 1);
      (World(w.sems[i := if s.opens <= 0 then s.(name := "", queue := [], opens := 0) else s],
             ClearOpened(ClearHeld(w.view, w.view.cur, i), w.view.cur, i)), 0)
  }

  /** What the death of pid means for semaphore i. */
  function CleanupOne(w: World, pid: nat, i: nat): (r: World)
    requires i < |w.sems| && pid in w.view.procs
    ensures r.view.procs.Keys == w.view.procs.Keys && |r.sems| == |w.sems|
  {
    var s := w.sems[i];
    if s.opens <= 0 then w
    else
      var queued := pid in s.queue;
      var s1 := s.(queue := Remove(s.queue, pid));
      var opener := i in w.view.procs[pid].openedSems;
      var s2 := if opener && s1.opens > 0 then s1.(opens := s1.opens - 1) else s1;
      var v2 := if opener then ClearOpened(w.view, Some(pid), i) else w.view;
      if queued then World(w.sems[i := s2.(value := s2.value + 1)], ClearHeld(v2, Some(pid), i))
      else if i in w.view.procs[pid].heldSems then GiveBack(World(w.sems[i := s2], ClearHeld(v2, Some(pid), i)), i)
      else World(w.sems[i := s2], v2)
  }

  function CleanupFrom(w: World, pid: nat, i: nat): (r: World)
    requires i <= |w.sems| && pid in w.view.procs
    ensures r.view.procs.Keys == w.view.procs.Keys && |r.sems| == |w.sems|
    decreases |w.sems| - i
  {
    if i == |w.sems| then w else CleanupFrom(CleanupOne(w, pid, i), pid, i + 1)
  }

  function SemCleanup(w: World, pid: nat): World {
    if pid !in w.view.procs then w
    else
      var c := CleanupFrom(w, pid, 0);
      c.(view := c.view.(procs := c.view.procs[pid := c.view.procs[pid].(heldSems := {}, openedSems := {})]))
  }
}
