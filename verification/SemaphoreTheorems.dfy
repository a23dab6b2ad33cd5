/**
 What every system call on semaphores, and every death, keeps: waiting processes are exactly the negative part of the
 value, queued once, blocked and openers; and, when each process posts what it waited for, the units are conserved.
 */
module SemaphoreTheorems {
  import opened Sequences
  import opened Processes
  import opened SemaphoreSpec

  ghost function Openers(ps: Procs, i: nat): set<nat> {
    set p | p in ps && i in ps[p].openedSems
  }

  ghost function Holders(ps: Procs, i: nat): set<nat> {
    set p | p in ps && i in ps[p].heldSems
  }

  function Waiting(value: int): nat {
    if value < 0 then -value else 0
  }

  /** Everyone in the queue has the semaphore open and is blocked. */
  ghost predicate QueueOk(q: seq<nat>, ps: Procs, i: nat) {
    NoDup(q) && forall p :: p in q ==> p in ps && i in ps[p].openedSems && ps[p].state == Blocked
  }

  /** The consistency of one entry of the table. */
  ghost predicate SemOk(s: Sem, ps: Procs, i: nat) {
    && s.opens == |Openers(ps, i)|
    && Holders(ps, i) <= Openers(ps, i)
    && QueueOk(s.queue, ps, i)
    && (s.opens > 0 ==> |s.queue| == Waiting(s.value) && |s.name| < SEM_NAME_LEN)
  }

  ghost predicate AllOk(sems: seq<Sem>, ps: Procs) {
    forall i: nat {:trigger SemOk(sems[i], ps, i)} :: i < |sems| ==> SemOk(sems[i], ps, i)
  }

  /** No process waits in two queues. */
  ghost predicate OneQueue(sems: seq<Sem>) {
    forall i, j, p :: 0 <= i < |sems| && 0 <= j < |sems| && p in sems[i].queue && p in sems[j].queue ==> i == j
  }

  ghost predicate UniqueNames(sems: seq<Sem>) {
    forall i, j ::
      0 <= i < |sems| && 0 <= j < |sems| && sems[i].opens > 0 && sems[j].opens > 0 && sems[i].name == sems[j].name ==>
      i == j
  }

  ghost predicate TableOk(w: World) {
    |w.sems| == MAX_SEMS && AllOk(w.sems, w.view.procs) && OneQueue(w.sems) && UniqueNames(w.sems)
  }

  ghost predicate SemInv(w: World) {
    TableOk(w) && |w.view.procs| <= MAX_PROCESSES
  }

  // ---------------------------------------------------------------- changes to one process

  lemma OpenersUpdate(ps: Procs, p: nat, b: Pcb, i: nat)
    ensures Openers(ps[p := b], i) == if i in b.openedSems then Openers(ps, i) + {p} else Openers(ps, i) - {p}
    ensures Holders(ps[p := b], i) == if i in b.heldSems then Holders(ps, i) + {p} else Holders(ps, i) - {p}
  {
  }

  /** Semaphore j sees no difference between the two versions of process p. */
  predicate SameTo(j: nat, a: Pcb, b: Pcb) {
    (j in a.openedSems <==> j in b.openedSems) && (j in a.heldSems <==> j in b.heldSems)
  }

  lemma SemFrame(s: Sem, ps: Procs, p: nat, b: Pcb, j: nat)
    requires SemOk(s, ps, j) && p in ps && SameTo(j, ps[p], b) && (p in s.queue ==> b.state == ps[p].state)
    ensures SemOk(s, ps[p := b], j)
  {
    OpenersUpdate(ps, p, b, j);
    assert Openers(ps[p := b], j) == Openers(ps, j) && Holders(ps[p := b], j) == Holders(ps, j);
  }

  /** Every semaphore but the i-th is consistent. */
  ghost predicate OkBut(sems: seq<Sem>, ps: Procs, i: nat) {
    forall j: nat {:trigger SemOk(sems[j], ps, j)} :: j < |sems| && j != i ==> SemOk(sems[j], ps, j)
  }

  /** A change to one process that only semaphore i can see, and its queue. */
  lemma OthersFrame(sems: seq<Sem>, ps: Procs, p: nat, b: Pcb, i: nat)
    requires OkBut(sems, ps, i) && p in ps && forall j: nat :: j != i ==> SameTo(j, ps[p], b)
    requires forall j: nat {:trigger sems[j]} :: j < |sems| && j != i && p in sems[j].queue ==> b.state == ps[p].state
    ensures OkBut(sems, ps[p := b], i)
  {
    forall j: nat | j < |sems| && j != i ensures SemOk(sems[j], ps[p := b], j) {
      SemFrame(sems[j], ps, p, b, j);
    }
  }

  lemma OneChanged(sems: seq<Sem>, ps: Procs, i: nat, s: Sem)
    requires i < |sems| && OkBut(sems, ps, i) && SemOk(s, ps, i)
    ensures AllOk(sems[i := s], ps)
  {
    var t := sems[i := s];
    forall j: nat | j < |t| ensures SemOk(t[j], ps, j) {
      assert j != i ==> SemOk(sems[j], ps, j) && t[j] == sems[j];
    }
  }

  // ---------------------------------------------------------------- one unit given back

  lemma GiveBackKeeps(w: World, i: nat)
    requires |w.sems| == MAX_SEMS && i < |w.sems| && OneQueue(w.sems) && OkBut(w.sems, w.view.procs, i)
    requires SemOk(w.sems[i], w.view.procs, i)
    ensures var r := GiveBack(w, i);
            AllOk(r.sems, r.view.procs) && OneQueue(r.sems)
  {
    var s := w.sems[i].(value := w.sems[i].value + 1);
    var ps := w.view.procs;
    if s.value <= 0 && |s.queue| > 0 {
      var pid := s.queue[0];
      assert pid in s.queue;
      var b := ps[pid].(heldSems := ps[pid].heldSems + {i}, state := Ready, waitTicks := 0);
      var r := GiveBack(w, i);
      assert r.view.procs == ps[pid := b];
      OpenersUpdate(ps, pid, b, i);
      assert Openers(ps, i) + {pid} == Openers(ps, i);
      OthersFrame(w.sems, ps, pid, b, i);
      PoppedQueueOk(s.queue, ps, i, b);
      OneChanged(w.sems, r.view.procs, i, s.(queue := s.queue[1..]));
    } else {
      OneChanged(w.sems, ps, i, s);
    }
  }

  lemma PoppedQueueOk(q: seq<nat>, ps: Procs, i: nat, b: Pcb)
    requires QueueOk(q, ps, i) && |q| > 0
    ensures QueueOk(q[1..], ps[q[0] := b], i)
  {
    forall p | p in q[1..] ensures p in q && p != q[0] {
    }
  }

  // ---------------------------------------------------------------- runs

  /** A system call of the current process, a death, or anything else that happens to the processes. */
  datatype Step =
    | Open(name: string, initial: nat)
    | Wait(name: string)
    | Post(name: string)
    | Close(name: string)
    | Die(pid: nat)
    | Other(view: View)

  function Next(w: World, s: Step): World {
    match s
    case Open(name, initial) => SemOpen(w, name, initial).0
    case Wait(name) => SemWait(w, name).0
    case Post(name) => SemPost(w, name).0
    case Close(name) => SemClose(w, name).0
    case Die(pid) =>
      var c := SemCleanup(w, pid);
      c.(view := c.view.(procs := c.view.procs - {pid}))
    case Other(view) => w.(view := view)
  }

  predicate CallerRuns(w: World) {
    w.view.cur.Some? && w.view.cur.value in w.view.procs && w.view.procs[w.view.cur.value].state == Running
  }

  function Me(w: World): Pcb
    requires CallerRuns(w)
  {
    w.view.procs[w.view.cur.value]
  }

  /** The caller has the semaphore open, if there is one of that name. */
  predicate Opened(w: World, name: string)
    requires CallerRuns(w)
  {
    Find(w, name).Some? ==> Find(w, name).value in Me(w).openedSems
  }

  /** A process opens a semaphore once, and uses and closes only what it has open; nobody else touches the bitmaps
      or wakes a process waiting in a semaphore. */
  ghost predicate Legal(w: World, s: Step) {
    match s
    case Open(name, initial) =>
      CallerRuns(w) && |name| < SEM_NAME_LEN && initial < 0x8000_0000_0000_0000
      && (Find(w, name).Some? ==> Find(w, name).value !in Me(w).openedSems)
    case Wait(name) => CallerRuns(w) && Opened(w, name)
    case Post(name) => CallerRuns(w) && Opened(w, name)
    case Close(name) => CallerRuns(w) && Opened(w, name)
    case Die(pid) => pid in w.view.procs
    case Other(view) => LegalOther(w, view)
  }

  /** Scheduling, creation of processes, blocking and unblocking elsewhere. */
  ghost predicate LegalOther(w: World, v: View) {
    && |v.procs| <= MAX_PROCESSES && w.view.procs.Keys <= v.procs.Keys
    && (forall p :: p in v.procs && p !in w.view.procs ==> v.procs[p].heldSems == {} && v.procs[p].openedSems == {})
    && (forall p :: p in w.view.procs ==> SameBits(w.view.procs[p], v.procs[p]))
    && (forall i: nat, p {:trigger p in w.sems[i].queue} :: i < |w.sems| && p in w.sems[i].queue && p in v.procs ==>
        v.procs[p].state == Blocked)
  }

  predicate SameBits(a: Pcb, b: Pcb) {
    a.heldSems == b.heldSems && a.openedSems == b.openedSems
  }

  // ---------------------------------------------------------------- one lemma per system call

  lemma OpenKeeps(w: World, name: string, initial: nat)
    requires SemInv(w) && Legal(w, Open(name, initial))
    ensures SemInv(SemOpen(w, name, initial).0)
  {
    var found := Find(w, name);
    var slot := if found.Some? then found else FreeFrom(w.sems, 0);
    if slot.Some? {
      var i := slot.value;
      assert SemOk(w.sems[i], w.view.procs, i);
      assert w.view.cur.value !in Openers(w.view.procs, i);
      OpenSlot(w, i, if found.Some? then w.sems[i].(opens := w.sems[i].opens + 1) else Sem(name, initial, [], 1),
               w.view.cur.value);
    }
  }

  /** One more opener of an existing semaphore, or the first of a new one. */
  lemma OpenSlot(w: World, i: nat, s: Sem, me: nat)
    requires SemInv(w) && i < |w.sems| && me in w.view.procs && i !in w.view.procs[me].openedSems
    requires s.opens == w.sems[i].opens + 1 && |s.queue| == Waiting(s.value) && |s.name| < SEM_NAME_LEN
    requires (s.queue == w.sems[i].queue || (s.queue == [] && w.sems[i].opens == 0))
    ensures var ps := w.view.procs;
            AllOk(w.sems[i := s], ps[me := ps[me].(openedSems := ps[me].openedSems + {i})]) && OneQueue(w.sems[i := s])
  {
    var ps := w.view.procs;
    var b := ps[me].(openedSems := ps[me].openedSems + {i});
    assert SemOk(w.sems[i], ps, i);
    OpenersUpdate(ps, me, b, i);
    OthersFrame(w.sems, ps, me, b, i);
    assert Holders(ps[me := b], i) == Holders(ps, i);
    OneChanged(w.sems, ps[me := b], i, s);
  }

  lemma WaitKeeps(w: World, name: string)
    requires SemInv(w) && Legal(w, Wait(name))
    ensures SemInv(SemWait(w, name).0)
  {
    if Find(w, name).Some? {
      var i := Find(w, name).value;
      var me := w.view.cur.value;
      assert SemOk(w.sems[i], w.view.procs, i);
      NotQueued(w, me);
      if w.sems[i].value - 1 < 0 {
        BlockOn(w, i, me);
      } else {
        Acquire(w, i, me);
      }
    }
  }

  /** The caller queues itself on semaphore i and blocks. */
  lemma BlockOn(w: World, i: nat, me: nat)
    requires SemInv(w) && i < |w.sems| && me in w.view.procs && i in w.view.procs[me].openedSems && w.sems[i].value <= 0
    requires w.sems[i].opens > 0 && w.view.procs[me].state == Running
    requires forall j: nat {:trigger w.sems[j]} :: j < |w.sems| ==> me !in w.sems[j].queue
    ensures var s := w.sems[i].(value := w.sems[i].value - 1, queue := Push(w.sems[i].queue, me));
            var ps := w.view.procs[me := w.view.procs[me].(state := Blocked)];
            s.queue == w.sems[i].queue + [me] && AllOk(w.sems[i := s], ps) && OneQueue(w.sems[i := s])
  {
    var ps := w.view.procs;
    var q := w.sems[i].queue;
    var b := ps[me].(state := Blocked);
    assert SemOk(w.sems[i], ps, i);
    RoomInQueue(q, ps, me, i);
    OpenersUpdate(ps, me, b, i);
    assert Openers(ps[me := b], i) == Openers(ps, i) && Holders(ps[me := b], i) == Holders(ps, i);
    OthersFrame(w.sems, ps, me, b, i);
    PushedQueueOk(q, ps, me, b, i);
    OneChanged(w.sems, ps[me := b], i, w.sems[i].(value := w.sems[i].value - 1, queue := q + [me]));
  }

  lemma PushedQueueOk(q: seq<nat>, ps: Procs, me: nat, b: Pcb, i: nat)
    requires QueueOk(q, ps, i) && me !in q && i in b.openedSems && b.state == Blocked
    ensures QueueOk(q + [me], ps[me := b], i)
  {
  }

  lemma Acquire(w: World, i: nat, me: nat)
    requires SemInv(w) && i < |w.sems| && me in w.view.procs && i in w.view.procs[me].openedSems && w.sems[i].value > 0
    ensures var s := w.sems[i].(value := w.sems[i].value - 1);
            var ps := w.view.procs[me := w.view.procs[me].(heldSems := w.view.procs[me].heldSems + {i})];
            AllOk(w.sems[i := s], ps)
  {
    var ps := w.view.procs;
    var b := ps[me].(heldSems := ps[me].heldSems + {i});
    assert SemOk(w.sems[i], ps, i);
    OpenersUpdate(ps, me, b, i);
    assert Openers(ps[me := b], i) == Openers(ps, i);
    OthersFrame(w.sems, ps, me, b, i);
    OneChanged(w.sems, ps[me := b], i, w.sems[i].(value := w.sems[i].value - 1));
  }

  lemma NotQueued(w: World, p: nat)
    requires SemInv(w) && p in w.view.procs && w.view.procs[p].state != Blocked
    ensures forall i: nat {:trigger w.sems[i]} :: i < |w.sems| ==> p !in w.sems[i].queue
  {
    forall i: nat | i < |w.sems| ensures p !in w.sems[i].queue {
      assert SemOk(w.sems[i], w.view.procs, i);
    }
  }

  /** There is always room for one more in a queue: the caller itself is not in it. */
  lemma RoomInQueue(q: seq<nat>, ps: Procs, me: nat, i: nat)
    requires QueueOk(q, ps, i) && me in ps && me !in q && |ps| <= MAX_PROCESSES
    ensures |q| < MAX_PROCESSES
  {
    DistinctCount(q);
    assert Elems(q) <= ps.Keys - {me};
    SubsetSize(Elems(q), ps.Keys - {me});
  }

  ghost function Elems(q: seq<nat>): set<nat> {
    set p | p in q
  }

  lemma {:induction false} DistinctCount(q: seq<nat>)
    requires NoDup(q)
    ensures |Elems(q)| == |q|
  {
    if q == [] {
      assert Elems(q) == {};
    } else {
      DistinctCount(q[1..]);
      assert Elems(q) == Elems(q[1..]) + {q[0]};
    }
  }

  lemma {:induction false} SubsetSize(a: set<nat>, b: set<nat>)
    requires a <= b
    ensures |a| <= |b|
    decreases |a|
  {
    if a != {} {
      var x :| x in a;
      SubsetSize(a - {x}, b - {x});
    }
  }

  lemma PostKeeps(w: World, name: string)
    requires SemInv(w) && Legal(w, Post(name))
    ensures SemInv(SemPost(w, name).0)
  {
    if Find(w, name).Some? {
      var i := Find(w, name).value;
      var ps := w.view.procs;
      var me := w.view.cur.value;
      var b := ps[me].(heldSems := ps[me].heldSems - {i});
      assert SemOk(w.sems[i], ps, i);
      SemFrameHeld(w.sems[i], ps, me, b, i);
      OthersFrame(w.sems, ps, me, b, i);
      GiveBackKeeps(w.(view := ClearHeld(w.view, w.view.cur, i)), i);
    }
  }

  /** Clearing the held bit of one process. */
  lemma SemFrameHeld(s: Sem, ps: Procs, p: nat, b: Pcb, i: nat)
    requires SemOk(s, ps, i) && p in ps && b == ps[p].(heldSems := ps[p].heldSems - {i})
    ensures SemOk(s, ps[p := b], i)
  {
    OpenersUpdate(ps, p, b, i);
    assert Openers(ps[p := b], i) == Openers(ps, i);
  }

  lemma CloseKeeps(w: World, name: string)
    requires SemInv(w) && Legal(w, Close(name))
    ensures SemInv(SemClose(w, name).0)
  {
    if Find(w, name).Some? {
      var i := Find(w, name).value;
      var ps := w.view.procs;
      var me := w.view.cur.value;
      var b := ps[me].(heldSems := ps[me].heldSems - {i}, openedSems := ps[me].openedSems - {i});
      NotQueued(w, me);
      assert SemOk(w.sems[i], ps, i);
      var r := SemClose(w, name).0;
      assert r.view.procs == ps[me := b];
      OpenersUpdate(ps, me, b, i);
      OthersFrame(w.sems, ps, me, b, i);
      assert me in Openers(ps, i);
      var s := w.sems[i].(opens := w.sems[i].opens - 1);
      OneChanged(w.sems, ps[me := b], i, r.sems[i]);
    }
  }

  // ---------------------------------------------------------------- death

  lemma HeadIsNew(q: seq<nat>)
    requires NoDup(q) && q != []
    ensures q[0] !in q[1..] && NoDup(q[1..])
  {
  }

  lemma NoDupPrepend(p: nat, q: seq<nat>)
    requires NoDup(q) && p !in q
    ensures NoDup([p] + q)
  {
  }

  lemma {:induction false} RemoveIs(q: seq<nat>, pid: nat)
    ensures forall p :: p in Remove(q, pid) <==> p in q && p != pid
    ensures NoDup(q) ==> NoDup(Remove(q, pid)) && |Remove(q, pid)| == |q| - (if pid in q then 1 else 0)
    ensures pid !in q ==> Remove(q, pid) == q
  {
    if q != [] {
      RemoveIs(q[1..], pid);
      assert forall p :: p in q <==> p == q[0] || p in q[1..];
      if NoDup(q) {
        HeadIsNew(q);
        NoDupPrepend(q[0], Remove(q[1..], pid));
      }
    }
  }

  /** pid has no part in semaphore i any more. */
  predicate GoneFrom(w: World, pid: nat, i: nat) {
    && pid in w.view.procs && i < |w.sems|
    && pid !in w.sems[i].queue && i !in w.view.procs[pid].openedSems && i !in w.view.procs[pid].heldSems
  }

  /** The entry of semaphore i and the process, right after pid has been taken out of both. */
  function TakenOut(s: Sem, pid: nat): Sem {
    s.(queue := Remove(s.queue, pid), opens := s.opens - 1, value := if pid in s.queue then s.value + 1 else s.value)
  }

  function Detached(b: Pcb, i: nat): Pcb {
    b.(openedSems := b.openedSems - {i}, heldSems := b.heldSems - {i})
  }

  lemma TakenOutOk(s: Sem, ps: Procs, pid: nat, i: nat)
    requires SemOk(s, ps, i) && pid in ps && i in ps[pid].openedSems
    ensures SemOk(TakenOut(s, pid), ps[pid := Detached(ps[pid], i)], i)
  {
    var ps' := ps[pid := Detached(ps[pid], i)];
    OpenersUpdate(ps, pid, Detached(ps[pid], i), i);
    assert pid in Openers(ps, i);
    RemoveIs(s.queue, pid);
    assert QueueOk(Remove(s.queue, pid), ps', i);
  }

  /** The table with pid taken out of semaphore i. */
  function Detach(w: World, pid: nat, i: nat): World
    requires i < |w.sems| && pid in w.view.procs
  {
    World(w.sems[i := TakenOut(w.sems[i], pid)], w.view.(procs := w.view.procs[pid := Detached(w.view.procs[pid], i)]))
  }

  lemma CleanupOneIs(w: World, pid: nat, i: nat)
    requires AllOk(w.sems, w.view.procs) && pid in w.view.procs && i < |w.sems|
    ensures var b := w.view.procs[pid];
            if i !in b.openedSems then CleanupOne(w, pid, i) == w && GoneFrom(w, pid, i)
            else CleanupOne(w, pid, i) == if i in b.heldSems && pid !in w.sems[i].queue
                                          then GiveBack(Detach(w, pid, i), i) else Detach(w, pid, i)
  {
    var b := w.view.procs[pid];
    assert SemOk(w.sems[i], w.view.procs, i);
    RemoveIs(w.sems[i].queue, pid);
    assert i in b.openedSems <==> pid in Openers(w.view.procs, i);
    assert i in b.heldSems <==> pid in Holders(w.view.procs, i);
    if i in b.openedSems {
      OpenerCleanup(w, pid, i);
    }
  }

  lemma OpenerCleanup(w: World, pid: nat, i: nat)
    requires pid in w.view.procs && i < |w.sems| && w.sems[i].opens > 0 && i in w.view.procs[pid].openedSems
    ensures CleanupOne(w, pid, i) == if i in w.view.procs[pid].heldSems && pid !in w.sems[i].queue
                                     then GiveBack(Detach(w, pid, i), i) else Detach(w, pid, i)
  {
    var b := w.view.procs[pid];
    RemoveIs(w.sems[i].queue, pid);
    assert i !in b.heldSems ==> b.heldSems - {i} == b.heldSems;
    var v := ClearOpened(w.view, Some(pid), i);
    assert ClearHeld(v, Some(pid), i) == Detach(w, pid, i).view;
  }

  lemma DetachKeeps(w: World, pid: nat, i: nat)
    requires TableOk(w) && pid in w.view.procs && i < |w.sems| && i in w.view.procs[pid].openedSems
    ensures TableOk(Detach(w, pid, i)) && GoneFrom(Detach(w, pid, i), pid, i)
    ensures forall j :: GoneFrom(w, pid, j) ==> GoneFrom(Detach(w, pid, i), pid, j)
  {
    var b := w.view.procs[pid];
    assert SemOk(w.sems[i], w.view.procs, i);
    RemoveIs(w.sems[i].queue, pid);
    TakenOutOk(w.sems[i], w.view.procs, pid, i);
    OthersFrame(w.sems, w.view.procs, pid, Detached(b, i), i);
    OneChanged(w.sems, w.view.procs[pid := Detached(b, i)], i, TakenOut(w.sems[i], pid));
  }

  lemma CleanupOneKeeps(w: World, pid: nat, i: nat)
    requires TableOk(w) && pid in w.view.procs && i < |w.sems|
    ensures TableOk(CleanupOne(w, pid, i)) && GoneFrom(CleanupOne(w, pid, i), pid, i)
    ensures forall j :: GoneFrom(w, pid, j) ==> GoneFrom(CleanupOne(w, pid, i), pid, j)
  {
    CleanupOneIs(w, pid, i);
    if i in w.view.procs[pid].openedSems {
      DetachKeeps(w, pid, i);
      var d := Detach(w, pid, i);
      GiveBackKeeps(d, i);
      GiveBackOthers(d, i, pid);
    }
  }

  /** Giving back a unit only touches semaphore i and the process it wakes. */
  lemma GiveBackOthers(w: World, i: nat, pid: nat)
    requires TableOk(w) && i < |w.sems| && pid in w.view.procs && pid !in w.sems[i].queue
    ensures var r := GiveBack(w, i); r.view.procs[pid] == w.view.procs[pid] && UniqueNames(r.sems)
    ensures forall j :: GoneFrom(w, pid, j) ==> GoneFrom(GiveBack(w, i), pid, j)
  {
    var r := GiveBack(w, i);
    assert r.sems == w.sems[i := r.sems[i]] && r.sems[i].name == w.sems[i].name && r.sems[i].opens == w.sems[i].opens;
    assert forall p :: p in r.sems[i].queue ==> p in w.sems[i].queue;
  }

  lemma {:induction false} CleanupKeeps(w: World, pid: nat, i: nat)
    requires TableOk(w) && pid in w.view.procs && i <= |w.sems| && forall j :: 0 <= j < i ==> GoneFrom(w, pid, j)
    ensures TableOk(CleanupFrom(w, pid, i))
    ensures forall j :: 0 <= j < MAX_SEMS ==> GoneFrom(CleanupFrom(w, pid, i), pid, j)
    decreases |w.sems| - i
  {
    if i < |w.sems| {
      CleanupOneKeeps(w, pid, i);
      CleanupKeeps(CleanupOne(w, pid, i), pid, i + 1);
    }
  }

  /** A process without any part in the semaphores can disappear. */
  lemma VanishKeeps(w: World, pid: nat)
    requires SemInv(w) && pid in w.view.procs && forall j :: 0 <= j < |w.sems| ==> GoneFrom(w, pid, j)
    ensures SemInv(w.(view := w.view.(procs := w.view.procs - {pid})))
  {
    var ps := w.view.procs - {pid};
    SubsetSize(ps.Keys, w.view.procs.Keys);
    forall i: nat | i < |w.sems| ensures SemOk(w.sems[i], ps, i) {
      assert SemOk(w.sems[i], w.view.procs, i) && GoneFrom(w, pid, i);
      assert Openers(ps, i) == Openers(w.view.procs, i) && Holders(ps, i) == Holders(w.view.procs, i);
    }
  }

  lemma DieKeeps(w: World, pid: nat)
    requires SemInv(w) && pid in w.view.procs
    ensures SemInv(Next(w, Die(pid)))
  {
    var c := CleanupFrom(w, pid, 0);
    CleanupKeeps(w, pid, 0);
    assert |c.view.procs.Keys| == |w.view.procs.Keys|;
    VanishKeeps(c, pid);
    assert Next(w, Die(pid)) == c.(view := c.view.(procs := c.view.procs - {pid}));
  }

  lemma OtherKeeps(w: World, v: View)
    requires SemInv(w) && LegalOther(w, v)
    ensures SemInv(w.(view := v))
  {
    forall i: nat | i < |w.sems| ensures SemOk(w.sems[i], v.procs, i) {
      assert SemOk(w.sems[i], w.view.procs, i);
      assert forall p :: p in w.view.procs ==> SameBits(w.view.procs[p], v.procs[p]);
      assert Openers(v.procs, i) == Openers(w.view.procs, i) && Holders(v.procs, i) == Holders(w.view.procs, i);
    }
  }

  /** Every legal step keeps the table consistent: waiters are exactly the negative part of the value. */
  lemma StepKeeps(w: World, s: Step)
    requires SemInv(w) && Legal(w, s)
    ensures SemInv(Next(w, s))
  {
    match s
    case Open(name, initial) => OpenKeeps(w, name, initial);
    case Wait(name) => WaitKeeps(w, name);
    case Post(name) => PostKeeps(w, name);
    case Close(name) => CloseKeeps(w, name);
    case Die(pid) => DieKeeps(w, pid);
    case Other(view) => OtherKeeps(w, view);
  }
}
