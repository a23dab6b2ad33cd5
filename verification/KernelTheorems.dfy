/**
 What every entry into the kernel keeps: the run queue lists the live processes in order, exactly the current process
 runs, nobody stays a zombie, the kernel heap holds exactly the stacks and arguments of the live processes, and who
 waits for a child has one.
 */
module KernelTheorems {
  import opened Processes
  import opened Scheduler
  import opened KernelSpec

  // ---------------------------------------------------------------- the invariant

  predicate PcbOk(b: Pcb, p: nat, nextPid: nat) {
    1 <= p <= nextPid && b.pid == p && MIN_PRIORITY <= b.priority <= MAX_PRIORITY && b.parent < p
  }

  ghost predicate PidsOk(ps: Procs, nextPid: nat) {
    |ps| <= MAX_PROCESSES && forall p {:trigger PcbOk(ps[p], p, nextPid)} :: p in ps ==> PcbOk(ps[p], p, nextPid)
  }

  function Owns(b: Pcb): set<nat> {
    (if b.stack.Some? then {b.stack.value} else {}) + (if b.argv.Some? then {b.argv.value} else {})
  }

  predicate OwnsWell(b: Pcb, blocks: set<nat>) {
    b.stack.Some? && b.argv != b.stack && Owns(b) <= blocks
  }

  predicate Owner(ps: Procs, p: nat, a: nat) {
    p in ps && a in Owns(ps[p])
  }

  /** Everybody owns one stack and at most one argument block, all of them live. */
  ghost predicate AllOwn(ps: Procs, blocks: set<nat>) {
    forall p {:trigger OwnsWell(ps[p], blocks)} :: p in ps ==> OwnsWell(ps[p], blocks)
  }

  ghost predicate OneOwner(ps: Procs) {
    forall p, q, a {:trigger Owner(ps, p, a), Owner(ps, q, a)} :: Owner(ps, p, a) && Owner(ps, q, a) ==> p == q
  }

  ghost predicate SomeOwner(ps: Procs, a: nat) {
    exists p: nat {:trigger Owner(ps, p, a)} :: Owner(ps, p, a)
  }

  ghost predicate NoLeak(ps: Procs, blocks: set<nat>) {
    forall a {:trigger SomeOwner(ps, a)} :: a in blocks ==> SomeOwner(ps, a)
  }

  /** The live allocations are one stack and at most one argument block for each process, and nothing else. */
  ghost predicate OwnersOk(ps: Procs, blocks: set<nat>) {
    AllOwn(ps, blocks) && OneOwner(ps) && NoLeak(ps, blocks)
  }

  /** What does not depend on who runs, waits or sleeps. */
  ghost predicate Base(k: Kernel) {
    && PidsOk(Tab(k), k.nextPid) && QueueOk(Tab(k), k.queue) && OwnersOk(Tab(k), k.blocks) && k.badFrees == 0
    && k.queue.idle.Some? && k.queue.idle.value in Tab(k)
  }

  predicate StateOk(b: Pcb, current: bool) {
    if current then b.state != State.Free && 1 <= b.quanta <= b.priority
    else b.state in {State.Ready, Blocked} && b.quanta == b.priority
  }

  predicate StateAt(v: View, p: nat)
    requires p in v.procs
  {
    StateOk(v.procs[p], v.cur == Some(p))
  }

  /** Who waits for a child is blocked and has it; the child is not a zombie. */
  predicate WaitOk(ps: Procs, p: nat)
    requires p in ps
  {
    ps[p].waitingFor != 0 ==> ps[p].state == Blocked && ps[p].waitingFor > p && IsChild(ps, ps[p].waitingFor, p)
  }

  predicate IsChild(ps: Procs, c: nat, p: nat) {
    c in ps && ps[c].parent == p && ps[c].state != Zombie
  }

  ghost predicate StatesOk(v: View) {
    forall p {:trigger StateAt(v, p)} :: p in v.procs ==> StateAt(v, p)
  }

  ghost predicate WaitsOk(ps: Procs) {
    forall p {:trigger WaitOk(ps, p)} :: p in ps ==> WaitOk(ps, p)
  }

  ghost predicate IdleOk(k: Kernel) {
    k.queue.idle.Some? && k.queue.idle.value in Tab(k) && Tab(k)[k.queue.idle.value].waitingFor == 0
      && Tab(k)[k.queue.idle.value].state != Zombie && Tab(k)[k.queue.idle.value].foreground == 0
  }

  ghost predicate Dynamic(v: View) {
    v.cur.Some? && v.cur.value in v.procs && StatesOk(v) && WaitsOk(v.procs)
      && (v.procs[v.cur.value].state != Running ==> v.force)
  }

  /** Inside the kernel, before the handler's end. */
  ghost predicate Mid(k: Kernel) {
    Base(k) && Dynamic(k.view) && IdleOk(k)
  }

  /** Between two entries into the kernel. */
  ghost predicate KernelInv(k: Kernel) {
    Mid(k) && !k.view.force
  }

  /** Exactly the current process runs, and there is no zombie. */
  lemma OneRuns(k: Kernel)
    requires KernelInv(k)
    ensures forall p :: p in Tab(k) ==> (Tab(k)[p].state == Running <==> Cur(k) == Some(p)) && Tab(k)[p].state != Zombie
  {
    forall p | p in Tab(k) ensures (Tab(k)[p].state == Running <==> Cur(k) == Some(p)) && Tab(k)[p].state != Zombie {
      assert StateAt(k.view, p);
    }
  }

  /** There is always room for one more in the run queue, so the drop of scheduler_add never fires. */
  lemma QueueHasRoom(k: Kernel)
    requires Base(k)
    ensures |k.queue.pids| < |Tab(k)| <= MAX_PROCESSES
  {
    var ps := Tab(k) - {k.queue.idle.value};
    assert |ps.Keys| == |Tab(k).Keys - {k.queue.idle.value}|;
    assert Known(ps, k.queue.pids) by {
      forall i | 0 <= i < |k.queue.pids| ensures k.queue.pids[i] in ps { assert k.queue.pids[i] in k.queue.pids; }
    }
    SizeOf(k.queue.pids, ps);
  }

  // ---------------------------------------------------------------- changes of no concern to Base

  predicate SameStatic(a: Pcb, b: Pcb) {
    && a.pid == b.pid && a.priority == b.priority && a.foreground == b.foreground && a.parent == b.parent
    && a.stack == b.stack && a.argv == b.argv
  }

  ghost predicate Fixed(ps: Procs, ps': Procs) {
    ps.Keys == ps'.Keys && forall p {:trigger SameStatic(ps[p], ps'[p])} :: p in ps && p in ps' ==>
      SameStatic(ps[p], ps'[p])
  }

  lemma FixedQueue(ps: Procs, ps': Procs, q: RunQueue)
    requires Fixed(ps, ps') && QueueOk(ps, q)
    ensures QueueOk(ps', q)
  {
    assert forall p :: p in ps <==> p in ps';
    forall a, b | 0 <= a < b < |q.pids| ensures ps'[q.pids[a]].priority >= ps'[q.pids[b]].priority {
      assert SameStatic(ps[q.pids[a]], ps'[q.pids[a]]) && SameStatic(ps[q.pids[b]], ps'[q.pids[b]]);
    }
  }

  lemma FixedOwners(ps: Procs, ps': Procs, blocks: set<nat>)
    requires Fixed(ps, ps') && OwnersOk(ps, blocks)
    ensures OwnersOk(ps', blocks)
  {
    forall p: nat, a ensures Owner(ps', p, a) <==> Owner(ps, p, a) {
      if p in ps { assert SameStatic(ps[p], ps'[p]); }
    }
    forall p | p in ps'
      ensures OwnsWell(ps'[p], blocks)
    {
      assert SameStatic(ps[p], ps'[p]) && OwnsWell(ps[p], blocks);
    }
    forall a | a in blocks ensures SomeOwner(ps', a) {
      assert SomeOwner(ps, a);
      var p: nat :| Owner(ps, p, a);
      assert Owner(ps', p, a);
    }
  }

  lemma FixedPids(ps: Procs, ps': Procs, nextPid: nat)
    requires Fixed(ps, ps') && PidsOk(ps, nextPid)
    ensures PidsOk(ps', nextPid)
  {
    assert |ps'.Keys| == |ps.Keys|;
    forall p | p in ps'
      ensures PcbOk(ps'[p], p, nextPid)
    {
      assert SameStatic(ps[p], ps'[p]) && PcbOk(ps[p], p, nextPid);
    }
  }

  lemma FixedBase(k: Kernel, v: View)
    requires Base(k) && Fixed(Tab(k), v.procs)
    ensures Base(k.(view := v))
  {
    FixedQueue(Tab(k), v.procs, k.queue);
    FixedOwners(Tab(k), v.procs, k.blocks);
    FixedPids(Tab(k), v.procs, k.nextPid);
  }

  // ---------------------------------------------------------------- burial

  lemma BuryBlocks(k: Kernel, p: nat)
    requires p in Tab(k) && OwnsWell(Tab(k)[p], k.blocks)
    ensures Bury(k, p).blocks == k.blocks - Owns(Tab(k)[p]) && Bury(k, p).badFrees == k.badFrees
  {
  }

  lemma BuryOwners(ps: Procs, blocks: set<nat>, p: nat)
    requires OwnersOk(ps, blocks) && p in ps
    ensures OwnersOk(ps - {p}, blocks - Owns(ps[p]))
  {
    var ps' := ps - {p};
    forall q: nat, a ensures Owner(ps', q, a) <==> Owner(ps, q, a) && q != p {
    }
    forall q | q in ps' ensures OwnsWell(ps'[q], blocks - Owns(ps[p])) {
      assert OwnsWell(ps[q], blocks);
      forall a | a in Owns(ps[q]) ensures a !in Owns(ps[p]) {
        assert Owner(ps, q, a);
        assert Owner(ps, p, a) <==> a in Owns(ps[p]);
      }
    }
    forall a | a in blocks - Owns(ps[p]) ensures SomeOwner(ps', a) {
      assert SomeOwner(ps, a);
      var q: nat :| Owner(ps, q, a);
      assert Owner(ps', q, a);
    }
  }

  /** A process leaves the table, its slot and its blocks, and the queue. */
  lemma BuryKeeps(k: Kernel, p: nat)
    requires Base(k) && p in Tab(k) && k.queue.idle != Some(p)
    ensures Base(Bury(k.(queue := Remove(k.queue, p)), p))
  {
    var k1 := k.(queue := Remove(k.queue, p));
    RemoveKeeps(Tab(k), k.queue, p);
    assert OwnsWell(Tab(k)[p], k.blocks);
    BuryBlocks(k1, p);
    BuryOwners(Tab(k), k.blocks, p);
    BuryPids(Tab(k), k.nextPid, p);
  }

  lemma BuryPids(ps: Procs, nextPid: nat, p: nat)
    requires PidsOk(ps, nextPid) && p in ps
    ensures PidsOk(ps - {p}, nextPid)
  {
    var ps' := ps - {p};
    assert ps'.Keys == ps.Keys - {p};
    assert |ps'.Keys| == |ps.Keys| - 1;
    forall q | q in ps' ensures PcbOk(ps'[q], q, nextPid) { assert PcbOk(ps[q], q, nextPid); }
  }

  // ---------------------------------------------------------------- the switch

  /** The choice falls on a process other than a zombie, which is ready or idle, and it waits for nobody. */
  lemma ChoiceOk(k: Kernel)
    requires Base(k) && WaitsOk(Tab(k)) && IdleOk(k) && Cur(k).Some? && Cur(k).value in Tab(k)
    ensures Shape(k)
    ensures var (next, q) := NextReady(Tab(k), k.queue);
            && next.Some? && next.value in Tab(k) && Tab(k)[next.value].state != Zombie
            && Tab(k)[next.value].waitingFor == 0
            && Base(k.(queue := q)) && q.idle == k.queue.idle
  {
    ChosenIsReady(Tab(k), k.queue);
    var (next, q) := NextReady(Tab(k), k.queue);
    if next.Some? && next.value in Tab(k) { assert WaitOk(Tab(k), next.value); }
  }

  ghost predicate NoneRuns(ps: Procs) {
    forall p {:trigger StateOk(ps[p], false)} :: p in ps ==> StateOk(ps[p], false)
  }

  ghost predicate NoneRunsBut(ps: Procs, c: nat) {
    forall p {:trigger StateOk(ps[p], false)} :: p in ps && p != c ==> StateOk(ps[p], false)
  }

  predicate Waits(ps: Procs, q: nat, p: nat) { q in ps && ps[q].waitingFor == p }

  ghost predicate NobodyWaits(ps: Procs, p: nat) {
    forall q {:trigger Waits(ps, q, p)} :: !Waits(ps, q, p)
  }

  lemma WaitsUpdate(ps: Procs, n: nat, b: Pcb)
    requires WaitsOk(ps) && n in ps && b.waitingFor == ps[n].waitingFor && b.parent == ps[n].parent
    requires (b.waitingFor != 0 ==> b.state == Blocked)
    requires b.state == Zombie ==> ps[n].state == Zombie || NobodyWaits(ps, n)
    ensures WaitsOk(ps[n := b])
  {
    var ps' := ps[n := b];
    forall p | p in ps' ensures WaitOk(ps', p) { assert WaitOk(ps, p) && (Waits(ps, p, n) <==> ps[p].waitingFor == n); }
  }

  lemma FixedOne(ps: Procs, n: nat, b: Pcb)
    requires n in ps && SameStatic(ps[n], b)
    ensures Fixed(ps, ps[n := b])
  {
    forall p | p in ps ensures SameStatic(ps[p], ps[n := b][p]) { }
  }

  /** After the switch only the chosen one runs. */
  lemma DispatchKeeps(k: Kernel, n: nat)
    requires Base(k) && WaitsOk(Tab(k)) && IdleOk(k) && n in Tab(k) && Tab(k)[n].waitingFor == 0 && !k.view.force
    requires NoneRuns(Tab(k))
    ensures KernelInv(Dispatch(k, n))
  {
    var b := Tab(k)[n].(waitTicks := 0, state := Running);
    var v := k.view.(procs := Tab(k)[n := b], cur := Some(n));
    FixedOne(Tab(k), n, b);
    FixedBase(k, v);
    WaitsUpdate(Tab(k), n, b);
    assert StateOk(Tab(k)[n], false);
    assert PcbOk(Tab(k)[n], n, k.nextPid);
    forall p | p in v.procs ensures StateAt(v, p) { assert p != n ==> StateOk(Tab(k)[p], false); }
  }

  /** One leaves for whom nobody was waiting. */
  lemma WaitsWithout(ps: Procs, c: nat)
    requires WaitsOk(ps) && c in ps && (ps[c].state == Zombie || NobodyWaits(ps, c))
    ensures WaitsOk(ps - {c})
  {
    forall p | p in ps - {c}
      ensures WaitOk(ps - {c}, p)
    {
      assert WaitOk(ps, p) && (Waits(ps, p, c) <==> ps[p].waitingFor == c);
    }
  }

  /** The switch away from a zombie buries it. */
  lemma BurySwitch(k: Kernel, q: RunQueue)
    requires Base(k.(queue := q)) && q.idle == k.queue.idle && WaitsOk(Tab(k)) && IdleOk(k) && CurIs(k, Zombie)
    requires NoneRunsBut(Tab(k), Cur(k).value)
    ensures var k1 := Bury(k.(queue := Remove(q, Cur(k).value)), Cur(k).value);
            Base(k1) && WaitsOk(Tab(k1)) && IdleOk(k1) && NoneRuns(Tab(k1)) && Tab(k1) == Tab(k) - {Cur(k).value}
              && k1.view.force == k.view.force
  {
    var c := Cur(k).value;
    BuryKeeps(k.(queue := q), c);
    WaitsWithout(Tab(k), c);
    RemoveKeeps(Tab(k), q, c);
    var k1 := Bury(k.(queue := Remove(q, c)), c);
    assert Tab(k1) == Tab(k) - {c};
    forall p | p in Tab(k1) ensures StateOk(Tab(k1)[p], false) { assert StateOk(Tab(k)[p], false); }
  }

  lemma SwitchKeeps(k: Kernel)
    requires Base(k) && WaitsOk(Tab(k)) && IdleOk(k) && !k.view.force
    requires Cur(k).Some? && Cur(k).value in Tab(k) && NoneRunsBut(Tab(k), Cur(k).value)
    requires (StateOk(Tab(k)[Cur(k).value], false) || Tab(k)[Cur(k).value].state == Zombie)
    ensures Shape(k) && KernelInv(Switch(k))
  {
    ChoiceOk(k);
    var (next, q) := NextReady(Tab(k), k.queue);
    if CurIs(k, Zombie) {
      BurySwitch(k, q);
      DispatchKeeps(Bury(k.(queue := Remove(q, Cur(k).value)), Cur(k).value), next.value);
    } else {
      forall p | p in Tab(k) ensures StateOk(Tab(k)[p], false) { }
      DispatchKeeps(k.(queue := q), next.value);
    }
  }

  // ---------------------------------------------------------------- leaving the kernel

  /** A change of the current process's state and quanta only. */
  lemma OwnChange(k: Kernel, b: Pcb)
    requires Mid(k) && SameStatic(Tab(k)[Cur(k).value], b) && b.waitingFor == Tab(k)[Cur(k).value].waitingFor
    requires (b.state == Zombie <==> Tab(k)[Cur(k).value].state == Zombie) && (b.waitingFor != 0 ==> b.state == Blocked)
    ensures var k' := With(k, Cur(k).value, b);
            Base(k') && WaitsOk(Tab(k')) && IdleOk(k') && NoneRunsBut(Tab(k'), Cur(k).value)
  {
    var c := Cur(k).value;
    FixedOne(Tab(k), c, b);
    FixedBase(k, k.view.(procs := Tab(k)[c := b]));
    WaitsUpdate(Tab(k), c, b);
    forall p | p in Tab(k) && p != c ensures StateOk(Tab(k)[p], false) { assert StateAt(k.view, p); }
  }

  lemma PauseKeeps(k: Kernel)
    requires Mid(k)
    ensures var k' := Pause(k);
            && Base(k') && WaitsOk(Tab(k')) && IdleOk(k') && NoneRunsBut(Tab(k'), Cur(k).value)
            && (StateOk(Tab(k')[Cur(k).value], false) || Tab(k')[Cur(k).value].state == Zombie)
  {
    var c := Cur(k).value;
    var b := Tab(k)[c];
    assert StateAt(k.view, c) && WaitOk(Tab(k), c);
    OwnChange(k, b.(state := if b.state == Running then State.Ready else b.state, quanta := b.priority));
  }

  /** The end of every handler, and the voluntary switch with it, keeps the kernel's invariant. */
  lemma LeaveKeeps(k: Kernel)
    requires Mid(k)
    ensures Shape(k) && KernelInv(Leave(k))
  {
    if k.view.force {
      var k0 := k.(view := k.view.(force := false));
      PauseKeeps(k);
      assert Pause(k0) == Pause(k).(view := Pause(k).view.(force := false));
      SwitchKeeps(Pause(k0));
    }
  }

  lemma AgedKeeps(k: Kernel)
    requires Mid(k)
    ensures Mid(Aged(k)) && Aged(k).view.force == k.view.force
  {
    var v := Aged(k).view;
    forall p | p in Tab(k) ensures SameStatic(Tab(k)[p], v.procs[p]) { }
    FixedBase(k, v);
    forall p | p in v.procs ensures WaitOk(v.procs, p) { assert WaitOk(Tab(k), p); }
    forall p | p in v.procs ensures StateAt(v, p) { assert StateAt(k.view, p); }
  }

  /** scheduler_tick keeps the kernel's invariant. */
  lemma TickKeeps(k: Kernel)
    requires KernelInv(k)
    ensures Shape(k) && KernelInv(Tick(k))
  {
    AgedKeeps(k);
    var k1 := Aged(k);
    var c := Cur(k).value;
    assert StateAt(k.view, c) && StateAt(k1.view, c) && WaitOk(Tab(k1), c);
    var b := Tab(k1)[c].(quanta := Less(Tab(k1)[c].quanta));
    if b.quanta > 0 {
      OwnChange(k1, b);
      var v := With(k1, c, b).view;
      forall p | p in v.procs ensures StateAt(v, p) { assert p != c ==> StateOk(v.procs[p], false); }
    } else {
      var b1 := b.(state := State.Ready, quanta := b.priority);
      OwnChange(k1, b1);
      SwitchKeeps(With(k1, c, b1));
    }
  }

  // ---------------------------------------------------------------- what semaphores, pipes and the keyboard may do

  /** A process is woken that waits for no child, or the current one blocks. */
  predicate SoftPcb(a: Pcb, b: Pcb, current: bool) {
    && SameStatic(a, b) && a.quanta == b.quanta && a.waitingFor == b.waitingFor && a.savedRax == b.savedRax
    && a.retval == b.retval
    && (|| (a.state == b.state && a.waitTicks == b.waitTicks)
        || (a.state == Blocked && b.state == State.Ready && a.waitingFor == 0)
        || (current && a.state == Running && b.state == Blocked))
  }

  ghost predicate Soft(v: View, v': View) {
    && v.cur == v'.cur && (v.force ==> v'.force) && v.procs.Keys == v'.procs.Keys
    && (forall p {:trigger SoftAt(v, v', p)} :: p in v.procs && p in v'.procs ==> SoftAt(v, v', p))
    && (v'.cur.Some? && v'.cur.value in v'.procs ==>
        (v'.procs[v'.cur.value].state == Blocked && v.procs[v'.cur.value].state == Running ==> v'.force))
  }

  predicate SoftAt(v: View, v': View, p: nat)
    requires p in v.procs && p in v'.procs
  {
    SoftPcb(v.procs[p], v'.procs[p], v.cur == Some(p))
  }

  lemma SoftKeeps(k: Kernel, v: View)
    requires Mid(k) && Soft(k.view, v)
    ensures Mid(k.(view := v))
  {
    var ps := Tab(k);
    var c := Cur(k).value;
    forall p | p in ps ensures SameStatic(ps[p], v.procs[p]) { assert SoftAt(k.view, v, p); }
    FixedBase(k, v);
    forall p | p in v.procs ensures WaitOk(v.procs, p) && StateAt(v, p) { SoftOne(k, v, p); }
    assert SoftAt(k.view, v, c) && StateAt(k.view, c);
    assert SoftAt(k.view, v, k.queue.idle.value);
  }

  lemma SoftOne(k: Kernel, v: View, p: nat)
    requires Mid(k) && Soft(k.view, v) && p in Tab(k)
    ensures WaitOk(v.procs, p) && StateAt(v, p)
  {
    assert SoftAt(k.view, v, p) && WaitOk(Tab(k), p) && StateAt(k.view, p);
    var c := Tab(k)[p].waitingFor;
    if c != 0 { assert SoftAt(k.view, v, c); }
  }

  // ---------------------------------------------------------------- the calls

  /** A change of one process that Base does not see. */
  lemma OneChange(k: Kernel, p: nat, b: Pcb)
    requires Mid(k) && p in Tab(k) && SameStatic(Tab(k)[p], b) && StateOk(b, Cur(k) == Some(p))
    requires WaitsOk(Tab(k)[p := b]) && (k.queue.idle == Some(p) ==> b.waitingFor == 0 && b.state != Zombie)
    requires Cur(k) == Some(p) && b.state != Running ==> k.view.force
    ensures Mid(With(k, p, b))
  {
    FixedOne(Tab(k), p, b);
    var v := k.view.(procs := Tab(k)[p := b]);
    FixedBase(k, v);
    forall q | q in v.procs ensures StateAt(v, q) { assert q != p ==> StateAt(k.view, q); }
  }

  lemma SetRetvalKeeps(k: Kernel, p: nat, r: int)
    requires Mid(k) && p in Tab(k)
    ensures Mid(SetRetval(k, p, r))
  {
    var b := Tab(k)[p].(retval := r);
    assert StateAt(k.view, p) && WaitOk(Tab(k), p);
    WaitsUpdate(Tab(k), p, b);
    OneChange(k, p, b);
  }

  lemma ForcedKeeps(k: Kernel)
    requires Mid(k)
    ensures Mid(Forced(k))
  {
    forall p | p in Tab(k) ensures StateAt(Forced(k).view, p) { assert StateAt(k.view, p); }
    assert Base(Forced(k));
  }

  lemma WakeWaits(ps: Procs, p: nat, q: nat, b: Pcb)
    requires WaitsOk(ps) && p in ps && p != 0 && q in ps && ps[p].parent == q
    requires b.waitingFor == 0 && b.parent == ps[q].parent && b.state != Zombie
    ensures WaitsOk(ps[q := b]) && NobodyWaits(ps[q := b], p)
  {
    var ps' := ps[q := b];
    forall x | x in ps' ensures WaitOk(ps', x) { assert WaitOk(ps, x); }
    forall x: nat ensures !Waits(ps', x, p) { if x in ps { assert WaitOk(ps, x); } }
  }

  /** After the parent was woken nobody waits for p any more. */
  lemma WakeKeeps(k: Kernel, p: nat, retval: int)
    requires Mid(k) && p in Tab(k)
    ensures var k' := WakeParent(k, p, retval);
            && Mid(k') && NobodyWaits(Tab(k'), p) && k' == k.(view := k.view.(procs := Tab(k')))
            && p in Tab(k') && Tab(k')[p] == Tab(k)[p]
  {
    var q := Tab(k)[p].parent;
    assert PcbOk(Tab(k)[p], p, k.nextPid);
    if q in Tab(k) && Tab(k)[q].state == Blocked && Tab(k)[q].waitingFor == p {
      var b := Tab(k)[q].(savedRax := retval, waitingFor := 0, state := State.Ready, waitTicks := 0);
      assert StateAt(k.view, q) && PcbOk(Tab(k)[q], q, k.nextPid);
      WakeWaits(Tab(k), p, q, b);
      OneChange(k, q, b);
    } else {
      forall x: nat ensures !Waits(Tab(k), x, p) { if x in Tab(k) { assert WaitOk(Tab(k), x); } }
    }
  }

  /** The current process becomes a zombie, to be buried by the switch. */
  lemma ZombieKeeps(k: Kernel)
    requires Mid(k) && k.view.force && Cur(k) != k.queue.idle && NobodyWaits(Tab(k), Cur(k).value)
    requires Tab(k)[Cur(k).value].waitingFor == 0
    ensures Mid(With(k, Cur(k).value, Tab(k)[Cur(k).value].(state := Zombie)))
  {
    var c := Cur(k).value;
    var b := Tab(k)[c].(state := Zombie);
    assert StateAt(k.view, c);
    WaitsUpdate(Tab(k), c, b);
    OneChange(k, c, b);
  }

  lemma ExitKeeps(k: Kernel, retval: int)
    requires Mid(k) && Cur(k) != k.queue.idle && Tab(k)[Cur(k).value].waitingFor == 0
    ensures Mid(ExitEnd(k, retval))
  {
    var c := Cur(k).value;
    WakeKeeps(k, c, retval);
    var k1 := WakeParent(k, c, retval);
    ForcedKeeps(k1);
    ZombieKeeps(Forced(k1));
    assert ExitEnd(k, retval) == With(Forced(k1), c, Tab(k1)[c].(state := Zombie));
  }

  lemma KillSelfKeeps(k: Kernel, p: nat, v: View)
    requires Mid(k) && Cur(k) == Some(p) && Cur(k) != k.queue.idle && Tab(k)[p].waitingFor == 0
    requires Soft(KillMiddle(k, p).view, v)
    ensures p in v.procs && Mid(KillEnd(KillMiddle(k, p).(view := v), p))
  {
    WakeKeeps(k, p, -1);
    var k1 := WakeParent(k, p, -1);
    ForcedKeeps(k1);
    ZombieKeeps(Forced(k1));
    var k2 := KillMiddle(k, p);
    assert Forced(k2) == With(Forced(k1), p, Tab(k1)[p].(state := Zombie));
    var v' := v.(force := true);
    forall q | q in v.procs ensures SoftAt(Forced(k2).view, v', q) { assert SoftAt(k2.view, v, q); }
    SoftKeeps(Forced(k2), v');
  }

  lemma BuryOther(k: Kernel, p: nat)
    requires Mid(k) && p in Tab(k) && Cur(k) != Some(p) && k.queue.idle != Some(p) && NobodyWaits(Tab(k), p)
    ensures Mid(Bury(k.(queue := Remove(k.queue, p)), p))
  {
    var k' := Bury(k.(queue := Remove(k.queue, p)), p);
    BuryKeeps(k, p);
    WaitsWithout(Tab(k), p);
    assert k'.view == k.view.(procs := Tab(k) - {p});
    forall q | q in Tab(k') ensures StateAt(k'.view, q) { assert StateAt(k.view, q); }
  }

  lemma KillOtherKeeps(k: Kernel, p: nat, v: View)
    requires Mid(k) && p in Tab(k) && Cur(k) != Some(p) && k.queue.idle != Some(p) && Soft(KillMiddle(k, p).view, v)
    ensures p in v.procs && Mid(KillEnd(KillMiddle(k, p).(view := v), p))
  {
    WakeKeeps(k, p, -1);
    var k1 := WakeParent(k, p, -1);
    SoftKeeps(k1, v);
    var k2 := k1.(view := v);
    forall q: nat ensures !Waits(v.procs, q, p) {
      if q in v.procs { assert SoftAt(k1.view, v, q) && (Waits(Tab(k1), q, p) <==> Tab(k1)[q].waitingFor == p); }
    }
    BuryOther(k2, p);
    assert KillMiddle(k, p).(view := v) == k2.(queue := Remove(k2.queue, p));
  }

  lemma WaitPidKeeps(k: Kernel, p: nat)
    requires KernelInv(k) && Cur(k) != k.queue.idle && (p in Tab(k) ==> Cur(k) == Some(Tab(k)[p].parent))
    ensures Mid(WaitPid(k, p).0)
    ensures p in Tab(k) ==> Tab(k)[p].state != Zombie
    ensures p in Tab(k) ==>
            var b := Tab(k)[Cur(k).value].(state := Blocked, waitingFor := p);
            WaitPid(k, p) == (Forced(With(k, Cur(k).value, b)), 0)
  {
    if p in Tab(k) {
      var c := Cur(k).value;
      assert PcbOk(Tab(k)[p], p, k.nextPid) && StateAt(k.view, p) && StateAt(k.view, c);
      ForcedKeeps(k);
      var b := Tab(k)[c].(state := Blocked, waitingFor := p);
      var ps' := Tab(k)[c := b];
      forall q | q in ps' ensures WaitOk(ps', q) { assert WaitOk(Tab(k), q); }
      OneChange(Forced(k), c, b);
    }
  }

  lemma NiceQueue(ps: Procs, q: RunQueue, p: nat, b: Pcb)
    requires QueueOk(ps, q) && p in ps && |ps| <= MAX_PROCESSES
    ensures var ps' := ps[p := b];
            Known(ps', Remove(q, p).pids) && QueueOk(ps', Add(ps', Remove(q, p), p))
    ensures Add(ps[p := b], Remove(q, p), p).idle == q.idle
  {
    var ps' := ps[p := b];
    RemoveKeeps(ps, q, p);
    assert ps' - {p} == ps - {p};
    assert |ps'.Keys| == |ps.Keys|;
    if q.idle != Some(p) {
      AddKeeps(ps', Remove(q, p), p);
    } else {
      FixedOrder(ps, p, b, q);
    }
  }

  lemma NiceBase(k: Kernel, p: nat, priority: nat)
    requires Base(k) && p in Tab(k) && Tab(k)[p].state !in {State.Free, Zombie}
    ensures Base(Nice(k, p, priority))
  {
    var n := Clamp(priority % 256);
    var b := Tab(k)[p].(priority := n, waitTicks := 0, quanta := n);
    NiceOwners(Tab(k), k.blocks, p, b);
    NicePids(Tab(k), k.nextPid, p, b);
    NiceQueue(Tab(k), k.queue, p, b);
  }

  lemma FixedOrder(ps: Procs, p: nat, b: Pcb, q: RunQueue)
    requires QueueOk(ps, q) && p !in q.pids && p in ps
    ensures QueueOk(ps[p := b], q) && Remove(q, p) == q
  {
    RemoveKeeps(ps, q, p);
    assert forall x :: x in ps <==> x in ps[p := b];
  }

  lemma NiceOwners(ps: Procs, blocks: set<nat>, p: nat, b: Pcb)
    requires OwnersOk(ps, blocks) && p in ps && b.stack == ps[p].stack && b.argv == ps[p].argv
    ensures OwnersOk(ps[p := b], blocks)
  {
    var ps' := ps[p := b];
    forall q: nat, a ensures Owner(ps', q, a) <==> Owner(ps, q, a) { }
    forall q | q in ps' ensures OwnsWell(ps'[q], blocks) { assert OwnsWell(ps[q], blocks); }
    forall a | a in blocks ensures SomeOwner(ps', a) {
      assert SomeOwner(ps, a);
      var q: nat :| Owner(ps, q, a);
      assert Owner(ps', q, a);
    }
  }

  lemma NicePids(ps: Procs, nextPid: nat, p: nat, b: Pcb)
    requires PidsOk(ps, nextPid) && p in ps && b.pid == ps[p].pid && b.parent == ps[p].parent
    requires MIN_PRIORITY <= b.priority <= MAX_PRIORITY
    ensures PidsOk(ps[p := b], nextPid)
  {
    assert PcbOk(ps[p], p, nextPid);
    var ps' := ps[p := b];
    assert ps'.Keys == ps.Keys;
    forall q | q in ps' ensures PcbOk(ps'[q], q, nextPid) { assert PcbOk(ps[q], q, nextPid); }
  }

  lemma NiceKeeps(k: Kernel, p: nat, priority: nat)
    requires KernelInv(k)
    ensures Mid(Nice(k, p, priority))
  {
    if p in Tab(k) {
      var k' := Nice(k, p, priority);
      var n := Clamp(priority % 256);
      assert StateAt(k.view, p);
      NiceBase(k, p, priority);
      var b := Tab(k)[p].(priority := n, waitTicks := 0, quanta := n);
      assert WaitOk(Tab(k), p);
      WaitsUpdate(Tab(k), p, b);
      assert k'.view == k.view.(procs := Tab(k)[p := b]);
      forall q | q in Tab(k') ensures StateAt(k'.view, q) { assert StateAt(k.view, q); }
    }
  }

  // ---------------------------------------------------------------- creation

  lemma CreateOwners(ps: Procs, blocks: set<nat>, pid: nat, b: Pcb)
    requires OwnersOk(ps, blocks) && pid !in ps && b.stack.Some? && b.argv != b.stack && Owns(b) !! blocks
    ensures OwnersOk(ps[pid := b], blocks + Owns(b))
  {
    var ps' := ps[pid := b];
    forall q: nat, a ensures Owner(ps', q, a) <==> Owner(ps, q, a) || (q == pid && a in Owns(b)) { }
    forall q: nat, a | Owner(ps, q, a) ensures a in blocks { assert OwnsWell(ps[q], blocks); }
    forall q | q in ps' ensures OwnsWell(ps'[q], blocks + Owns(b)) { if q != pid { assert OwnsWell(ps[q], blocks); } }
    forall a | a in blocks + Owns(b) ensures SomeOwner(ps', a) {
      if a in Owns(b) {
        assert Owner(ps', pid, a);
      } else {
        assert SomeOwner(ps, a);
        var q: nat :| Owner(ps, q, a);
        assert Owner(ps', q, a);
      }
    }
  }

  lemma CreatePids(ps: Procs, nextPid: nat, b: Pcb)
    requires PidsOk(ps, nextPid) && |ps| < MAX_PROCESSES && PcbOk(b, nextPid + 1, nextPid + 1)
    ensures nextPid + 1 !in ps && PidsOk(ps[nextPid + 1 := b], nextPid + 1)
  {
    assert nextPid + 1 in ps ==> PcbOk(ps[nextPid + 1], nextPid + 1, nextPid);
    var ps' := ps[nextPid + 1 := b];
    assert ps'.Keys == ps.Keys + {nextPid + 1};
    forall q | q in ps'
      ensures PcbOk(ps'[q], q, nextPid + 1)
    {
      if q != nextPid + 1 { assert PcbOk(ps[q], q, nextPid); }
    }
  }

  ghost predicate FreshBlocks(k: Kernel, stack: Option<nat>, args: Option<nat>) {
    && (stack.Some? ==> stack.value !in k.blocks) && (args.Some? ==> args.value !in k.blocks)
    && (stack.Some? && args.Some? ==> stack.value != args.value)
  }

  /** A creation that fails leaves no block behind. */
  lemma CreateFails(k: Kernel, fg: nat, wantsArgs: bool, stack: Option<nat>, args: Option<nat>)
    requires Known(Tab(k), k.queue.pids) && FreshBlocks(k, stack, args) && Create(k, fg, wantsArgs, stack, args).1 == -1
    ensures Create(k, fg, wantsArgs, stack, args).0 == k
  {
    if stack.Some? { assert k.blocks + {stack.value} - {stack.value} == k.blocks; }
  }

  lemma CreateIs(k: Kernel, fg: nat, wantsArgs: bool, stack: Option<nat>, args: Option<nat>)
    requires Known(Tab(k), k.queue.pids) && Cur(k).Some? && Create(k, fg, wantsArgs, stack, args).1 != -1
    ensures stack.Some? && (wantsArgs ==> args.Some?) && |Tab(k)| < MAX_PROCESSES
    ensures var b := Fresh(k.nextPid + 1, fg, Cur(k).value, stack.value, if wantsArgs then args else None);
            var ps' := Tab(k)[k.nextPid + 1 := b];
            Known(ps', k.queue.pids) &&
            Create(k, fg, wantsArgs, stack, args).0 ==
              Kernel(k.view.(procs := ps'), Add(ps', k.queue, k.nextPid + 1), k.nextPid + 1, k.blocks + Owns(b),
                     k.badFrees)
  {
  }

  lemma CreateBase(k: Kernel, b: Pcb)
    requires Base(k) && |Tab(k)| < MAX_PROCESSES && PcbOk(b, k.nextPid + 1, k.nextPid + 1)
    requires b.stack.Some? && b.argv != b.stack && Owns(b) !! k.blocks
    ensures var ps' := Tab(k)[k.nextPid + 1 := b];
            Known(ps', k.queue.pids) &&
            Base(Kernel(k.view.(procs := ps'), Add(ps', k.queue, k.nextPid + 1), k.nextPid + 1, k.blocks + Owns(b),
                        k.badFrees))
  {
    var pid := k.nextPid + 1;
    var ps' := Tab(k)[pid := b];
    CreatePids(Tab(k), k.nextPid, b);
    CreateOwners(Tab(k), k.blocks, pid, b);
    assert ps' - {pid} == Tab(k);
    assert |ps'| <= MAX_PROCESSES;
    AddKeeps(ps', k.queue, pid);
  }

  lemma CreateWaits(ps: Procs, pid: nat, b: Pcb)
    requires WaitsOk(ps) && pid !in ps && b.waitingFor == 0 && b.state != Zombie
    ensures WaitsOk(ps[pid := b])
  {
    forall q | q in ps && q != pid ensures WaitOk(ps[pid := b], q) { assert WaitOk(ps, q); }
  }

  lemma CreateKeeps(k: Kernel, fg: nat, wantsArgs: bool, stack: Option<nat>, args: Option<nat>)
    requires KernelInv(k) && FreshBlocks(k, stack, args)
    ensures Mid(Create(k, fg, wantsArgs, stack, args).0)
  {
    var (k', r) := Create(k, fg, wantsArgs, stack, args);
    if r == -1 {
      CreateFails(k, fg, wantsArgs, stack, args);
    } else {
      CreateIs(k, fg, wantsArgs, stack, args);
      var pid := k.nextPid + 1;
      var b := Fresh(pid, fg, Cur(k).value, stack.value, if wantsArgs then args else None);
      assert PcbOk(Tab(k)[Cur(k).value], Cur(k).value, k.nextPid);
      assert pid in Tab(k) ==> PcbOk(Tab(k)[pid], pid, k.nextPid);
      CreateBase(k, b);
      CreateWaits(Tab(k), pid, b);
      forall q | q in Tab(k') ensures StateAt(k'.view, q) { if q != pid { assert StateAt(k.view, q); } }
    }
  }

  // ---------------------------------------------------------------- blocking and yielding

  lemma UnblockSoft(k: Kernel, p: nat)
    requires Mid(k) && (p in Tab(k) ==> Tab(k)[p].state == Blocked ==> Tab(k)[p].waitingFor == 0)
    ensures Soft(k.view, ProcessUnblock(k.view, p))
  {
    var v := ProcessUnblock(k.view, p);
    forall q | q in v.procs ensures SoftAt(k.view, v, q) { }
  }

  lemma BlockKeeps(k: Kernel, p: nat)
    requires KernelInv(k)
    ensures Mid(BlockCall(k, p).0)
  {
    if p in Tab(k) {
      var b := Tab(k)[p];
      assert StateAt(k.view, p) && WaitOk(Tab(k), p);
      if b.state == Blocked && b.waitingFor == 0 {
        UnblockSoft(k, p);
        SoftKeeps(k, ProcessUnblock(k.view, p));
      } else if b.state != Blocked {
        var b' := b.(state := Blocked);
        WaitsUpdate(Tab(k), p, b');
        if Cur(k) == Some(p) {
          ForcedKeeps(k);
          OneChange(Forced(k), p, b');
          assert BlockCall(k, p).0 == With(Forced(k), p, b');
        } else {
          OneChange(k, p, b');
          assert BlockCall(k, p).0 == With(k, p, b');
        }
      }
    }
  }

  lemma YieldKeeps(k: Kernel)
    requires KernelInv(k)
    ensures Mid(YieldCall(k))
  {
    var c := Cur(k).value;
    var b := Tab(k)[c].(state := State.Ready);
    assert StateAt(k.view, c) && WaitOk(Tab(k), c);
    ForcedKeeps(k);
    WaitsUpdate(Tab(k), c, b);
    OneChange(Forced(k), c, b);
  }

  lemma SaveRaxKeeps(k: Kernel, r: int)
    requires Mid(k)
    ensures Mid(SaveRax(k, r))
  {
    var c := Cur(k).value;
    var b := Tab(k)[c].(savedRax := r);
    assert StateAt(k.view, c) && WaitOk(Tab(k), c);
    WaitsUpdate(Tab(k), c, b);
    OneChange(k, c, b);
  }

  // ---------------------------------------------------------------- all entries into the kernel

  /** `cleaned` is what semaphore, pipe and keyboard clean-up leaves, `released` what closing the FDs leaves; `Service`
      is any call on semaphores, pipes and FDs, or on nothing modelled here. */
  datatype Call =
    | Creation(fg: nat, wantsArgs: bool, stack: Option<nat>, args: Option<nat>)
    | Exit(retval: int, cleaned: View)
    | Kill(pid: nat, cleaned: View, released: View)
    | Block(pid: nat)
    | Unblock(pid: nat)
    | Renice(pid: nat, priority: nat)
    | WaitFor(pid: nat)
    | Yield
    | Service(after: View, result: int)

  /** `rax` stands for the result register after a call that returns nothing. */
  datatype Event = Timer | Keyboard(after: View) | CtrlC(cleaned: View, released: View) | Syscall(call: Call, rax: int)

  predicate Killable(k: Kernel, p: nat) {
    p in Tab(k) && Tab(k)[p].state !in {State.Free, Zombie}
  }

  ghost predicate KillLegal(k: Kernel, p: nat, cleaned: View, released: View) {
    && k.queue.idle != Some(p)
    && (Killable(k, p) ==>
          Soft(SetRetval(k, p, -1).view, cleaned) && p in cleaned.procs
          && Soft(KillMiddle(k.(view := cleaned), p).view, released))
  }

  function Killed(k: Kernel, p: nat, cleaned: View, released: View): Kernel {
    if Killable(k, p) && p in cleaned.procs && p in released.procs then
      KillEnd(KillMiddle(k.(view := cleaned), p).(view := released), p)
    else k
  }

  /** The newest process in the foreground. */
  function Newest(ps: Procs, n: nat): nat {
    if n == 0 then 0 else if n in ps && ps[n].foreground != 0 then n else Newest(ps, n - 1)
  }

  ghost function Foreground(ps: Procs): set<nat> {
    set p | p in ps && ps[p].foreground != 0
  }

  ghost predicate CallLegal(k: Kernel, c: Call) {
    match c
    case Creation(_, _, stack, args) => FreshBlocks(k, stack, args)
    case Exit(retval, cleaned) => Cur(k).Some? && Cur(k).value in Tab(k)
      && Soft(SetRetval(k, Cur(k).value, retval).view, cleaned)
    case Kill(pid, cleaned, released) => KillLegal(k, pid, cleaned, released)
    case Block(pid) => true
    case Unblock(pid) => pid in Tab(k) ==> Tab(k)[pid].waitingFor == 0
    case Renice(pid, _) => true
    case WaitFor(pid) => pid in Tab(k) ==> Cur(k) == Some(Tab(k)[pid].parent)
    case Yield => true
    case Service(after, _) => Soft(k.view, after)
  }

  ghost predicate Enabled(k: Kernel, e: Event) {
    match e
    case Timer => true
    case Keyboard(after) => Soft(k.view, after)
    case CtrlC(cleaned, released) =>
      |Foreground(Tab(k))| > 1 ==> KillLegal(k, Newest(Tab(k), k.nextPid), cleaned, released)
    case Syscall(call, _) => Cur(k).Some? && Cur(k) != k.queue.idle && CallLegal(k, call)
  }

  /** The kernel and the result at the end of the call's own code. */
  ghost function Called(k: Kernel, c: Call, rax: int): (Kernel, int)
    requires KernelInv(k) && Cur(k) != k.queue.idle && CallLegal(k, c)
  {
    match c
    case Creation(fg, wantsArgs, stack, args) => Create(k, fg, wantsArgs, stack, args)
    case Exit(retval, cleaned) => (ExitEnd(k.(view := cleaned), retval), rax)
    case Kill(pid, cleaned, released) => (Killed(k, pid, cleaned, released), rax)
    case Block(pid) => BlockCall(k, pid)
    case Unblock(pid) => (k.(view := ProcessUnblock(k.view, pid)), rax)
    case Renice(pid, priority) => (Nice(k, pid, priority), rax)
    case WaitFor(pid) => WaitPid(k, pid)
    case Yield => (YieldCall(k), rax)
    case Service(after, result) => (k.(view := after), result)
  }

  lemma KilledKeeps(k: Kernel, p: nat, cleaned: View, released: View)
    requires KernelInv(k) && KillLegal(k, p, cleaned, released)
    ensures Mid(Killed(k, p, cleaned, released))
  {
    if Killable(k, p) {
      SetRetvalKeeps(k, p, -1);
      var k0 := SetRetval(k, p, -1);
      SoftKeeps(k0, cleaned);
      var k1 := k0.(view := cleaned);
      assert k1 == k.(view := cleaned);
      if Cur(k) == Some(p) {
        assert SoftAt(k0.view, cleaned, p) && StateAt(k.view, p) && WaitOk(Tab(k), p);
        KillSelfKeeps(k1, p, released);
      } else {
        KillOtherKeeps(k1, p, released);
      }
    }
  }

  lemma CallKeeps(k: Kernel, c: Call, rax: int)
    requires KernelInv(k) && Cur(k) != k.queue.idle && CallLegal(k, c)
    ensures Mid(Called(k, c, rax).0)
  {
    match c
    case Creation(fg, wantsArgs, stack, args) => CreateKeeps(k, fg, wantsArgs, stack, args);
    case Exit(retval, cleaned) =>
      var c := Cur(k).value;
      SetRetvalKeeps(k, c, retval);
      SoftKeeps(SetRetval(k, c, retval), cleaned);
      assert SoftAt(SetRetval(k, c, retval).view, cleaned, c) && StateAt(k.view, c) && WaitOk(Tab(k), c);
      ExitKeeps(k.(view := cleaned), retval);
    case Kill(pid, cleaned, released) => KilledKeeps(k, pid, cleaned, released);
    case Block(pid) => BlockKeeps(k, pid);
    case Unblock(pid) =>
      UnblockSoft(k, pid);
      SoftKeeps(k, ProcessUnblock(k.view, pid));
    case Renice(pid, priority) => NiceKeeps(k, pid, priority);
    case WaitFor(pid) => WaitPidKeeps(k, pid);
    case Yield => YieldKeeps(k);
    case Service(after, _) => SoftKeeps(k, after);
  }

  /** One entry into the kernel, up to the return to a process. */
  ghost function After(k: Kernel, e: Event): Kernel
    requires KernelInv(k) && Enabled(k, e)
  {
    match e
    case Timer =>
      TickKeeps(k);
      Tick(k)
    case Keyboard(after) =>
      SoftKeeps(k, after);
      LeaveKeeps(k.(view := after));
      Leave(k.(view := after))
    case CtrlC(cleaned, released) =>
      if |Foreground(Tab(k))| > 1 then
        KilledKeeps(k, Newest(Tab(k), k.nextPid), cleaned, released);
        LeaveKeeps(Killed(k, Newest(Tab(k), k.nextPid), cleaned, released));
        Leave(Killed(k, Newest(Tab(k), k.nextPid), cleaned, released))
      else k
    case Syscall(call, rax) =>
      CallKeeps(k, call, rax);
      var (k1, r) := Called(k, call, rax);
      SaveRaxKeeps(k1, r);
      LeaveKeeps(SaveRax(k1, r));
      Leave(SaveRax(k1, r))
  }

  /** Every entry into the kernel keeps its invariant. */
  lemma StepKeeps(k: Kernel, e: Event)
    requires KernelInv(k) && Enabled(k, e)
    ensures KernelInv(After(k, e))
  {
    match e
    case Timer => TickKeeps(k);
    case Keyboard(after) =>
      SoftKeeps(k, after);
      LeaveKeeps(k.(view := after));
    case CtrlC(cleaned, released) =>
      if |Foreground(Tab(k))| > 1 {
        KilledKeeps(k, Newest(Tab(k), k.nextPid), cleaned, released);
        LeaveKeeps(Killed(k, Newest(Tab(k), k.nextPid), cleaned, released));
      }
    case Syscall(call, rax) =>
      CallKeeps(k, call, rax);
      SaveRaxKeeps(Called(k, call, rax).0, Called(k, call, rax).1);
      LeaveKeeps(SaveRax(Called(k, call, rax).0, Called(k, call, rax).1));
  }
}
