/**
 The whole kernel: processes, scheduler, semaphores, pipes and FDs over one process table. Every entry into it, from
 boot on, keeps all their invariants together; in particular a death cleans up after itself everywhere at once, and
 nobody sleeps in two queues.
 */
module System {
  import opened Processes
  import opened KernelSpec
  import K = KernelTheorems
  import Runs = KernelRuns
  import Run = Scheduler
  import Sems = SemaphoreSpec
  import ST = SemaphoreTheorems
  import Pipe = PipeSpec
  import Refs = PipeRefs
  import PQ = PipeQueues
  import PS = PipeStreams
  import opened Interplay

  /** `kbd` is the process that waits for input from the keyboard. */
  datatype System = System(k: Kernel, sems: seq<Sems.Sem>, pipes: seq<Pipe.Pipe>, fds: seq<Pipe.Fd>, kbd: Option<nat>)

  function SemWorld(s: System): Sems.World { Sems.World(s.sems, s.k.view) }

  function PipeWorld(s: System): Pipe.Pipes { Pipe.Pipes(s.pipes, s.fds, s.k.view) }

  function Just(p: Option<nat>): set<nat> { if p.Some? then {p.value} else {} }

  /** Everybody who waits at a semaphore, at a pipe or, kb, for the keyboard. */
  ghost function Waiting(sems: seq<Sems.Sem>, pipes: seq<Pipe.Pipe>, kb: set<nat>): set<nat> {
    SemWaiting(sems) + PQ.AllWaiters(pipes) + kb
  }

  ghost function Sleepers(s: System): set<nat> {
    Waiting(s.sems, s.pipes, Just(s.kbd))
  }

  /** Everybody in a queue. */
  ghost function Queued(s: System): set<nat> {
    SemWaiting(s.sems) + PQ.AllWaiters(s.pipes)
  }

  predicate TerminalsOk(fds: seq<Pipe.Fd>) {
    |fds| == Pipe.MAX_FDS && fds[Pipe.FD_STDIN].kind == Pipe.Terminal && fds[Pipe.FD_STDOUT].kind == Pipe.Terminal
  }

  /** Sleepers are asleep, wait for no child, sleep in one place, and the idle process is not among them. */
  ghost predicate SleepersOk(s: System) {
    && PQ.AllAsleep(s.k.view.procs, Sleepers(s)) && SemWaiting(s.sems) !! PQ.AllWaiters(s.pipes) !! Just(s.kbd)
    && (s.k.queue.idle.Some? ==> s.k.queue.idle.value !in Sleepers(s))
  }

  ghost predicate Inv(s: System) {
    && K.KernelInv(s.k) && ST.SemInv(SemWorld(s)) && PS.PipeInv(PipeWorld(s)) && TerminalsOk(s.fds)
    && |s.pipes| == Pipe.MAX_PIPES && SleepersOk(s)
  }

  // ---------------------------------------------------------------- what the kernel's own code leaves alone

  predicate RestedAt(v: View, v': View, q: set<nat>, p: nat)
    requires p in v.procs && p in v'.procs
  {
    ST.SameBits(v.procs[p], v'.procs[p]) && (p in q && PQ.Asleep(v.procs, p) ==> PQ.Asleep(v'.procs, p))
  }

  predicate NewAt(v: View, v': View, p: nat)
    requires p in v'.procs
  {
    p !in v.procs ==> v'.procs[p].heldSems == {} && v'.procs[p].openedSems == {}
  }

  /** Bitmaps stay, sleepers of q sleep on, newcomers have opened nothing, and only `gone` may have left. */
  ghost predicate Rested(v: View, v': View, q: set<nat>, gone: set<nat>) {
    && (forall p {:trigger RestedAt(v, v', q, p)} :: p in v.procs && p in v'.procs ==> RestedAt(v, v', q, p))
    && (forall p {:trigger NewAt(v, v', p)} :: p in v'.procs ==> NewAt(v, v', p))
    && v.procs.Keys - gone <= v'.procs.Keys
  }

  lemma RestedTrans(v: View, v1: View, v2: View, q: set<nat>, gone: set<nat>)
    requires Rested(v, v1, q, {}) && Rested(v1, v2, q, gone)
    ensures Rested(v, v2, q, gone)
  {
    forall p | p in v.procs && p in v2.procs
      ensures RestedAt(v, v2, q, p)
    {
      assert RestedAt(v, v1, q, p) && RestedAt(v1, v2, q, p);
    }
    forall p | p in v2.procs ensures NewAt(v, v2, p) {
      assert NewAt(v1, v2, p);
      if p in v1.procs {
        assert NewAt(v, v1, p) && RestedAt(v1, v2, q, p);
      }
    }
  }

  /** A change of one process that keeps its bitmaps, and its sleep if it is a sleeper. */
  lemma OneRests(v: View, p: nat, b: Pcb, q: set<nat>, cur: Option<nat>, force: bool)
    requires p in v.procs && ST.SameBits(v.procs[p], b)
    requires p in q && PQ.Asleep(v.procs, p) ==> b.state == Blocked && b.waitingFor == 0
    ensures Rested(v, View(v.procs[p := b], cur, force), q, {})
  {
    var v' := View(v.procs[p := b], cur, force);
    forall x | x in v.procs && x in v'.procs ensures RestedAt(v, v', q, x) { }
    forall x | x in v'.procs ensures NewAt(v, v', x) { }
  }

  lemma SameRests(v: View, v': View, q: set<nat>)
    requires v'.procs == v.procs
    ensures Rested(v, v', q, {})
  {
    forall x | x in v.procs && x in v'.procs ensures RestedAt(v, v', q, x) { }
    forall x | x in v'.procs ensures NewAt(v, v', x) { }
  }

  /** A switch wakes no sleeper, the idle process not being one; a zombie leaves. */
  lemma SwitchRests(k: Kernel, q: set<nat>)
    requires Shape(k) && (k.queue.idle.Some? ==> k.queue.idle.value !in q)
    ensures Rested(k.view, Switch(k).view, q, if CurIs(k, Zombie) then {Cur(k).value} else {})
  {
    var v' := Switch(k).view;
    forall p ensures p in Tab(k) && p in v'.procs ==> RestedAt(k.view, v', q, p) {
      if p in Tab(k) && p in v'.procs { SwitchAt(k, q, p); }
    }
    forall p | p in v'.procs ensures NewAt(k.view, v', p) { Runs.SwitchTab(k, p); }
    forall p | p in Tab(k) && !(CurIs(k, Zombie) && p == Cur(k).value) ensures p in v'.procs { Runs.SwitchTab(k, p); }
  }

  lemma SwitchAt(k: Kernel, q: set<nat>, p: nat)
    requires Shape(k) && (k.queue.idle.Some? ==> k.queue.idle.value !in q) && p in Tab(k) && p in Tab(Switch(k))
    ensures RestedAt(k.view, Switch(k).view, q, p)
  {
    Run.ChosenIsReady(Tab(k), k.queue);
    var (next, r) := Run.NextReady(Tab(k), k.queue);
    if next.Some? && CurIs(k, Zombie) { Runs.BuryTab(k.(queue := Run.Remove(r, Cur(k).value)), Cur(k).value); }
  }

  lemma PauseRests(k: Kernel, q: set<nat>)
    requires Cur(k).Some? && Cur(k).value in Tab(k)
    ensures Rested(k.view, Pause(k).view, q, {})
  {
    var c := Cur(k).value;
    var b := Tab(k)[c];
    OneRests(k.view, c, b.(state := if b.state == Running then State.Ready else b.state, quanta := b.priority), q,
             k.view.cur, k.view.force);
  }

  /** From the end of a call's own code to the return to a process. */
  lemma LeaveRests(k: Kernel, q: set<nat>)
    requires K.Mid(k) && (k.queue.idle.Some? ==> k.queue.idle.value !in q)
    ensures Shape(k) && Rested(k.view, Leave(k).view, q, if CurIs(k, Zombie) then {Cur(k).value} else {})
  {
    K.LeaveKeeps(k);
    SameRests(k.view, k.view, q);
    if k.view.force {
      var k0 := k.(view := k.view.(force := false));
      K.PauseKeeps(k);
      assert Pause(k0).view == Pause(k).view.(force := false);
      SameRests(k.view, k0.view, q);
      PauseRests(k0, q);
      RestedTrans(k.view, k0.view, Pause(k0).view, q, {});
      K.ChoiceOk(Pause(k).(view := Pause(k).view.(force := false)));
      SwitchRests(Pause(k0), q);
      RestedTrans(k.view, Pause(k0).view, Leave(k).view, q, if CurIs(k, Zombie) then {Cur(k).value} else {});
    }
  }

  lemma SaveRaxRests(k: Kernel, r: int, q: set<nat>)
    requires Cur(k).Some? && Cur(k).value in Tab(k)
    ensures Rested(k.view, SaveRax(k, r).view, q, {})
  {
    OneRests(k.view, Cur(k).value, Tab(k)[Cur(k).value].(savedRax := r), q, k.view.cur, k.view.force);
  }

  lemma EndRests(k: Kernel, r: int, q: set<nat>)
    requires K.Mid(k) && (k.queue.idle.Some? ==> k.queue.idle.value !in q)
    ensures Shape(SaveRax(k, r)) && K.KernelInv(Leave(SaveRax(k, r)))
    ensures Rested(k.view, Leave(SaveRax(k, r)).view, q, if CurIs(k, Zombie) then {Cur(k).value} else {})
  {
    K.SaveRaxKeeps(k, r);
    K.LeaveKeeps(SaveRax(k, r));
    SaveRaxRests(k, r, q);
    LeaveRests(SaveRax(k, r), q);
    RestedTrans(k.view, SaveRax(k, r).view, Leave(SaveRax(k, r)).view, q,
                if CurIs(k, Zombie) then {Cur(k).value} else {});
  }

  lemma TickRests(k: Kernel, q: set<nat>)
    requires K.KernelInv(k) && (k.queue.idle.Some? ==> k.queue.idle.value !in q)
    ensures Shape(k) && Rested(k.view, Tick(k).view, q, {})
  {
    K.TickKeeps(k);
    K.AgedKeeps(k);
    var k1 := Aged(k);
    var c := Cur(k).value;
    assert K.StateAt(k.view, c);
    forall p | p in k.view.procs && p in k1.view.procs ensures RestedAt(k.view, k1.view, q, p) { }
    forall p | p in k1.view.procs ensures NewAt(k.view, k1.view, p) { }
    var b := Tab(k1)[c].(quanta := Less(Tab(k1)[c].quanta));
    assert Tab(k)[c].state == Running;
    if b.quanta > 0 {
      OneRests(k1.view, c, b, q, k1.view.cur, k1.view.force);
      RestedTrans(k.view, k1.view, Tick(k).view, q, {});
    } else {
      var b1 := b.(state := State.Ready, quanta := b.priority);
      var k2 := With(k1, c, b1);
      OneRests(k1.view, c, b1, q, k1.view.cur, k1.view.force);
      RestedTrans(k.view, k1.view, k2.view, q, {});
      TickSwitch(k);
      SwitchRests(k2, q);
      RestedTrans(k.view, k2.view, Tick(k).view, q, {});
    }
  }

  lemma TickSwitch(k: Kernel)
    requires K.KernelInv(k) && Tab(k)[Cur(k).value].quanta <= 1
    ensures Cur(k).value in Tab(Aged(k))
    ensures var c := Cur(k).value;
            var b := Tab(Aged(k))[c].(state := State.Ready, quanta := Tab(Aged(k))[c].priority);
            Shape(With(Aged(k), c, b)) && Shape(k) && Tick(k) == Switch(With(Aged(k), c, b))
  {
    K.TickKeeps(k);
    K.AgedKeeps(k);
    assert K.StateAt(k.view, Cur(k).value);
  }

  // ---------------------------------------------------------------- putting the pieces together

  /** The invariant with the kernel's part left out, at a view inside the kernel. */
  ghost predicate Parts(sems: seq<Sems.Sem>, pipes: seq<Pipe.Pipe>, fds: seq<Pipe.Fd>, kb: set<nat>, v: View) {
    && ST.SemInv(Sems.World(sems, v)) && Refs.RefInv(pipes, fds) && PQ.QueueInv(pipes, v.procs) && TerminalsOk(fds)
    && |pipes| == Pipe.MAX_PIPES && PQ.AllAsleep(v.procs, Waiting(sems, pipes, kb))
    && SemWaiting(sems) !! PQ.AllWaiters(pipes) !! kb
  }

  lemma InQueue(sems: seq<Sems.Sem>, i: nat, x: nat)
    requires i < |sems| && x in sems[i].queue
    ensures x in SemWaiting(sems)
  {
  }

  lemma RestedSems(sems: seq<Sems.Sem>, v: View, v': View, q: set<nat>)
    requires ST.SemInv(Sems.World(sems, v)) && |v'.procs| <= MAX_PROCESSES && Rested(v, v', q, {})
    requires SemWaiting(sems) <= q && PQ.AllAsleep(v.procs, q)
    ensures ST.SemInv(Sems.World(sems, v'))
  {
    var w := Sems.World(sems, v);
    forall p | p in v.procs && p in v'.procs
      ensures ST.SameBits(v.procs[p], v'.procs[p])
    {
      assert RestedAt(v, v', q, p);
    }
    forall p | p in v'.procs && p !in v.procs
      ensures v'.procs[p].heldSems == {} && v'.procs[p].openedSems == {}
    {
      assert NewAt(v, v', p);
    }
    forall i: nat, p | i < |sems| && p in sems[i].queue && p in v'.procs ensures v'.procs[p].state == Blocked {
      InQueue(sems, i, p);
      assert PQ.Asleep(v.procs, p) && RestedAt(v, v', q, p);
    }
    ST.OtherKeeps(w, v');
  }

  lemma RestedAsleep(v: View, v': View, q: set<nat>, gone: set<nat>)
    requires Rested(v, v', q, gone) && PQ.AllAsleep(v.procs, q) && q !! gone
    ensures PQ.AllAsleep(v'.procs, q)
  {
    forall x | x in q ensures PQ.Asleep(v'.procs, x) {
      assert PQ.Asleep(v.procs, x);
      assert RestedAt(v, v', q, x);
    }
  }

  lemma RestedPipes(pipes: seq<Pipe.Pipe>, v: View, v': View)
    requires PQ.QueueInv(pipes, v.procs) && PQ.AllAsleep(v'.procs, PQ.AllWaiters(pipes))
    ensures PQ.QueueInv(pipes, v'.procs)
  {
    PS.OthersKeep(Pipe.Pipes(pipes, [], v), v');
  }

  /** The kernel's own code, after the others have done their part, keeps everything. */
  lemma Conclude(sems: seq<Sems.Sem>, pipes: seq<Pipe.Pipe>, fds: seq<Pipe.Fd>, kbd: Option<nat>, v: View, k': Kernel)
    requires Parts(sems, pipes, fds, Just(kbd), v) && K.KernelInv(k')
    requires Rested(v, k'.view, Waiting(sems, pipes, Just(kbd)), {})
    requires k'.queue.idle.Some? ==> k'.queue.idle.value !in Waiting(sems, pipes, Just(kbd))
    ensures Inv(System(k', sems, pipes, fds, kbd))
  {
    var q := Waiting(sems, pipes, Just(kbd));
    RestedSems(sems, v, k'.view, q);
    RestedAsleep(v, k'.view, q, {});
    RestedPipes(pipes, v, k'.view);
  }

  /** ... also when a process that has no part in anything leaves. */
  lemma ConcludeGone(sems: seq<Sems.Sem>, pipes: seq<Pipe.Pipe>, fds: seq<Pipe.Fd>, kbd: Option<nat>, v: View,
                     k': Kernel, c: nat)
    requires Parts(sems, pipes, fds, Just(kbd), v) && K.KernelInv(k')
    requires Rested(v, k'.view, Waiting(sems, pipes, Just(kbd)), {c})
    requires c in v.procs && c !in k'.view.procs && c !in PQ.AllWaiters(pipes) && kbd != Some(c)
    requires forall i :: 0 <= i < |sems| ==> ST.GoneFrom(Sems.World(sems, v), c, i)
    requires k'.queue.idle.Some? ==> k'.queue.idle.value !in Waiting(sems, pipes, Just(kbd))
    ensures Inv(System(k', sems, pipes, fds, kbd))
  {
    var q := Waiting(sems, pipes, Just(kbd));
    var v1 := v.(procs := v.procs - {c});
    ST.VanishKeeps(Sems.World(sems, v), c);
    forall i | 0 <= i < |sems| ensures c !in sems[i].queue { assert ST.GoneFrom(Sems.World(sems, v), c, i); }
    assert c !in SemWaiting(sems);
    forall p | p in v1.procs && p in k'.view.procs
      ensures RestedAt(v1, k'.view, q, p)
    {
      assert RestedAt(v, k'.view, q, p);
    }
    forall p | p in k'.view.procs ensures NewAt(v1, k'.view, p) { assert NewAt(v, k'.view, p); }
    forall x | x in q ensures PQ.Asleep(v1.procs, x) { assert PQ.Asleep(v.procs, x); }
    RestedSems(sems, v1, k'.view, q);
    RestedAsleep(v1, k'.view, q, {});
    RestedPipes(pipes, v, k'.view);
  }

  // ---------------------------------------------------------------- semaphores and pipes beside each other

  /** What happens at semaphores does not disturb those who wait at pipes. */
  lemma PipesUndisturbed(pipes: seq<Pipe.Pipe>, v: View, v': View, q: set<nat>)
    requires PQ.QueueInv(pipes, v.procs) && Roused(v, v', q) && q !! PQ.AllWaiters(pipes)
    ensures PQ.QueueInv(pipes, v'.procs) && PQ.AllAsleep(v'.procs, PQ.AllWaiters(pipes))
  {
    forall x | x in PQ.AllWaiters(pipes) ensures PQ.Asleep(v'.procs, x) {
      var i: nat :| i < |pipes| && x in PQ.Waiters(pipes[i]);
      assert PQ.EndsOk(pipes[i], v.procs) && PQ.Asleep(v.procs, x);
      assert RousedAt(v, v', q, x);
    }
    RestedPipes(pipes, v, v');
  }

  /** What happens at pipes does not disturb those who wait at semaphores. */
  lemma SemsUndisturbed(sems: seq<Sems.Sem>, v: View, v': View, q: set<nat>)
    requires ST.SemInv(Sems.World(sems, v)) && PQ.Wakes(v, v', q) && q !! SemWaiting(sems)
    requires PQ.AllAsleep(v.procs, SemWaiting(sems))
    ensures ST.SemInv(Sems.World(sems, v')) && PQ.AllAsleep(v'.procs, SemWaiting(sems))
  {
    assert |v'.procs.Keys| == |v.procs.Keys|;
    forall p | p in v.procs && p in v'.procs
      ensures RestedAt(v, v', SemWaiting(sems), p)
    {
      assert PQ.WakesAt(v, v', q, p);
    }
    forall p | p in v'.procs ensures NewAt(v, v', p) { }
    RestedSems(sems, v, v', SemWaiting(sems));
    RestedAsleep(v, v', SemWaiting(sems), {});
  }

  /** Nor those who wait for the keyboard. */
  lemma KeyboardUndisturbed(v: View, v': View, q: set<nat>, kb: set<nat>)
    requires Roused(v, v', q) && q !! kb && PQ.AllAsleep(v.procs, kb)
    ensures PQ.AllAsleep(v'.procs, kb)
  {
    forall x | x in kb ensures PQ.Asleep(v'.procs, x) { assert PQ.Asleep(v.procs, x) && RousedAt(v, v', q, x); }
  }

  /** The caller's going to sleep disturbs nobody. */
  lemma SleepRests(v: View, q: set<nat>)
    requires PQ.CallerRuns(v)
    ensures Rested(v, ProcessBlock(v, v.cur.value), q, {})
  {
    var v' := ProcessBlock(v, v.cur.value);
    forall x | x in v.procs && x in v'.procs ensures RestedAt(v, v', q, x) { }
    forall x | x in v'.procs ensures NewAt(v, v', x) { }
  }

  /** Who waits at a semaphore after an operation is asleep. */
  lemma SemSleepers(w: Sems.World)
    requires ST.SemInv(w) && Sleepy(w)
    ensures PQ.AllAsleep(w.view.procs, SemWaiting(w.sems))
  {
    forall x | x in SemWaiting(w.sems) ensures PQ.Asleep(w.view.procs, x) {
      var i: nat :| i < |w.sems| && x in w.sems[i].queue;
      assert ST.SemOk(w.sems[i], w.view.procs, i);
      assert PQ.Sleepy(w.view.procs, x);
    }
  }

  /** A gentle operation on semaphores, in the whole. */
  lemma GentleParts(w: Sems.World, w': Sems.World, pipes: seq<Pipe.Pipe>, fds: seq<Pipe.Fd>, kb: set<nat>)
    requires Parts(w.sems, pipes, fds, kb, w.view) && Gentle(w, w') && ST.SemInv(w')
    ensures Parts(w'.sems, pipes, fds, kb, w'.view)
  {
    SemSleepers(w');
    KeyboardUndisturbed(w.view, w'.view, SemWaiting(w.sems), kb);
    PipesUndisturbed(pipes, w.view, w'.view, SemWaiting(w.sems));
  }

  lemma CalmParts(sems: seq<Sems.Sem>, s: Pipe.Pipes, s': Pipe.Pipes, kb: set<nat>)
    requires Parts(sems, s.pipes, s.fds, kb, s.view) && PQ.Calm(s, s') && Refs.RefInv(s'.pipes, s'.fds)
    requires TerminalsOk(s'.fds)
    ensures Parts(sems, s'.pipes, s'.fds, kb, s'.view)
  {
    WakesRouse(s.view, s'.view, PQ.AllWaiters(s.pipes));
    KeyboardUndisturbed(s.view, s'.view, PQ.AllWaiters(s.pipes), kb);
    SemsUndisturbed(sems, s.view, s'.view, PQ.AllWaiters(s.pipes));
    forall x | x in PQ.AllWaiters(s'.pipes) ensures PQ.Asleep(s'.view.procs, x) {
      var i: nat :| i < |s'.pipes| && x in PQ.Waiters(s'.pipes[i]);
      assert PQ.EndsOk(s'.pipes[i], s'.view.procs);
    }
  }

  /** Others who sleep sleep on when the caller goes to sleep, and the caller was none of them. */
  lemma SleepBeside(v: View, q: set<nat>)
    requires PQ.CallerRuns(v) && PQ.AllAsleep(v.procs, q)
    ensures PQ.AllAsleep(ProcessBlock(v, v.cur.value).procs, q) && v.cur.value !in q
    ensures PQ.Asleep(ProcessBlock(v, v.cur.value).procs, v.cur.value)
  {
    SleepRests(v, q);
    RestedAsleep(v, ProcessBlock(v, v.cur.value), q, {});
    assert v.cur.value in q ==> PQ.Asleep(v.procs, v.cur.value);
  }

  /** Of a call in which the caller went to sleep. */
  lemma SleptSem(w: Sems.World, w': Sems.World, pipes: seq<Pipe.Pipe>, fds: seq<Pipe.Fd>, kb: set<nat>)
    requires Parts(w.sems, pipes, fds, kb, w.view) && PQ.CallerRuns(w.view) && ST.SemInv(w') && Sleepy(w')
    requires w'.view == ProcessBlock(w.view, w.view.cur.value)
    requires SemWaiting(w'.sems) <= SemWaiting(w.sems) + {w.view.cur.value}
    ensures Parts(w'.sems, pipes, fds, kb, w'.view)
  {
    SemSleepers(w');
    SleepBeside(w.view, PQ.AllWaiters(pipes) + kb);
    RestedPipes(pipes, w.view, w'.view);
  }

  lemma SleptPipe(sems: seq<Sems.Sem>, s: Pipe.Pipes, s': Pipe.Pipes, kb: set<nat>)
    requires Parts(sems, s.pipes, s.fds, kb, s.view) && PQ.CallerRuns(s.view) && PQ.Slept(s, s')
    requires Refs.RefInv(s'.pipes, s'.fds) && TerminalsOk(s'.fds)
    ensures Parts(sems, s'.pipes, s'.fds, kb, s'.view)
  {
    var q := SemWaiting(sems);
    SleepRests(s.view, q);
    assert |s'.view.procs.Keys| == |s.view.procs.Keys|;
    RestedSems(sems, s.view, s'.view, q);
    SleepBeside(s.view, q + kb);
    forall x | x in PQ.AllWaiters(s'.pipes) ensures PQ.Asleep(s'.view.procs, x) {
      var i: nat :| i < |s'.pipes| && x in PQ.Waiters(s'.pipes[i]);
      assert PQ.EndsOk(s'.pipes[i], s'.view.procs);
    }
  }

  /** The caller goes to sleep at the terminal, and takes the place of whoever waited for the keyboard. */
  lemma SleptTerminal(sems: seq<Sems.Sem>, s: Pipe.Pipes, kb: set<nat>)
    requires Parts(sems, s.pipes, s.fds, kb, s.view) && PQ.CallerRuns(s.view)
    ensures Parts(sems, s.pipes, s.fds, {s.view.cur.value}, ProcessBlock(s.view, s.view.cur.value))
  {
    var q := SemWaiting(sems) + PQ.AllWaiters(s.pipes);
    var v' := ProcessBlock(s.view, s.view.cur.value);
    SleepRests(s.view, q);
    SleepBeside(s.view, q);
    assert |v'.procs.Keys| == |s.view.procs.Keys|;
    RestedSems(sems, s.view, v', q);
    RestedPipes(s.pipes, s.view, v');
  }

  // ---------------------------------------------------------------- the terminals

  lemma IncrefTerminals(s: Pipe.Pipes, f: nat)
    requires TerminalsOk(s.fds)
    ensures TerminalsOk(Pipe.Incref(s, f).fds)
  {
  }

  lemma DecrefTerminals(s: Pipe.Pipes, f: nat)
    requires TerminalsOk(s.fds)
    ensures TerminalsOk(Pipe.Decref(s, f).fds)
  {
  }

  lemma CreateFdTerminals(s: Pipe.Pipes, i: nat, kind: Pipe.Kind)
    requires TerminalsOk(s.fds)
    ensures TerminalsOk(Pipe.CreateFd(s, i, kind).0.fds)
  {
    var f := Pipe.FreeFd(s.fds, 0);
    if f.Some? { IncrefTerminals(s.(fds := s.fds[f.value := Pipe.Fd(kind, 0, i)]), f.value); }
  }

  lemma RedirectTerminals(s: Pipe.Pipes, pid: nat, target: nat, f: int)
    requires TerminalsOk(s.fds) && pid in s.view.procs
    ensures TerminalsOk(Pipe.Redirect(s, pid, target, f).fds)
  {
    var was := Pipe.GetStd(s.view.procs[pid], target);
    if was >= 0 { DecrefTerminals(s, was); }
    var s1 := if was >= 0 then Pipe.Decref(s, was) else s;
    if f >= 0 { IncrefTerminals(Pipe.Point(s1, pid, target, f), f); }
  }

  lemma ReleaseTerminals(s: Pipe.Pipes, pid: nat)
    requires TerminalsOk(s.fds)
    ensures TerminalsOk(Pipe.ReleaseFds(s, pid).fds)
  {
    if pid in s.view.procs {
      var b := s.view.procs[pid];
      if b.stdin >= 0 { DecrefTerminals(s, b.stdin); }
      var s1 := if b.stdin >= 0 then Pipe.Decref(s, b.stdin) else s;
      if b.stdout >= 0 { DecrefTerminals(s1, b.stdout); }
    }
  }

  lemma SysPipeTerminals(s: Pipe.Pipes, name: Option<string>)
    requires TerminalsOk(s.fds)
    ensures TerminalsOk(Pipe.SysPipe(s, name).0.fds)
  {
    var (ps, i) := Pipe.PipeOpen(s.pipes, name);
    if i.Some? {
      var t := s.(pipes := ps);
      CreateFdTerminals(t, i.value, Pipe.ReadEnd);
      var (s1, r) := Pipe.CreateFd(t, i.value, Pipe.ReadEnd);
      CreateFdTerminals(s1, i.value, Pipe.WriteEnd);
      var (s2, w) := Pipe.CreateFd(s1, i.value, Pipe.WriteEnd);
      if r >= 0 && w < 0 { DecrefTerminals(s2, r); }
    }
  }

  // ---------------------------------------------------------------- the entries into the kernel

  datatype Event =
    | Timer
    | CtrlC
    | Key(wakes: bool)
    | SemCall(op: ST.Step)
    | PipeCall(io: PS.Event)
    | Creation(fg: nat, wantsArgs: bool, stack: Option<nat>, args: Option<nat>)
    | Exit(retval: int, rax: int)
    | Kill(pid: nat, rax: int)
    | Simple(call: K.Call, rax: int)

  /** A call of the running process, which is not idle. */
  predicate ByProcess(s: System) {
    Cur(s.k).Some? && Cur(s.k) != s.k.queue.idle
  }

  predicate IsSemCall(op: ST.Step) { op.Open? || op.Wait? || op.Post? || op.Close? }

  predicate IsPipeCall(io: PS.Event) { !io.Birth? && !io.Death? && !io.Others? }

  /** The calls of process.c that touch neither semaphores nor FDs. */
  predicate IsSimple(call: K.Call) { call.Block? || call.Unblock? || call.Renice? || call.WaitFor? || call.Yield? }

  /** sys_block and sys_unblock are not aimed at a process that sleeps at a semaphore or a pipe, or waits for a child or
      for the keyboard; only the parent waits for a child; idle is not killed. */
  ghost predicate Legal(s: System, e: Event) {
    match e
    case Timer => true
    case Key(_) => true
    case CtrlC => s.k.queue.idle != Some(K.Newest(Tab(s.k), s.k.nextPid))
    case SemCall(op) => ByProcess(s) && IsSemCall(op) && ST.Legal(SemWorld(s), op)
    case PipeCall(io) => ByProcess(s) && IsPipeCall(io)
    case Creation(_, _, stack, args) => ByProcess(s) && K.FreshBlocks(s.k, stack, args)
    case Exit(_, _) => ByProcess(s)
    case Kill(pid, _) => ByProcess(s) && s.k.queue.idle != Some(pid)
    case Simple(call, _) =>
      && ByProcess(s) && IsSimple(call) && K.CallLegal(s.k, call)
      && (call.Block? || call.Unblock? ==> call.pid !in Sleepers(s))
  }

  /** What the kernel does when a call's own code is done. */
  ghost function Finish(k: Kernel, r: int): Kernel
    requires K.Mid(k)
  {
    K.SaveRaxKeeps(k, r);
    K.LeaveKeeps(SaveRax(k, r));
    Leave(SaveRax(k, r))
  }

  lemma CallerFacts(s: System)
    requires Inv(s) && ByProcess(s)
    ensures PQ.CallerRuns(s.k.view) && ST.CallerRuns(SemWorld(s))
  {
    assert K.StateAt(s.k.view, Cur(s.k).value) && K.WaitOk(Tab(s.k), Cur(s.k).value);
  }

  // ---------------------------------------------------------------- semaphores

  function SemResult(w: Sems.World, op: ST.Step): int {
    match op
    case Open(name, initial) => Sems.SemOpen(w, name, initial).1
    case Wait(name) => Sems.SemWait(w, name).1
    case Post(name) => Sems.SemPost(w, name).1
    case Close(name) => Sems.SemClose(w, name).1
    case _ => 0
  }

  /** A call on a semaphore: the kernel's view of it is one of the services it allows. */
  lemma SemParts(s: System, op: ST.Step)
    requires Inv(s) && ByProcess(s) && IsSemCall(op) && ST.Legal(SemWorld(s), op)
    ensures var w' := ST.Next(SemWorld(s), op);
            && Parts(w'.sems, s.pipes, s.fds, Just(s.kbd), w'.view) && K.Soft(s.k.view, w'.view)
            && SemWaiting(w'.sems) <= SemWaiting(s.sems) + {Cur(s.k).value}
  {
    var w := SemWorld(s);
    var w' := ST.Next(w, op);
    CallerFacts(s);
    ST.StepKeeps(w, op);
    SleepyOf(s);
    SemEffect(s, op);
    if Gentle(w, w') {
      GentleParts(w, w', s.pipes, s.fds, Just(s.kbd));
      RousedIsSoft(w.view, w'.view, SemWaiting(w.sems));
    } else {
      SleptSem(w, w', s.pipes, s.fds, Just(s.kbd));
      BlockIsSoft(w.view);
    }
  }

  lemma SemEffect(s: System, op: ST.Step)
    requires Sleepy(SemWorld(s)) && PQ.CallerRuns(s.k.view) && IsSemCall(op)
    ensures var (w, w') := (SemWorld(s), ST.Next(SemWorld(s), op));
            || Gentle(w, w')
            || (w'.view == ProcessBlock(w.view, w.view.cur.value) && Sleepy(w')
                && SemWaiting(w'.sems) <= SemWaiting(w.sems) + {w.view.cur.value})
  {
    match op {
      case Open(name, initial) => OpenGentle(SemWorld(s), name, initial);
      case Wait(name) => WaitEffect(SemWorld(s), name);
      case Post(name) => PostGentle(SemWorld(s), name);
      case Close(name) => CloseGentle(SemWorld(s), name);
    }
  }

  lemma SleepyOf(s: System)
    requires Inv(s)
    ensures Sleepy(SemWorld(s))
  {
    forall x | x in SemWaiting(s.sems) ensures PQ.Sleepy(s.k.view.procs, x) { assert PQ.Asleep(s.k.view.procs, x); }
  }

  ghost function AfterSem(s: System, op: ST.Step): System
    requires Inv(s) && ByProcess(s) && IsSemCall(op) && ST.Legal(SemWorld(s), op)
  {
    SemParts(s, op);
    var w' := ST.Next(SemWorld(s), op);
    K.SoftKeeps(s.k, w'.view);
    s.(k := Finish(s.k.(view := w'.view), SemResult(SemWorld(s), op)), sems := w'.sems)
  }

  lemma SemKeeps(s: System, op: ST.Step)
    requires Inv(s) && ByProcess(s) && IsSemCall(op) && ST.Legal(SemWorld(s), op)
    ensures Inv(AfterSem(s, op))
  {
    SemParts(s, op);
    var w' := ST.Next(SemWorld(s), op);
    K.SoftKeeps(s.k, w'.view);
    ServiceRests(s, w'.view, SemResult(SemWorld(s), op), Waiting(w'.sems, s.pipes, Just(s.kbd)));
    Conclude(w'.sems, s.pipes, s.fds, s.kbd, w'.view, AfterSem(s, op).k);
  }

  lemma BuryQueue(k: Kernel, p: nat)
    requires p in Tab(k)
    ensures Bury(k, p).queue == k.queue
  {
  }

  /** Leaving the kernel after a service. */
  lemma ServiceRests(s: System, v: View, r: int, q: set<nat>)
    requires Inv(s) && ByProcess(s) && K.Soft(s.k.view, v) && K.Mid(s.k.(view := v))
    requires q <= Sleepers(s) + {Cur(s.k).value}
    ensures var k' := Finish(s.k.(view := v), r);
            && K.KernelInv(k') && Rested(v, k'.view, q, {}) && k'.queue.idle == s.k.queue.idle
            && (k'.queue.idle.Some? ==> k'.queue.idle.value !in q)
  {
    var k1 := s.k.(view := v);
    EndRests(k1, r, q);
    K.SaveRaxKeeps(k1, r);
    Runs.LeaveIdle(SaveRax(k1, r));
    assert K.SoftAt(s.k.view, v, Cur(s.k).value) && K.StateAt(s.k.view, Cur(s.k).value);
  }

  // ---------------------------------------------------------------- pipes and FDs

  lemma PipeEffect(s: Pipe.Pipes, io: PS.Event)
    requires PS.PipeInv(s) && TerminalsOk(s.fds) && IsPipeCall(io) && PQ.CallerRuns(s.view)
    ensures var s' := PS.Next(s, io); TerminalsOk(s'.fds) && (PQ.Calm(s, s') || PQ.Slept(s, s'))
  {
    PQ.CalmSelf(s);
    match io {
      case Open(name) =>
        PQ.SysPipeCalm(s, name);
        SysPipeTerminals(s, name);
      case Dup(oldFd, newFd) =>
        if Pipe.Dup2(s, oldFd, newFd).0 != s {
          PQ.RedirectCalm(s, s.view.cur.value, newFd, oldFd);
          RedirectTerminals(s, s.view.cur.value, newFd, oldFd);
        }
      case Close(f) =>
        PQ.DecrefCalm(s, f);
        DecrefTerminals(s, f);
      case SetUp(pid, f, target) =>
        if pid in s.view.procs {
          PQ.RedirectCalm(s, pid, target, f);
          RedirectTerminals(s, pid, target, f);
        }
      case Read(n, count, typed) => PQ.ReadQueues(s, n, count, typed);
      case Write(n, data) => PQ.WriteQueues(s, n, data);
    }
  }

  /** What the call returns, as far as the model goes. */
  function PipeResult(s: Pipe.Pipes, io: PS.Event): int {
    match io
    case Open(name) => if Pipe.SysPipe(s, name).1.Some? then 0 else Pipe.ERROR
    case Dup(oldFd, newFd) => Pipe.Dup2(s, oldFd, newFd).1
    case Read(n, count, typed) => Pipe.SysRead(s, n, count, typed).1
    case Write(n, data) => Pipe.SysWrite(s, n, data).1
    case _ => 0
  }

  /** A read from the terminal that finds nothing there puts its caller to sleep. */
  predicate SleepsAtTerminal(s: Pipe.Pipes, io: PS.Event) {
    io.Read? && io.count > 0 && io.typed.None? && PS.ReadFrom(s, io.n).None?
    && var f := Pipe.Real(s, io.n, Pipe.FD_STDIN);
       f.Some? && Pipe.IsTerminal(s, f.value) && s.view.procs[s.view.cur.value].foreground != 0
  }

  /** Who waits for the keyboard after the call. */
  function Listener(s: System, io: PS.Event): Option<nat> {
    if SleepsAtTerminal(PipeWorld(s), io) then Cur(s.k) else s.kbd
  }

  lemma TerminalRead(s: Pipe.Pipes, io: PS.Event)
    requires SleepsAtTerminal(s, io) && PQ.CallerRuns(s.view)
    ensures PS.Next(s, io) == s.(view := ProcessBlock(s.view, s.view.cur.value))
  {
  }

  lemma PipeParts(s: System, io: PS.Event)
    requires Inv(s) && ByProcess(s) && IsPipeCall(io)
    ensures var s' := PS.Next(PipeWorld(s), io);
            && Parts(s.sems, s'.pipes, s'.fds, Just(Listener(s, io)), s'.view) && K.Soft(s.k.view, s'.view)
            && PQ.AllWaiters(s'.pipes) <= PQ.AllWaiters(s.pipes) + {Cur(s.k).value}
  {
    var p := PipeWorld(s);
    var p' := PS.Next(p, io);
    CallerFacts(s);
    PipeEffect(p, io);
    PS.RefsStep(p, io);
    if SleepsAtTerminal(p, io) {
      TerminalRead(p, io);
      SleptTerminal(s.sems, p, Just(s.kbd));
      BlockIsSoft(p.view);
    } else if PQ.Calm(p, p') {
      CalmParts(s.sems, p, p', Just(s.kbd));
      WakesRouse(p.view, p'.view, PQ.AllWaiters(p.pipes));
      RousedIsSoft(p.view, p'.view, PQ.AllWaiters(p.pipes));
    } else {
      SleptPipe(s.sems, p, p', Just(s.kbd));
      BlockIsSoft(p.view);
    }
  }

  ghost function AfterPipe(s: System, io: PS.Event): System
    requires Inv(s) && ByProcess(s) && IsPipeCall(io)
  {
    PipeParts(s, io);
    var p' := PS.Next(PipeWorld(s), io);
    K.SoftKeeps(s.k, p'.view);
    System(Finish(s.k.(view := p'.view), PipeResult(PipeWorld(s), io)), s.sems, p'.pipes, p'.fds, Listener(s, io))
  }

  lemma PipeKeeps(s: System, io: PS.Event)
    requires Inv(s) && ByProcess(s) && IsPipeCall(io)
    ensures Inv(AfterPipe(s, io))
  {
    PipeParts(s, io);
    var p' := PS.Next(PipeWorld(s), io);
    K.SoftKeeps(s.k, p'.view);
    ServiceRests(s, p'.view, PipeResult(PipeWorld(s), io), Waiting(s.sems, p'.pipes, Just(Listener(s, io))));
    Conclude(s.sems, p'.pipes, p'.fds, Listener(s, io), p'.view, AfterPipe(s, io).k);
  }

  // ---------------------------------------------------------------- the keyboard

  /** A key that completes some input makes the process that waits for it ready. */
  function Woken(s: System): View {
    if s.kbd.Some? && s.kbd.value in s.k.view.procs then
      s.k.view.(procs := s.k.view.procs[s.kbd.value := s.k.view.procs[s.kbd.value].(state := State.Ready)])
    else s.k.view
  }

  lemma WokenParts(s: System)
    requires Inv(s)
    ensures Parts(s.sems, s.pipes, s.fds, {}, Woken(s)) && K.Soft(s.k.view, Woken(s))
    ensures Woken(s).force == s.k.view.force
  {
    var (v, v') := (s.k.view, Woken(s));
    var q := SemWaiting(s.sems) + PQ.AllWaiters(s.pipes);
    assert forall x :: x in Just(s.kbd) ==> PQ.Asleep(v.procs, x);
    if s.kbd.Some? {
      assert PQ.Asleep(v.procs, s.kbd.value);
      OneRests(v, s.kbd.value, v'.procs[s.kbd.value], q, v.cur, v.force);
    } else {
      SameRests(v, v', q);
    }
    assert |v'.procs.Keys| == |v.procs.Keys|;
    RestedSems(s.sems, v, v', q);
    RestedAsleep(v, v', q, {});
    RestedPipes(s.pipes, v, v');
    forall p | p in v.procs && p in v'.procs ensures K.SoftAt(v, v', p) { }
    if v'.cur.Some? && v'.cur.value in v'.procs { assert K.StateAt(v, v'.cur.value); }
  }

  ghost function AfterKey(s: System, wakes: bool): System
    requires Inv(s)
  {
    if wakes then
      WokenParts(s);
      K.SoftKeeps(s.k, Woken(s));
      K.LeaveKeeps(s.k.(view := Woken(s)));
      s.(k := Leave(s.k.(view := Woken(s))), kbd := None)
    else s
  }

  /** The process that waits for the keyboard is ready afterwards, whoever runs goes on, and nobody else notices. */
  lemma KeyKeeps(s: System, wakes: bool)
    requires Inv(s)
    ensures Inv(AfterKey(s, wakes))
    ensures wakes ==>
            var k' := AfterKey(s, wakes).k;
            && AfterKey(s, wakes).kbd == None && k'.queue == s.k.queue && Tab(k').Keys == Tab(s.k).Keys
            && Cur(k') == Cur(s.k)
            && (s.kbd.Some? ==> s.kbd.value in Tab(k') && Run.IsReady(Tab(k')[s.kbd.value]))
            && forall p :: p in Tab(s.k) && s.kbd != Some(p) ==> Tab(k')[p] == Tab(s.k)[p]
  {
    if wakes {
      WokenParts(s);
      var k := s.k.(view := Woken(s));
      K.SoftKeeps(s.k, Woken(s));
      K.LeaveKeeps(k);
      SameRests(k.view, k.view, Waiting(s.sems, s.pipes, {}));
      Conclude(s.sems, s.pipes, s.fds, None, k.view, k);
      assert s.kbd.Some? ==> PQ.Asleep(Tab(s.k), s.kbd.value);
    }
  }

  // ---------------------------------------------------------------- process.c without deaths

  /** process_create takes references to both terminals. */
  function Born(s: System): Pipe.Pipes { Pipe.Incref(Pipe.Incref(PipeWorld(s), Pipe.FD_STDIN), Pipe.FD_STDOUT) }

  lemma BornIs(s: System)
    requires Inv(s)
    ensures Born(s).pipes == s.pipes && Born(s).view == s.k.view && TerminalsOk(Born(s).fds)
    ensures Refs.RefInv(s.pipes, Born(s).fds)
  {
    var p := PipeWorld(s);
    Refs.IncrefRefs(p, Pipe.FD_STDIN);
    IncrefTerminals(p, Pipe.FD_STDIN);
    var p1 := Pipe.Incref(p, Pipe.FD_STDIN);
    Refs.IncrefRefs(p1, Pipe.FD_STDOUT);
    IncrefTerminals(p1, Pipe.FD_STDOUT);
    assert p1.fds[Pipe.FD_STDOUT].kind == Pipe.Terminal;
  }

  lemma CreateRests(k: Kernel, fg: nat, wantsArgs: bool, stack: Option<nat>, args: Option<nat>, q: set<nat>)
    requires K.KernelInv(k) && K.FreshBlocks(k, stack, args)
    ensures var k' := Create(k, fg, wantsArgs, stack, args).0;
            Rested(k.view, k'.view, q, {}) && k'.queue.idle == k.queue.idle && Cur(k') == Cur(k) && !CurIs(k', Zombie)
  {
    K.OneRuns(k);
    if Create(k, fg, wantsArgs, stack, args).1 == -1 {
      K.CreateFails(k, fg, wantsArgs, stack, args);
      SameRests(k.view, k.view, q);
    } else {
      K.CreateIs(k, fg, wantsArgs, stack, args);
      var pid := k.nextPid + 1;
      assert pid in Tab(k) ==> K.PcbOk(Tab(k)[pid], pid, k.nextPid);
      var v' := Create(k, fg, wantsArgs, stack, args).0.view;
      NewRests(k.view, pid, v'.procs[pid], q);
    }
  }

  /** A newcomer disturbs nobody. */
  lemma NewRests(v: View, p: nat, b: Pcb, q: set<nat>)
    requires p !in v.procs && b.heldSems == {} && b.openedSems == {}
    ensures Rested(v, v.(procs := v.procs[p := b]), q, {})
  {
    var v' := v.(procs := v.procs[p := b]);
    forall x | x in v.procs && x in v'.procs ensures RestedAt(v, v', q, x) { }
    forall x | x in v'.procs ensures NewAt(v, v', x) { }
  }

  ghost function AfterCreate(s: System, fg: nat, wantsArgs: bool, stack: Option<nat>, args: Option<nat>): System
    requires Inv(s) && K.FreshBlocks(s.k, stack, args)
  {
    K.CreateKeeps(s.k, fg, wantsArgs, stack, args);
    var (k1, r) := Create(s.k, fg, wantsArgs, stack, args);
    s.(k := Finish(k1, r), fds := if r == -1 then s.fds else Born(s).fds)
  }

  /** The end of a call that left its caller alive. */
  lemma FinishRests(k: Kernel, r: int, q: set<nat>)
    requires K.Mid(k) && !CurIs(k, Zombie) && (k.queue.idle.Some? ==> k.queue.idle.value !in q)
    ensures K.KernelInv(Finish(k, r)) && Rested(k.view, Finish(k, r).view, q, {})
    ensures Finish(k, r).queue.idle == k.queue.idle
  {
    EndRests(k, r, q);
    K.SaveRaxKeeps(k, r);
    Runs.LeaveIdle(SaveRax(k, r));
  }

  lemma CreateKeeps(s: System, fg: nat, wantsArgs: bool, stack: Option<nat>, args: Option<nat>)
    requires Inv(s) && K.FreshBlocks(s.k, stack, args)
    ensures Inv(AfterCreate(s, fg, wantsArgs, stack, args))
  {
    var q := Sleepers(s);
    K.CreateKeeps(s.k, fg, wantsArgs, stack, args);
    var (k1, r) := Create(s.k, fg, wantsArgs, stack, args);
    CreateRests(s.k, fg, wantsArgs, stack, args, q);
    FinishRests(k1, r, q);
    RestedTrans(s.k.view, k1.view, Finish(k1, r).view, q, {});
    BornIs(s);
    Conclude(s.sems, s.pipes, if r == -1 then s.fds else Born(s).fds, s.kbd, s.k.view, Finish(k1, r));
  }

  /** The calls that only change the state of processes leave sleepers alone. */
  lemma SimpleRests(s: System, call: K.Call, rax: int, q: set<nat>)
    requires Inv(s) && Legal(s, Simple(call, rax)) && (call.Block? || call.Unblock? ==> call.pid !in q)
    ensures var k' := K.Called(s.k, call, rax).0;
            Rested(s.k.view, k'.view, q, {}) && k'.queue.idle == s.k.queue.idle && !CurIs(k', Zombie)
              && Cur(k') == Cur(s.k)
  {
    var k := s.k;
    K.OneRuns(k);
    CallerFacts(s);
    SameRests(k.view, k.view, q);
    match call {
      case Block(pid) => SimpleState(k.view, pid, q);
      case Unblock(pid) => SimpleState(k.view, pid, q);
      case Renice(pid, priority) =>
        if pid in Tab(k) {
          var n := Clamp(priority % 256);
          OneRests(k.view, pid, Tab(k)[pid].(priority := n, waitTicks := 0, quanta := n), q, k.view.cur, k.view.force);
        }
      case WaitFor(pid) => K.WaitPidKeeps(k, pid);
        if pid in Tab(k) {
          OneRests(k.view, Cur(k).value, Tab(k)[Cur(k).value].(state := Blocked, waitingFor := pid), q, k.view.cur,
                   true);
        }
      case Yield => OneRests(k.view, Cur(k).value, Tab(k)[Cur(k).value].(state := State.Ready), q, k.view.cur, true);
    }
  }

  /** Blocking or unblocking a process that is no sleeper. */
  lemma SimpleState(v: View, pid: nat, q: set<nat>)
    requires pid !in q
    ensures Rested(v, ProcessBlock(v, pid), q, {}) && Rested(v, ProcessUnblock(v, pid), q, {})
  {
    SameRests(v, v, q);
    if pid in v.procs {
      var b := ProcessBlock(v, pid);
      var u := ProcessUnblock(v, pid);
      OneRests(v, pid, b.procs[pid], q, b.cur, b.force);
      OneRests(v, pid, u.procs[pid], q, u.cur, u.force);
      assert v.procs[pid := v.procs[pid]] == v.procs;
    }
  }

  ghost function AfterSimple(s: System, call: K.Call, rax: int): System
    requires Inv(s) && Legal(s, Simple(call, rax))
  {
    K.CallKeeps(s.k, call, rax);
    var (k1, r) := K.Called(s.k, call, rax);
    s.(k := Finish(k1, r))
  }

  lemma SimpleKeeps(s: System, call: K.Call, rax: int)
    requires Inv(s) && Legal(s, Simple(call, rax))
    ensures Inv(AfterSimple(s, call, rax))
  {
    var q := Sleepers(s);
    K.CallKeeps(s.k, call, rax);
    var (k1, r) := K.Called(s.k, call, rax);
    SimpleRests(s, call, rax, q);
    FinishRests(k1, r, q);
    RestedTrans(s.k.view, k1.view, Finish(k1, r).view, q, {});
    Conclude(s.sems, s.pipes, s.fds, s.kbd, s.k.view, Finish(k1, r));
  }

  lemma TickKeeps(s: System)
    requires Inv(s)
    ensures Shape(s.k) && Inv(s.(k := Tick(s.k)))
  {
    TickRests(s.k, Sleepers(s));
    K.TickKeeps(s.k);
    Runs.TickIdle(s.k);
    Conclude(s.sems, s.pipes, s.fds, s.kbd, s.k.view, Tick(s.k));
  }

  // ---------------------------------------------------------------- death

  /** Inside the kernel too, resting changes keep the others' invariants. */
  lemma RestedParts(sems: seq<Sems.Sem>, pipes: seq<Pipe.Pipe>, fds: seq<Pipe.Fd>, kb: set<nat>, v: View, v': View)
    requires Parts(sems, pipes, fds, kb, v) && Rested(v, v', Waiting(sems, pipes, kb), {})
    requires |v'.procs| <= MAX_PROCESSES
    ensures Parts(sems, pipes, fds, kb, v')
  {
    var q := Waiting(sems, pipes, kb);
    RestedSems(sems, v, v', q);
    RestedAsleep(v, v', q, {});
    RestedPipes(pipes, v, v');
  }

  /** kbd_clear_waiting. */
  function Cleared(kbd: Option<nat>, pid: nat): Option<nat> { if kbd == Some(pid) then None else kbd }

  /** After its cleaning up a process has no part in any semaphore. */
  lemma CleanupInv(w: Sems.World, pid: nat)
    requires ST.SemInv(w) && pid in w.view.procs
    ensures ST.SemInv(Sems.SemCleanup(w, pid))
    ensures forall i :: 0 <= i < |w.sems| ==> ST.GoneFrom(Sems.SemCleanup(w, pid), pid, i)
  {
    ST.CleanupKeeps(w, pid, 0);
    var c := Sems.CleanupFrom(w, pid, 0);
    var c' := Sems.SemCleanup(w, pid);
    var b := c.view.procs[pid].(heldSems := {}, openedSems := {});
    assert c' == c.(view := c.view.(procs := c.view.procs[pid := b]));
    forall i: nat | i < |c.sems| ensures ST.SemOk(c'.sems[i], c'.view.procs, i) {
      assert ST.GoneFrom(c, pid, i) && ST.SemOk(c.sems[i], c.view.procs, i);
      ST.SemFrame(c.sems[i], c.view.procs, pid, b, i);
    }
    assert |c'.view.procs.Keys| == |w.view.procs.Keys|;
    forall i | 0 <= i < |w.sems| ensures ST.GoneFrom(c', pid, i) { assert ST.GoneFrom(c, pid, i); }
  }

  /** sem_cleanup_for_process and pipe_cleanup_for_process. */
  function SemsCleaned(s: System, v: View, pid: nat): Sems.World { Sems.SemCleanup(Sems.World(s.sems, v), pid) }

  function PipesCleaned(s: System, v: View, pid: nat): Pipe.Pipes {
    Pipe.PipeCleanup(Pipe.Pipes(s.pipes, s.fds, SemsCleaned(s, v, pid).view), pid)
  }

  /** The process has no part in semaphores and pipes. */
  ghost predicate OutOf(sems: seq<Sems.Sem>, pipes: seq<Pipe.Pipe>, v: View, pid: nat) {
    pid in v.procs && pid !in PQ.AllWaiters(pipes) && forall i :: 0 <= i < |sems| ==>
      ST.GoneFrom(Sems.World(sems, v), pid, i)
  }

  lemma CleanedParts(s: System, v: View, pid: nat)
    requires Parts(s.sems, s.pipes, s.fds, Just(s.kbd), v) && pid in v.procs
    ensures var (w, p) := (SemsCleaned(s, v, pid), PipesCleaned(s, v, pid));
            && p.view == w.view && Parts(w.sems, p.pipes, p.fds, Just(Cleared(s.kbd, pid)), w.view)
            && OutOf(w.sems, p.pipes, w.view, pid) && Roused(v, w.view, SemWaiting(s.sems))
            && SemWaiting(w.sems) <= SemWaiting(s.sems) && PQ.AllWaiters(p.pipes) <= PQ.AllWaiters(s.pipes)
  {
    var w0 := Sems.World(s.sems, v);
    var w := SemsCleaned(s, v, pid);
    CleanupInv(w0, pid);
    SleepyAt(s.sems, s.pipes, Just(s.kbd), v);
    SemCleanupGentle(w0, pid);
    GentleParts(w0, w, s.pipes, s.fds, Just(Cleared(s.kbd, pid)));
    var p0 := Pipe.Pipes(s.pipes, s.fds, w.view);
    PS.UnusedEmpty(p0);
    PQ.CleanupCalm(p0, pid);
    Refs.CleanupRefs(p0, pid);
    CalmParts(w.sems, p0, PipesCleaned(s, v, pid), Just(Cleared(s.kbd, pid)));
  }

  lemma SleepyAt(sems: seq<Sems.Sem>, pipes: seq<Pipe.Pipe>, kb: set<nat>, v: View)
    requires PQ.AllAsleep(v.procs, Waiting(sems, pipes, kb))
    ensures Sleepy(Sems.World(sems, v))
  {
    forall x | x in SemWaiting(sems) ensures PQ.Sleepy(v.procs, x) { assert PQ.Asleep(v.procs, x); }
  }

  /** process_release_fds, in the whole. */
  lemma ReleasedParts(sems: seq<Sems.Sem>, p: Pipe.Pipes, kb: set<nat>, pid: nat)
    requires Parts(sems, p.pipes, p.fds, kb, p.view) && OutOf(sems, p.pipes, p.view, pid)
    ensures var p' := Pipe.ReleaseFds(p, pid);
            && Parts(sems, p'.pipes, p'.fds, kb, p'.view) && OutOf(sems, p'.pipes, p'.view, pid)
            && Roused(p.view, p'.view, PQ.AllWaiters(p.pipes))
            && PQ.AllWaiters(p'.pipes) <= PQ.AllWaiters(p.pipes)
  {
    var p' := Pipe.ReleaseFds(p, pid);
    PQ.ReleaseCalm(p, pid);
    Refs.ReleaseRefs(p, pid);
    ReleaseTerminals(p, pid);
    CalmParts(sems, p, p', kb);
    WakesRouse(p.view, p'.view, PQ.AllWaiters(p.pipes));
    assert PQ.WakesAt(p.view, p'.view, PQ.AllWaiters(p.pipes), pid);
    forall i | 0 <= i < |sems|
      ensures ST.GoneFrom(Sems.World(sems, p'.view), pid, i)
    {
      assert ST.GoneFrom(Sems.World(sems, p.view), pid, i);
    }
  }

  lemma OutOfRested(sems: seq<Sems.Sem>, pipes: seq<Pipe.Pipe>, v: View, v': View, q: set<nat>, pid: nat)
    requires OutOf(sems, pipes, v, pid) && Rested(v, v', q, {})
    ensures OutOf(sems, pipes, v', pid)
  {
    assert RestedAt(v, v', q, pid);
    forall i | 0 <= i < |sems|
      ensures ST.GoneFrom(Sems.World(sems, v'), pid, i)
    {
      assert ST.GoneFrom(Sems.World(sems, v), pid, i);
    }
  }

  /** A parent woken from waitpid is no sleeper, nor is the victim. */
  lemma WakeRests(k: Kernel, p: nat, r: int, q: set<nat>)
    requires p in Tab(k) && p != 0
    ensures Rested(k.view, WakeParent(k, p, r).view, q, {}) && p in Tab(WakeParent(k, p, r))
    ensures WakeParent(k, p, r).queue == k.queue
  {
    SameRests(k.view, k.view, q);
    var x := Tab(k)[p].parent;
    if x in Tab(k) && Tab(k)[x].state == Blocked && Tab(k)[x].waitingFor == p {
      OneRests(k.view, x, Tab(k)[x].(savedRax := r, waitingFor := 0, state := State.Ready, waitTicks := 0), q,
               k.view.cur, k.view.force);
    }
  }

  lemma ZombieRests(k: Kernel, p: nat, q: set<nat>, force: bool)
    requires p in Tab(k) && p !in q
    ensures Rested(k.view, View(Tab(k)[p := Tab(k)[p].(state := Zombie)], k.view.cur, force), q, {})
  {
    OneRests(k.view, p, Tab(k)[p].(state := Zombie), q, k.view.cur, force);
  }

  // ---------------------------------------------------------------- exit

  ghost function ExitCleaned(s: System, retval: int): Pipe.Pipes
    requires Inv(s) && ByProcess(s)
  {
    Pipe.ReleaseFds(PipesCleaned(s, SetRetval(s.k, Cur(s.k).value, retval).view, Cur(s.k).value), Cur(s.k).value)
  }

  lemma ExitParts(s: System, retval: int)
    requires Inv(s) && ByProcess(s)
    ensures var c := Cur(s.k).value;
            var k0 := SetRetval(s.k, c, retval);
            var w := SemsCleaned(s, k0.view, c);
            var p := ExitCleaned(s, retval);
            && K.Mid(k0) && K.Soft(k0.view, p.view) && Parts(w.sems, p.pipes, p.fds, Just(Cleared(s.kbd, c)), p.view)
            && OutOf(w.sems, p.pipes, p.view, c)
            && SemWaiting(w.sems) <= SemWaiting(s.sems) && PQ.AllWaiters(p.pipes) <= PQ.AllWaiters(s.pipes)
            && Roused(k0.view, p.view, Queued(s))
  {
    var c := Cur(s.k).value;
    var k0 := SetRetval(s.k, c, retval);
    CallerFacts(s);
    K.SetRetvalKeeps(s.k, c, retval);
    OneRests(s.k.view, c, Tab(s.k)[c].(retval := retval), Sleepers(s), s.k.view.cur, s.k.view.force);
    RestedParts(s.sems, s.pipes, s.fds, Just(s.kbd), s.k.view, k0.view);
    CleanedParts(s, k0.view, c);
    ReleasedParts(SemsCleaned(s, k0.view, c).sems, PipesCleaned(s, k0.view, c), Just(Cleared(s.kbd, c)), c);
    var (w, p) := (SemsCleaned(s, k0.view, c), PipesCleaned(s, k0.view, c));
    RousedTrans(k0.view, w.view, ExitCleaned(s, retval).view, SemWaiting(s.sems), PQ.AllWaiters(p.pipes), Queued(s));
    RousedIsSoft(k0.view, ExitCleaned(s, retval).view, Queued(s));
  }

  ghost function AfterExit(s: System, retval: int, rax: int): System
    requires Inv(s) && ByProcess(s)
  {
    ExitParts(s, retval);
    var c := Cur(s.k).value;
    var k0 := SetRetval(s.k, c, retval);
    var p := ExitCleaned(s, retval);
    K.CallKeeps(s.k, K.Exit(retval, p.view), rax);
    System(Finish(ExitEnd(s.k.(view := p.view), retval), rax), SemsCleaned(s, k0.view, c).sems, p.pipes, p.fds,
           Cleared(s.kbd, c))
  }

  lemma ExitEndRests(k: Kernel, c: nat, retval: int, q: set<nat>)
    requires Cur(k) == Some(c) && c in Tab(k) && c != 0 && c !in q
    ensures var k1 := ExitEnd(k, retval);
            Rested(k.view, k1.view, q, {}) && CurIs(k1, Zombie) && Cur(k1) == Some(c) && k1.queue == k.queue
  {
    WakeRests(k, c, retval, q);
    var k1 := WakeParent(k, c, retval);
    ZombieRests(k1, c, q, true);
    RestedTrans(k.view, k1.view, ExitEnd(k, retval).view, q, {});
  }

  /** The end of a call in which the caller died. */
  lemma FinishDead(k: Kernel, r: int, q: set<nat>)
    requires K.Mid(k) && CurIs(k, Zombie) && (k.queue.idle.Some? ==> k.queue.idle.value !in q)
    ensures var k' := Finish(k, r);
            K.KernelInv(k') && Rested(k.view, k'.view, q, {Cur(k).value}) && k'.queue.idle == k.queue.idle
              && Cur(k).value !in Tab(k')
  {
    EndRests(k, r, q);
    K.SaveRaxKeeps(k, r);
    Runs.LeaveIdle(SaveRax(k, r));
    Runs.ZombieLeaves(SaveRax(k, r));
  }

  lemma ExitKeeps(s: System, retval: int, rax: int)
    requires Inv(s) && ByProcess(s)
    ensures Inv(AfterExit(s, retval, rax))
  {
    ExitParts(s, retval);
    var c := Cur(s.k).value;
    var w := SemsCleaned(s, SetRetval(s.k, c, retval).view, c);
    var p := ExitCleaned(s, retval);
    var kb := Just(Cleared(s.kbd, c));
    var q := Waiting(w.sems, p.pipes, kb);
    K.CallKeeps(s.k, K.Exit(retval, p.view), rax);
    var k := s.k.(view := p.view);
    var k1 := ExitEnd(k, retval);
    assert K.PcbOk(Tab(s.k)[c], c, s.k.nextPid);
    OutOfSleepers(w.sems, p.pipes, p.view, c);
    ExitEndRests(k, c, retval, q);
    OutOfRested(w.sems, p.pipes, p.view, k1.view, q, c);
    assert |k1.view.procs| <= MAX_PROCESSES;
    RestedParts(w.sems, p.pipes, p.fds, kb, p.view, k1.view);
    FinishDead(k1, rax, q);
    ConcludeGone(w.sems, p.pipes, p.fds, Cleared(s.kbd, c), k1.view, Finish(k1, rax), c);
  }

  lemma OutOfSleepers(sems: seq<Sems.Sem>, pipes: seq<Pipe.Pipe>, v: View, pid: nat)
    requires OutOf(sems, pipes, v, pid)
    ensures pid !in SemWaiting(sems) + PQ.AllWaiters(pipes)
  {
    forall i | 0 <= i < |sems| ensures pid !in sems[i].queue { assert ST.GoneFrom(Sems.World(sems, v), pid, i); }
  }

  // ---------------------------------------------------------------- kill

  /** The view in the middle of process_kill, and the tables at its end. */
  ghost function KillView(s: System, pid: nat): View
    requires pid in Tab(s.k)
  {
    SemsCleaned(s, SetRetval(s.k, pid, -1).view, pid).view
  }

  ghost function KillReleased(s: System, pid: nat): Pipe.Pipes
    requires pid in Tab(s.k) && pid in KillView(s, pid).procs
  {
    var p := PipesCleaned(s, SetRetval(s.k, pid, -1).view, pid);
    Pipe.ReleaseFds(p.(view := KillMiddle(s.k.(view := KillView(s, pid)), pid).view), pid)
  }

  lemma KillMiddleRests(k: Kernel, p: nat, q: set<nat>)
    requires p in Tab(k) && p != 0 && p !in q
    ensures Rested(k.view, KillMiddle(k, p).view, q, {})
  {
    WakeRests(k, p, -1, q);
    var k1 := WakeParent(k, p, -1);
    ZombieRests(k1, p, q, k1.view.force);
    RestedTrans(k.view, k1.view, View(Tab(k1)[p := Tab(k1)[p].(state := Zombie)], k1.view.cur, k1.view.force), q, {});
  }

  lemma KillParts(s: System, pid: nat)
    requires Inv(s) && pid in Tab(s.k) && s.k.queue.idle != Some(pid)
    ensures pid in KillView(s, pid).procs
    ensures var k0 := SetRetval(s.k, pid, -1);
            var w := SemsCleaned(s, k0.view, pid);
            var p := KillReleased(s, pid);
            && K.KillLegal(s.k, pid, KillView(s, pid), p.view) && p.view.cur == s.k.view.cur
            && Parts(w.sems, p.pipes, p.fds, Just(Cleared(s.kbd, pid)), p.view) && OutOf(w.sems, p.pipes, p.view, pid)
            && SemWaiting(w.sems) <= SemWaiting(s.sems) && PQ.AllWaiters(p.pipes) <= PQ.AllWaiters(s.pipes)
  {
    var k0 := SetRetval(s.k, pid, -1);
    var (v0, v1) := (k0.view, KillView(s, pid));
    assert K.PcbOk(Tab(s.k)[pid], pid, s.k.nextPid);
    K.SetRetvalKeeps(s.k, pid, -1);
    OneRests(s.k.view, pid, Tab(s.k)[pid].(retval := -1), Sleepers(s), s.k.view.cur, s.k.view.force);
    RestedParts(s.sems, s.pipes, s.fds, Just(s.kbd), s.k.view, v0);
    CleanedParts(s, v0, pid);
    RousedIsSoft(v0, v1, SemWaiting(s.sems));
    KillRest(s, pid);
    assert KillMiddle(s.k.(view := v1), pid).view.cur == v1.cur;
  }

  ghost predicate CleanedFor(s: System, pid: nat)
    requires pid in Tab(s.k)
  {
    var w := SemsCleaned(s, SetRetval(s.k, pid, -1).view, pid);
    var p := PipesCleaned(s, SetRetval(s.k, pid, -1).view, pid);
    Parts(w.sems, p.pipes, p.fds, Just(Cleared(s.kbd, pid)), w.view) && OutOf(w.sems, p.pipes, w.view, pid)
  }

  lemma KillRest(s: System, pid: nat)
    requires pid in Tab(s.k) && pid != 0
    requires CleanedFor(s, pid)
    ensures pid in KillView(s, pid).procs
    ensures var w := SemsCleaned(s, SetRetval(s.k, pid, -1).view, pid);
            var p1 := PipesCleaned(s, SetRetval(s.k, pid, -1).view, pid);
            var p := KillReleased(s, pid);
            && K.Soft(KillMiddle(s.k.(view := KillView(s, pid)), pid).view, p.view)
            && Parts(w.sems, p.pipes, p.fds, Just(Cleared(s.kbd, pid)), p.view) && OutOf(w.sems, p.pipes, p.view, pid)
            && PQ.AllWaiters(p.pipes) <= PQ.AllWaiters(p1.pipes)
            && Roused(KillMiddle(s.k.(view := KillView(s, pid)), pid).view, p.view, PQ.AllWaiters(p1.pipes))
  {
    var w := SemsCleaned(s, SetRetval(s.k, pid, -1).view, pid);
    var p1 := PipesCleaned(s, SetRetval(s.k, pid, -1).view, pid);
    var kb := Just(Cleared(s.kbd, pid));
    var q := Waiting(w.sems, p1.pipes, kb);
    var k1 := s.k.(view := w.view);
    var v2 := KillMiddle(k1, pid).view;
    OutOfSleepers(w.sems, p1.pipes, w.view, pid);
    KillMiddleRests(k1, pid, q);
    KillMiddleSize(k1, pid);
    RestedParts(w.sems, p1.pipes, p1.fds, kb, w.view, v2);
    OutOfRested(w.sems, p1.pipes, w.view, v2, q, pid);
    ReleasedParts(w.sems, p1.(view := v2), kb, pid);
    RousedIsSoft(v2, KillReleased(s, pid).view, PQ.AllWaiters(p1.pipes));
  }

  lemma KillMiddleSize(k: Kernel, p: nat)
    requires p in Tab(k)
    ensures |KillMiddle(k, p).view.procs| == |Tab(k)|
  {
    assert KillMiddle(k, p).view.procs.Keys == Tab(k).Keys;
    assert |KillMiddle(k, p).view.procs.Keys| == |Tab(k).Keys|;
  }

  /** The system inside the kernel after process_kill. */
  ghost function Killed(s: System, pid: nat): System
    requires Inv(s) && s.k.queue.idle != Some(pid)
  {
    if pid in Tab(s.k) then
      KillParts(s, pid);
      var p := KillReleased(s, pid);
      System(K.Killed(s.k, pid, KillView(s, pid), p.view), SemsCleaned(s, SetRetval(s.k, pid, -1).view, pid).sems,
             p.pipes, p.fds, Cleared(s.kbd, pid))
    else s
  }

  lemma KilledMid(s: System, pid: nat)
    requires Inv(s) && s.k.queue.idle != Some(pid)
    ensures K.Mid(Killed(s, pid).k)
  {
    if pid in Tab(s.k) {
      KillParts(s, pid);
      K.KilledKeeps(s.k, pid, KillView(s, pid), KillReleased(s, pid).view);
    }
  }

  /** The way out, of a system call with its result, or of the keyboard's interrupt. */
  ghost function Depart(k: Kernel, rax: Option<int>): Kernel
    requires K.Mid(k)
  {
    K.LeaveKeeps(k);
    if rax.Some? then Finish(k, rax.value) else Leave(k)
  }

  lemma DepartRests(k: Kernel, rax: Option<int>, q: set<nat>)
    requires K.Mid(k) && (k.queue.idle.Some? ==> k.queue.idle.value !in q)
    ensures var k' := Depart(k, rax);
            && K.KernelInv(k') && k'.queue.idle == k.queue.idle
            && Rested(k.view, k'.view, q, if CurIs(k, Zombie) then {Cur(k).value} else {})
            && (CurIs(k, Zombie) ==> Cur(k).value !in Tab(k')) && forall p :: p !in Tab(k) ==> p !in Tab(k')
  {
    K.LeaveKeeps(k);
    if rax.Some? {
      EndRests(k, rax.value, q);
      K.SaveRaxKeeps(k, rax.value);
      Runs.LeaveIdle(SaveRax(k, rax.value));
      if CurIs(k, Zombie) { FinishDead(k, rax.value, q); }
      forall p | p !in Tab(k) ensures p !in Tab(Depart(k, rax)) { Runs.KeysShrink(SaveRax(k, rax.value), p); }
    } else {
      LeaveRests(k, q);
      Runs.LeaveIdle(k);
      if CurIs(k, Zombie) { Runs.ZombieLeaves(k); }
      forall p | p !in Tab(k) ensures p !in Tab(Depart(k, rax)) { Runs.KeysShrink(k, p); }
    }
  }

  lemma RestedAfterGone(v: View, v1: View, v2: View, q: set<nat>, c: nat)
    requires v1.procs == v.procs - {c} && c !in v2.procs && Rested(v1, v2, q, {}) && c in v.procs
    ensures Rested(v, v2, q, {c})
  {
    forall p | p in v.procs && p in v2.procs ensures RestedAt(v, v2, q, p) { assert RestedAt(v1, v2, q, p); }
    forall p | p in v2.procs ensures NewAt(v, v2, p) { assert NewAt(v1, v2, p); }
  }

  lemma KilledIs(k: Kernel, pid: nat, cleaned: View, released: View)
    requires K.KernelInv(k) && pid in Tab(k) && pid in cleaned.procs && pid in released.procs
    requires released.cur == k.view.cur
    ensures var k' := K.Killed(k, pid, cleaned, released);
            && k'.queue.idle == k.queue.idle && Cur(k') == Cur(k)
            && Tab(k') == (if Cur(k) == Some(pid) then released.procs else released.procs - {pid})
  {
    assert K.StateAt(k.view, pid);
    var k2 := KillMiddle(k.(view := cleaned), pid).(view := released);
    if Cur(k) != Some(pid) {
      Runs.BuryTab(k2, pid);
      BuryQueue(k2, pid);
    }
  }

  /** A killed current process is a zombie when its FDs are released. */
  lemma SelfIsZombie(s: System, pid: nat)
    requires Inv(s) && pid in Tab(s.k) && s.k.queue.idle != Some(pid) && Cur(s.k) == Some(pid)
    ensures pid in KillView(s, pid).procs && pid in KillReleased(s, pid).view.procs
    ensures KillReleased(s, pid).view.procs[pid].state == Zombie
  {
    KillParts(s, pid);
    var k1 := s.k.(view := KillView(s, pid));
    var v2 := KillMiddle(k1, pid).view;
    var v3 := KillReleased(s, pid).view;
    assert K.SoftAt(SetRetval(s.k, pid, -1).view, KillView(s, pid), pid);
    assert v2.cur == s.k.view.cur && v2.procs[pid].state == Zombie;
    assert K.SoftAt(v2, v3, pid);
  }

  lemma KillKeeps(s: System, pid: nat, rax: Option<int>)
    requires Inv(s) && s.k.queue.idle != Some(pid)
    ensures K.Mid(Killed(s, pid).k)
    ensures var t := Killed(s, pid); Inv(t.(k := Depart(t.k, rax)))
  {
    KilledMid(s, pid);
    var t := Killed(s, pid);
    var k' := Depart(t.k, rax);
    if pid !in Tab(s.k) {
      K.OneRuns(s.k);
      DepartRests(t.k, rax, Sleepers(s));
      Conclude(s.sems, s.pipes, s.fds, s.kbd, s.k.view, k');
    } else {
      KillParts(s, pid);
      var p := KillReleased(s, pid);
      var q := Sleepers(t);
      KilledIs(s.k, pid, KillView(s, pid), p.view);
      DepartRests(t.k, rax, q);
      KilledRests(s, pid, rax, q);
      ConcludeGone(t.sems, t.pipes, t.fds, t.kbd, p.view, k', pid);
    }
  }

  lemma KilledRests(s: System, pid: nat, rax: Option<int>, q: set<nat>)
    requires Inv(s) && s.k.queue.idle != Some(pid) && pid in Tab(s.k) && K.Mid(Killed(s, pid).k)
    requires pid in KillView(s, pid).procs
    requires s.k.queue.idle == Killed(s, pid).k.queue.idle
    requires s.k.queue.idle.Some? ==> s.k.queue.idle.value !in q
    ensures var (v, k') := (KillReleased(s, pid).view, Depart(Killed(s, pid).k, rax));
            Rested(v, k'.view, q, {pid}) && pid !in Tab(k')
  {
    var t := Killed(s, pid);
    KillParts(s, pid);
    var p := KillReleased(s, pid);
    KilledIs(s.k, pid, KillView(s, pid), p.view);
    DepartRests(t.k, rax, q);
    if Cur(s.k) == Some(pid) {
      SelfIsZombie(s, pid);
      SameRests(p.view, t.k.view, q);
      RestedTrans(p.view, t.k.view, Depart(t.k, rax).view, q, {pid});
    } else {
      K.OneRuns(s.k);
      OtherAlive(s, pid);
      RestedAfterGone(p.view, t.k.view, Depart(t.k, rax).view, q, pid);
    }
  }

  /** The killer of another stays alive. */
  lemma OtherAlive(s: System, pid: nat)
    requires Inv(s) && s.k.queue.idle != Some(pid) && pid in Tab(s.k) && Cur(s.k) != Some(pid)
    ensures !CurIs(Killed(s, pid).k, Zombie)
  {
    KillParts(s, pid);
    KilledIs(s.k, pid, KillView(s, pid), KillReleased(s, pid).view);
    KillerLives(s, pid);
  }

  lemma KillerLives(s: System, pid: nat)
    requires Inv(s) && s.k.queue.idle != Some(pid) && pid in Tab(s.k) && Cur(s.k) != Some(pid)
    ensures pid in KillView(s, pid).procs
    ensures var v := KillReleased(s, pid).view; Cur(s.k).value in v.procs && v.procs[Cur(s.k).value].state != Zombie
  {
    KillParts(s, pid);
    var p := KillReleased(s, pid);
    var c := Cur(s.k).value;
    K.OneRuns(s.k);
    assert K.StateAt(s.k.view, pid);
    assert K.SoftAt(SetRetval(s.k, pid, -1).view, KillView(s, pid), c);
    var v2 := KillMiddle(s.k.(view := KillView(s, pid)), pid).view;
    assert K.SoftAt(v2, p.view, c);
  }

  // ---------------------------------------------------------------- all entries

  ghost function After(s: System, e: Event): System
    requires Inv(s) && Legal(s, e)
  {
    match e
    case Timer =>
      TickKeeps(s);
      s.(k := Tick(s.k))
    case Key(wakes) => AfterKey(s, wakes)
    case CtrlC =>
      if |K.Foreground(Tab(s.k))| > 1 then
        var pid := K.Newest(Tab(s.k), s.k.nextPid);
        KilledMid(s, pid);
        var t := Killed(s, pid);
        t.(k := Depart(t.k, None))
      else s
    case SemCall(op) => AfterSem(s, op)
    case PipeCall(io) => AfterPipe(s, io)
    case Creation(fg, wantsArgs, stack, args) => AfterCreate(s, fg, wantsArgs, stack, args)
    case Exit(retval, rax) => AfterExit(s, retval, rax)
    case Kill(pid, rax) =>
      KilledMid(s, pid);
      var t := Killed(s, pid);
      t.(k := Depart(t.k, Some(rax)))
    case Simple(call, rax) => AfterSimple(s, call, rax)
  }

  /** Every entry into the kernel keeps the invariants of processes, semaphores, pipes and FDs together. */
  lemma StepKeeps(s: System, e: Event)
    requires Inv(s) && Legal(s, e)
    ensures Inv(After(s, e))
  {
    match e {
      case Timer => TickKeeps(s);
      case Key(wakes) => KeyKeeps(s, wakes);
      case CtrlC => if |K.Foreground(Tab(s.k))| > 1 { KillKeeps(s, K.Newest(Tab(s.k), s.k.nextPid), None); }
      case SemCall(op) => SemKeeps(s, op);
      case PipeCall(io) => PipeKeeps(s, io);
      case Creation(fg, wantsArgs, stack, args) => CreateKeeps(s, fg, wantsArgs, stack, args);
      case Exit(retval, rax) => ExitKeeps(s, retval, rax);
      case Kill(pid, rax) => KillKeeps(s, pid, Some(rax));
      case Simple(call, rax) => SimpleKeeps(s, call, rax);
    }
  }

  ghost predicate RunsFrom(s: System, es: seq<Event>)
    requires Inv(s)
    decreases |es|
  {
    es != [] ==> Legal(s, es[0]) && (StepKeeps(s, es[0]); RunsFrom(After(s, es[0]), es[1..]))
  }

  ghost function End(s: System, es: seq<Event>): System
    requires Inv(s) && RunsFrom(s, es)
    decreases |es|
  {
    if es == [] then s
    else
      StepKeeps(s, es[0]);
      End(After(s, es[0]), es[1..])
  }

  lemma {:induction false} RunKeeps(s: System, es: seq<Event>)
    requires Inv(s) && RunsFrom(s, es)
    ensures Inv(End(s, es))
    decreases |es|
  {
    if es != [] {
      StepKeeps(s, es[0]);
      RunKeeps(After(s, es[0]), es[1..]);
    }
  }

  /** No semaphore, no pipe, the two terminals, idle and the shell. */
  function Boot(stack1: nat, stack2: nat): System {
    System(Runs.Start(Runs.Booted(stack1, stack2)), seq(Sems.MAX_SEMS, _ => Sems.Sem("", 0, [], 0)),
           seq(Pipe.MAX_PIPES, _ => Pipe.Closed),
           seq(Pipe.MAX_FDS, f => Pipe.Fd(if f <= Pipe.FD_STDOUT then Pipe.Terminal else Pipe.NoFd,
                                          if f <= Pipe.FD_STDOUT then 2 else 0, 0)), None)
  }

  lemma BootSems(v: View)
    requires v.procs.Keys == {1, 2} && v.procs[1].heldSems == {} && v.procs[1].openedSems == {}
    requires v.procs[2].heldSems == {} && v.procs[2].openedSems == {}
    ensures var w := Sems.World(seq(Sems.MAX_SEMS, _ => Sems.Sem("", 0, [], 0)), v);
            ST.SemInv(w) && SemWaiting(w.sems) == {}
  {
    var w := Sems.World(seq(Sems.MAX_SEMS, _ => Sems.Sem("", 0, [], 0)), v);
    forall i: nat | i < |w.sems| ensures ST.SemOk(w.sems[i], v.procs, i) {
      assert ST.Openers(v.procs, i) == {} && ST.Holders(v.procs, i) == {};
    }
    assert |v.procs.Keys| == 2;
  }

  lemma BootPipes(s: System, t: PS.Traced)
    requires s.pipes == seq(Pipe.MAX_PIPES, _ => Pipe.Closed) && t.s == PipeWorld(s) && |t.logs| == Pipe.MAX_PIPES
    requires forall f :: 0 <= f < |s.fds| ==> !Refs.IsPipeEnd(s.fds[f])
    ensures PS.PipeInv(PipeWorld(s)) && PQ.AllWaiters(s.pipes) == {}
  {
    PS.InitialInv(t);
  }

  lemma BootInv(stack1: nat, stack2: nat)
    requires stack1 != stack2
    ensures Inv(Boot(stack1, stack2))
  {
    var s := Boot(stack1, stack2);
    Runs.BootKeeps(stack1, stack2);
    Runs.StartIs(stack1, stack2);
    BootSems(s.k.view);
    BootPipes(s, PS.Traced(PipeWorld(s), seq(Pipe.MAX_PIPES, _ => PS.Log(0, [], []))));
  }

  ghost predicate RunsFromBoot(stack1: nat, stack2: nat, es: seq<Event>)
    requires stack1 != stack2
  {
    BootInv(stack1, stack2);
    RunsFrom(Boot(stack1, stack2), es)
  }

  ghost function EndFromBoot(stack1: nat, stack2: nat, es: seq<Event>): System
    requires stack1 != stack2 && RunsFromBoot(stack1, stack2, es)
  {
    BootInv(stack1, stack2);
    End(Boot(stack1, stack2), es)
  }

  /** From boot on, at every return to a process, whatever the programs do within the stated rules: the kernel's
      invariant holds, every semaphore's waiters are the negative part of its value and asleep, the pipes' counts are
      the references to them, the keyboard's driver knows at most one live sleeper, and nobody waits in two places. */
  lemma EveryRun(stack1: nat, stack2: nat, es: seq<Event>)
    requires stack1 != stack2 && RunsFromBoot(stack1, stack2, es)
    ensures var s := EndFromBoot(stack1, stack2, es);
            && K.KernelInv(s.k) && ST.SemInv(SemWorld(s)) && PS.PipeInv(PipeWorld(s))
            && PQ.AllAsleep(s.k.view.procs, Sleepers(s)) && SemWaiting(s.sems) !! PQ.AllWaiters(s.pipes) !! Just(s.kbd)
  {
    BootInv(stack1, stack2);
    RunKeeps(Boot(stack1, stack2), es);
  }
}
