/**
 The soft boost: a call that wakes somebody of higher priority than the caller gives the CPU away at once, to that
 process if it comes first; a call that wakes nobody of higher priority does not.
 */
module Boost {
  import opened Processes
  import opened KernelSpec
  import opened Ranks
  import K = KernelTheorems
  import Run = Scheduler
  import Sems = SemaphoreSpec
  import ST = SemaphoreTheorems
  import Units = SemaphoreUnits
  import PQ = PipeQueues
  import PS = PipeStreams
  import opened System

  // ---------------------------------------------------------------- where a forced switch goes

  predicate Behind(v: View, x: nat, y: nat)
    requires x in v.procs && y in v.procs
  {
    v.procs[y].state in {State.Ready, Running} ==> Ahead(v.procs[x], v.procs[y])
  }

  /** x is ready, and ahead of everybody else who is ready or running, but for idle. */
  ghost predicate ComesFirst(v: View, idle: Option<nat>, x: nat) {
    && x in v.procs && idle != Some(x) && Run.IsReady(v.procs[x])
    && forall y {:trigger Behind(v, x, y)} :: y in v.procs && y != x && idle != Some(y) ==> Behind(v, x, y)
  }

  /** Pausing the current process, and giving it its answer, changes nobody's place. */
  lemma PauseFirst(k: Kernel, x: nat)
    requires Cur(k).Some? && Cur(k).value in Tab(k) && ComesFirst(k.view, k.queue.idle, x) && Cur(k) != Some(x)
    ensures ComesFirst(Pause(k).view, k.queue.idle, x) && Tab(Pause(k))[x] == Tab(k)[x]
  {
    var v := Pause(k).view;
    forall y | y in v.procs && y != x && k.queue.idle != Some(y)
      ensures Behind(v, x, y)
    {
      assert Behind(k.view, x, y);
    }
  }

  lemma AnswerFirst(k: Kernel, r: int, x: nat)
    requires ComesFirst(k.view, k.queue.idle, x) && Cur(k) != Some(x)
    ensures ComesFirst(SaveRax(k, r).view, k.queue.idle, x)
  {
    var v := SaveRax(k, r).view;
    forall y | y in v.procs && y != x && k.queue.idle != Some(y)
      ensures Behind(v, x, y)
    {
      assert Behind(k.view, x, y);
    }
  }

  lemma SwitchToFirst(k: Kernel, x: nat)
    requires K.Base(k) && Shape(k) && ComesFirst(k.view, k.queue.idle, x)
    ensures Cur(Switch(k)) == Some(x)
  {
    assert x in k.queue.pids;
    forall z | z in k.queue.pids && z != x && Run.IsReady(Tab(k)[z]) ensures Ahead(Tab(k)[x], Tab(k)[z]) {
      assert Behind(k.view, x, z);
    }
    ChoiceFirst(Tab(k), k.queue, x);
  }

  lemma ForcedSwitch(k: Kernel, x: nat)
    requires K.Mid(k) && k.view.force && ComesFirst(k.view, k.queue.idle, x) && Cur(k) != Some(x)
    ensures Shape(k) && Cur(Leave(k)) == Some(x)
  {
    var k0 := k.(view := k.view.(force := false));
    K.LeaveKeeps(k);
    K.PauseKeeps(k);
    assert Pause(k0) == Pause(k).(view := Pause(k).view.(force := false));
    PauseFirst(k, x);
    K.ChoiceOk(Pause(k0));
    forall y | y in Tab(Pause(k0)) && y != x && k.queue.idle != Some(y) ensures Behind(Pause(k0).view, x, y) {
      assert Behind(Pause(k).view, x, y);
    }
    SwitchToFirst(Pause(k0), x);
  }

  // ---------------------------------------------------------------- calls that may wake somebody

  predicate MayWake(e: Event) {
    e.SemCall? || e.PipeCall? || (e.Simple? && (e.call.Block? || e.call.Unblock?))
  }

  /** The processes as the call's own code leaves them. */
  ghost function Inner(s: System, e: Event): View
    requires Inv(s) && Legal(s, e) && MayWake(e)
  {
    match e
    case SemCall(op) => ST.Next(SemWorld(s), op).view
    case PipeCall(io) => PS.Next(PipeWorld(s), io).view
    case Simple(call, rax) => K.Called(s.k, call, rax).0.view
    case _ => s.k.view
  }

  /** What the call answers. */
  ghost function Answer(s: System, e: Event): int
    requires Inv(s) && Legal(s, e) && MayWake(e)
  {
    match e
    case SemCall(op) => SemResult(SemWorld(s), op)
    case PipeCall(io) => PipeResult(PipeWorld(s), io)
    case Simple(call, rax) => K.Called(s.k, call, rax).1
    case _ => 0
  }

  lemma AfterIs(s: System, e: Event)
    requires Inv(s) && Legal(s, e) && MayWake(e)
    ensures K.Mid(s.k.(view := Inner(s, e)))
    ensures After(s, e).k == Finish(s.k.(view := Inner(s, e)), Answer(s, e))
  {
    match e
    case SemCall(op) =>
      SemParts(s, op);
      K.SoftKeeps(s.k, Inner(s, e));
    case PipeCall(io) =>
      PipeParts(s, io);
      K.SoftKeeps(s.k, Inner(s, e));
    case Simple(call, rax) => K.CallKeeps(s.k, call, rax);
    case _ =>
  }

  lemma SimpleForce(v: View, p: nat)
    requires PQ.CallerRuns(v)
    ensures p in v.procs && v.procs[p].waitingFor == 0 ==>
            (ProcessUnblock(v, p).force <==> v.force || Boosted(v, ProcessUnblock(v, p)))
    ensures !Boosted(v, ProcessBlock(v, p)) && (p != v.cur.value ==> ProcessBlock(v, p).force == v.force)
  {
    if p in v.procs && v.procs[p].waitingFor == 0 { PQ.UnblockWakes(v, p); }
    forall x ensures !WokenAbove(v, ProcessBlock(v, p), x) { }
  }

  /** The exact condition: a call that leaves its caller running asks for a switch just if it wakes somebody of higher
      priority. */
  lemma ForceIff(s: System, e: Event)
    requires Inv(s) && Legal(s, e) && MayWake(e)
    ensures var v := Inner(s, e);
            && Cur(s.k).Some? && v.cur == Cur(s.k) && Cur(s.k).value in v.procs
            && (Boosted(s.k.view, v) ==> v.force)
            && (v.procs[Cur(s.k).value].state == Running ==> (v.force <==> Boosted(s.k.view, v)))
  {
    CallerFacts(s);
    match e
    case SemCall(op) =>
      SemParts(s, op);
      SleepyOf(s);
      SemEffect(s, op);
      SimpleForce(s.k.view, Cur(s.k).value);
    case PipeCall(io) =>
      PipeParts(s, io);
      PipeEffect(PipeWorld(s), io);
      SimpleForce(s.k.view, Cur(s.k).value);
    case Simple(call, rax) => SimpleForce(s.k.view, call.pid);
    case _ =>
  }

  /** Whoever is woken, is above the caller, and comes first of all, has the CPU when the call returns. */
  lemma TakesOver(s: System, e: Event, x: nat)
    requires Inv(s) && Legal(s, e) && MayWake(e)
    requires WokenAbove(s.k.view, Inner(s, e), x) && ComesFirst(Inner(s, e), s.k.queue.idle, x)
    ensures Cur(After(s, e).k) == Some(x)
  {
    var k := s.k.(view := Inner(s, e));
    AfterIs(s, e);
    ForceIff(s, e);
    K.OneRuns(s.k);
    K.SaveRaxKeeps(k, Answer(s, e));
    AnswerFirst(k, Answer(s, e), x);
    ForcedSwitch(SaveRax(k, Answer(s, e)), x);
  }

  /** A call that wakes nobody above the caller, and leaves the caller running, returns to it. */
  lemma StaysOn(s: System, e: Event)
    requires Inv(s) && Legal(s, e) && MayWake(e) && Cur(s.k).value in Inner(s, e).procs
    requires !Boosted(s.k.view, Inner(s, e)) && Inner(s, e).procs[Cur(s.k).value].state == Running
    ensures Cur(After(s, e).k) == Cur(s.k)
  {
    AfterIs(s, e);
    ForceIff(s, e);
  }

  /** In particular a post hands not only its unit to the first who waits, but the CPU too, if that one is above the
      poster and comes first. */
  lemma PostTakesOver(s: System, name: string)
    requires Inv(s) && Legal(s, SemCall(ST.Post(name))) && Sems.Find(SemWorld(s), name).Some?
    requires s.sems[Sems.Find(SemWorld(s), name).value].queue != []
    ensures var x := s.sems[Sems.Find(SemWorld(s), name).value].queue[0];
            var e := SemCall(ST.Post(name));
            && x in Tab(s.k) && Cur(s.k).Some? && Cur(s.k).value in Tab(s.k)
            && (Tab(s.k)[x].priority > Tab(s.k)[Cur(s.k).value].priority &&
                ComesFirst(Inner(s, e), s.k.queue.idle, x) ==>
                Cur(After(s, e).k) == Some(x))
  {
    var e := SemCall(ST.Post(name));
    var i := Sems.Find(SemWorld(s), name).value;
    var x := s.sems[i].queue[0];
    assert ST.SemOk(s.sems[i], Tab(s.k), i) && x in s.sems[i].queue;
    Units.PostServesFirst(SemWorld(s), name);
    CallerFacts(s);
    if Tab(s.k)[x].priority > Tab(s.k)[Cur(s.k).value].priority && ComesFirst(Inner(s, e), s.k.queue.idle, x) {
      TakesOver(s, e, x);
    }
  }
}
