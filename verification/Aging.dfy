/**
 Aging: of two processes that are always ready, one never waits longer than it takes its bonus to make up for what the
 other is ahead of it, and then one turn of the other; unless that is more than aging gives, and then its wait has no
 bound.
 */
module Aging {
  import opened Sequences
  import opened Processes
  import opened Scheduler
  import opened KernelSpec
  import opened KernelTheorems
  import opened KernelRuns
  import opened Fairness
  import opened Ranks
  import Starvation

  /** u and v are the only active processes, of priority p and q, in the foreground if fu and fv say so. */
  datatype Two = Two(u: nat, v: nat, p: nat, q: nat, fu: bool, fv: bool)

  /** The same two, the other way round. */
  function Swapped(t: Two): Two { Two(t.v, t.u, t.q, t.p, t.fv, t.fu) }

  predicate TwoAt(ps: Procs, x: nat, t: Two)
    requires x in ps
  {
    && (IsActive(ps[x]) <==> x == t.u || x == t.v)
    && (x == t.u ==> ps[x].priority == t.p && (ps[x].foreground != 0 <==> t.fu))
    && (x == t.v ==> ps[x].priority == t.q && (ps[x].foreground != 0 <==> t.fv))
  }

  ghost predicate OnlyTwo(ps: Procs, pids: seq<nat>, t: Two) {
    && t.u != t.v && t.u in pids && t.v in pids
    && forall x {:trigger TwoAt(ps, x, t)} :: x in pids && x in ps ==> TwoAt(ps, x, t)
  }

  /** How long u waits at most: until it has caught up, and then until the turn of v is over. */
  function Limit(ps: Procs, t: Two): nat
    requires t.u in ps && t.v in ps
  {
    AGING_INTERVAL * Gap(ps[t.u], ps[t.v]) + ps[t.v].priority
  }

  /** What u has waited at most while the current process c has n ticks left. */
  ghost predicate WaitsWithin(ps: Procs, c: nat, n: nat, t: Two)
    requires c in ps && t.u in ps && t.v in ps
  {
    && ps[c].waitTicks == 0 && !Outranks(ps[t.v], ps[t.u])
    && (c == t.v ==> ps[t.u].waitTicks + n <= Limit(ps, t))
  }

  ghost predicate TwoInv(k: Kernel, t: Two) {
    && KernelInv(k) && k.queue.cursor < |k.queue.pids| && At(k.queue) == Cur(k) && OnlyTwo(Tab(k), k.queue.pids, t)
    && t.u in Tab(k) && t.v in Tab(k) && WaitsWithin(Tab(k), Cur(k).value, Tab(k)[Cur(k).value].quanta, t)
  }

  function Other(t: Two, c: nat): nat { if c == t.u then t.v else t.u }

  lemma CurIsOne(k: Kernel, t: Two)
    requires KernelInv(k) && k.queue.cursor < |k.queue.pids| && At(k.queue) == Cur(k)
    requires OnlyTwo(Tab(k), k.queue.pids, t)
    ensures Cur(k).value == t.u || Cur(k).value == t.v
    ensures Cur(k) != k.queue.idle && t.u in Tab(k) && t.v in Tab(k)
  {
    assert k.queue.pids[k.queue.cursor] in k.queue.pids;
    assert StateAt(k.view, Cur(k).value) && TwoAt(Tab(k), Cur(k).value, t);
  }

  /** The other one comes first in the walk, so the current keeps the CPU only if it is ahead. */
  lemma OtherFirst(ps: Procs, q: RunQueue, t: Two, c: nat)
    requires NoDup(q.pids) && Known(ps, q.pids) && q.cursor < |q.pids| && q.pids[q.cursor] == c
    requires c == t.u || c == t.v
    requires OnlyTwo(ps, q.pids, t) && NoneRuns(ps) && t.u in ps && t.v in ps
    ensures var n := NextReady(ps, q).0;
            (n == Some(t.u) || n == Some(t.v)) && (n == Some(c) ==> Ahead(ps[c], ps[Other(t, c)]))
            && IsReady(ps[n.value])
  {
    var o := Other(t, c);
    assert TwoAt(ps, o, t) && TwoAt(ps, c, t) && StateOk(ps[o], false) && StateOk(ps[c], false);
    Selection(ps, q);
    assert SomeReady(ps, q.pids);
    var n := NextReady(ps, q).0.value;
    assert TwoAt(ps, n, t) && IsActive(ps[n]);
    if n == c && Effective(ps[o]) == Effective(ps[c]) && (ps[o].foreground != 0 <==> ps[c].foreground != 0) {
      NotFirst(ps, q, c, o);
    }
  }

  /** The process under the cursor comes last in the walk, so an equal one comes before it. */
  lemma NotFirst(ps: Procs, q: RunQueue, c: nat, o: nat)
    requires NoDup(q.pids) && Known(ps, q.pids) && q.cursor < |q.pids| && q.pids[q.cursor] == c && o in q.pids && o != c
    requires IsReady(ps[o]) && Effective(ps[o]) == Effective(ps[c])
    requires ps[o].foreground != 0 <==> ps[c].foreground != 0
    requires Known(ps, Rotation(q.pids, q.cursor))
    ensures !FirstEligible(ps, Rotation(q.pids, q.cursor), c, Effective(ps[c]), ps[c].foreground != 0)
  {
    var r := Rotation(q.pids, q.cursor);
    RotationElems(q.pids, q.cursor);
    var j: nat :| j < |r| && r[j] == o;
    assert Eligible(ps[r[j]], Effective(ps[c]), ps[c].foreground != 0);
    forall k: nat | k < |r| && r[k] == c ensures !NoneBefore(ps, r, k, Effective(ps[c]), ps[c].foreground != 0) {
      LastOfRotation(q.pids, q.cursor, k);
    }
  }

  lemma LastOfRotation(pids: seq<nat>, c: nat, k: nat)
    requires NoDup(pids) && c < |pids| && k < |pids| && Rotation(pids, c)[k] == pids[c]
    ensures k == |pids| - 1 && Rotation(pids, c)[k] == pids[c]
  {
  }

  // ---------------------------------------------------------------- the switch

  ghost predicate Pausing(d: Kernel, t: Two, c: nat) {
    && Shape(d) && NoDup(d.queue.pids) && d.queue.cursor < |d.queue.pids| && At(d.queue) == Some(c) && Cur(d) == Some(c)
    && OnlyTwo(Tab(d), d.queue.pids, t) && NoneRuns(Tab(d)) && t.u in Tab(d) && t.v in Tab(d) && (c == t.u || c == t.v)
    && WaitsWithin(Tab(d), c, 0, t)
  }

  lemma SwitchWaits(d: Kernel, t: Two, c: nat)
    requires Pausing(d, t, c)
    ensures var n := NextReady(Tab(d), d.queue).0;
            && (n == Some(t.u) || n == Some(t.v))
            && WaitsWithin(Tab(d)[n.value := Tab(d)[n.value].(waitTicks := 0, state := Running)], n.value,
                           Tab(d)[n.value].priority, t)
  {
    OtherFirst(Tab(d), d.queue, t, c);
    assert TwoAt(Tab(d), t.u, t) && TwoAt(Tab(d), t.v, t);
    if c == t.v { GapMakesUp(Tab(d)[t.u], Tab(d)[t.v]); }
  }

  lemma TwoAfter(ps: Procs, pids: seq<nat>, t: Two, n: nat)
    requires OnlyTwo(ps, pids, t) && n in pids && n in ps && IsReady(ps[n])
    ensures OnlyTwo(ps[n := ps[n].(waitTicks := 0, state := Running)], pids, t)
  {
    var ps' := ps[n := ps[n].(waitTicks := 0, state := Running)];
    forall x | x in pids && x in ps' ensures TwoAt(ps', x, t) { assert TwoAt(ps, x, t); }
  }

  lemma SwitchIs(d: Kernel, t: Two, c: nat)
    requires Pausing(d, t, c)
    ensures var n := NextReady(Tab(d), d.queue).0;
            && n.Some? && n.value in d.queue.pids && n.value in Tab(d) && IsReady(Tab(d)[n.value])
            && Switch(d).queue.pids == d.queue.pids && Switch(d).queue.cursor < |d.queue.pids|
            && At(Switch(d).queue) == n && Cur(Switch(d)) == n
            && Tab(Switch(d)) == Tab(d)[n.value := Tab(d)[n.value].(waitTicks := 0, state := Running)]
  {
    OtherFirst(Tab(d), d.queue, t, c);
    var n := NextReady(Tab(d), d.queue).0.value;
    CursorOnChosen(Tab(d), d.queue, n);
    assert StateOk(Tab(d)[c], false);
  }

  lemma SwitchKeepsTwo(d: Kernel, t: Two, c: nat)
    requires Pausing(d, t, c) && KernelInv(Switch(d))
    ensures TwoInv(Switch(d), t)
  {
    SwitchIs(d, t, c);
    SwitchWaits(d, t, c);
    var n := NextReady(Tab(d), d.queue).0.value;
    TwoAfter(Tab(d), d.queue.pids, t, n);
    assert StateOk(Tab(d)[n], false);
  }

  // ---------------------------------------------------------------- ticks and yields

  lemma OwnTwo(ps: Procs, pids: seq<nat>, t: Two, c: nat, b: Pcb)
    requires OnlyTwo(ps, pids, t) && c in pids && c in ps && IsActive(ps[c]) && IsActive(b)
    requires b.priority == ps[c].priority && b.foreground == ps[c].foreground
    ensures OnlyTwo(ps[c := b], pids, t)
  {
    forall x | x in pids && x in ps[c := b] ensures TwoAt(ps[c := b], x, t) { assert TwoAt(ps, x, t); }
  }

  /** Everything but the scheduling state of the current process, in which q ticks are left. */
  ghost predicate TwoBut(k: Kernel, t: Two, q: nat) {
    && k.queue.cursor < |k.queue.pids| && At(k.queue) == Cur(k) && OnlyTwo(Tab(k), k.queue.pids, t) && Mid(k)
    && t.u in Tab(k) && t.v in Tab(k) && WaitsWithin(Tab(k), Cur(k).value, q, t)
    && Tab(k)[Cur(k).value].state == Running
  }

  lemma DemotedPauses(k: Kernel, t: Two)
    requires TwoBut(k, t, 0)
    ensures Pausing(Demote(k), t, Cur(k).value)
  {
    var c := Cur(k).value;
    var b := Tab(k)[c].(state := State.Ready, quanta := Tab(k)[c].priority);
    assert k.queue.pids[k.queue.cursor] in k.queue.pids;
    assert TwoAt(Tab(k), c, t) && PcbOk(Tab(k)[t.u], t.u, k.nextPid) && TwoAt(Tab(k), t.u, t);
    OwnTwo(Tab(k), k.queue.pids, t, c, b);
    forall x | x in Tab(Demote(k)) ensures StateOk(Tab(Demote(k))[x], false) { assert StateAt(k.view, x); }
  }

  lemma AgedTwo(k: Kernel, t: Two)
    requires TwoInv(k, t)
    ensures TwoBut(Aged(k), t, Less(Tab(k)[Cur(k).value].quanta)) && Cur(k).value in Tab(k)
  {
    var k1 := Aged(k);
    CurIsOne(k, t);
    AgedKeeps(k);
    AgedAt(k, t.u);
    AgedAt(k, t.v);
    assert TwoAt(Tab(k), t.u, t) && TwoAt(Tab(k), t.v, t) && StateAt(k.view, Cur(k).value);
    forall x | x in k.queue.pids && x in Tab(k1) ensures TwoAt(Tab(k1), x, t) {
      AgedAt(k, x);
      assert TwoAt(Tab(k), x, t);
    }
  }

  lemma TickTwo(k: Kernel, t: Two)
    requires TwoInv(k, t)
    ensures Shape(k) && TwoInv(Tick(k), t)
  {
    CurIsOne(k, t);
    TickKeeps(k);
    AgedTwo(k, t);
    var c := Cur(k).value;
    assert StateAt(k.view, c);
    if Tab(k)[c].quanta > 1 {
      TickIs(k);
      OwnTwo(Tab(Aged(k)), k.queue.pids, t, c, Tab(Aged(k))[c].(quanta := Tab(k)[c].quanta - 1));
    } else {
      assert Tick(k) == Switch(Demote(Aged(k)));
      DemotedPauses(Aged(k), t);
      SwitchKeepsTwo(Demote(Aged(k)), t, c);
    }
  }

  lemma YieldTwo(k: Kernel, t: Two, rax: int)
    requires TwoInv(k, t)
    ensures Cur(k) != k.queue.idle && TwoInv(KernelTheorems.After(k, Syscall(Yield, rax)), t)
  {
    CurIsOne(k, t);
    var c := Cur(k).value;
    SaveRaxKeeps(k, rax);
    YieldIs(k, rax);
    assert StateAt(k.view, c);
    OwnTwo(Tab(k), k.queue.pids, t, c, Tab(k)[c].(savedRax := rax));
    DemotedPauses(SaveRax(k, rax), t);
    SwitchKeepsTwo(Demote(SaveRax(k, rax)), t, c);
  }

  lemma SameOnlyTwo(ps: Procs, ps': Procs, pids: seq<nat>, t: Two)
    requires OnlyTwo(ps, pids, t) && SameSched(ps, ps')
    ensures OnlyTwo(ps', pids, t) && forall x :: x in ps ==> x in ps' && SameAt(ps[x], ps'[x])
  {
    forall x | x in pids && x in ps' ensures TwoAt(ps', x, t) { assert SameAt(ps[x], ps'[x]) && TwoAt(ps, x, t); }
  }

  /** What the scheduler does not look at is no part of it. */
  lemma SameTwo(k: Kernel, k': Kernel, t: Two)
    requires TwoInv(k, t) && KernelInv(k') && k'.queue == k.queue && Cur(k') == Cur(k) && SameSched(Tab(k), Tab(k'))
    ensures TwoInv(k', t)
  {
    CurIsOne(k, t);
    SameOnlyTwo(Tab(k), Tab(k'), k.queue.pids, t);
  }

  // ---------------------------------------------------------------- runs

  lemma TurnKeepsTwo(k: Kernel, e: Event, t: Two)
    requires TwoInv(k, t) && Enabled(k, e) && IsTurn(k, e)
    ensures TwoInv(KernelTheorems.After(k, e), t)
  {
    if e.Timer? {
      TickTwo(k, t);
    } else if IsYield(e) {
      YieldTwo(k, t, e.rax);
    } else {
      StepKeeps(k, e);
      SameTwo(k, KernelTheorems.After(k, e), t);
    }
  }

  lemma {:induction false} RunKeepsTwo(k: Kernel, es: seq<Event>, t: Two)
    requires TwoInv(k, t) && Runs(k, es) && Steady(k, es)
    ensures TwoInv(End(k, es), t)
    decreases |es|
  {
    if es != [] {
      TurnKeepsTwo(k, es[0], t);
      RunKeepsTwo(KernelTheorems.After(k, es[0]), es[1..], t);
    }
  }

  /** Two active processes, neither of which has waited yet, one of them with the CPU and under the cursor. */
  ghost predicate FreshTwo(k: Kernel, t: Two) {
    && KernelInv(k) && k.queue.cursor < |k.queue.pids| && At(k.queue) == Cur(k) && OnlyTwo(Tab(k), k.queue.pids, t)
    && t.u in Tab(k) && t.v in Tab(k) && Tab(k)[t.u].waitTicks == 0 && Tab(k)[t.v].waitTicks == 0
  }

  lemma SwappedFresh(k: Kernel, t: Two)
    requires FreshTwo(k, t)
    ensures FreshTwo(k, Swapped(t))
  {
    forall x | x in k.queue.pids && x in Tab(k) ensures TwoAt(Tab(k), x, Swapped(t)) { assert TwoAt(Tab(k), x, t); }
  }

  /** The two are what they were as far as their ranks are concerned. */
  lemma SameRanks(k: Kernel, k': Kernel, t: Two)
    requires OnlyTwo(Tab(k), k.queue.pids, t) && t.u in Tab(k) && t.v in Tab(k)
    requires OnlyTwo(Tab(k'), k'.queue.pids, t) && t.u in Tab(k') && t.v in Tab(k')
    ensures Gap(Tab(k')[t.u], Tab(k')[t.v]) == Gap(Tab(k)[t.u], Tab(k)[t.v])
    ensures Limit(Tab(k'), t) == Limit(Tab(k), t)
  {
    assert TwoAt(Tab(k), t.u, t) && TwoAt(Tab(k), t.v, t) && TwoAt(Tab(k'), t.u, t) && TwoAt(Tab(k'), t.v, t);
  }

  lemma OneBound(k: Kernel, es: seq<Event>, t: Two)
    requires FreshTwo(k, t) && Runs(k, es) && Steady(k, es) && !Outranks(Tab(k)[t.v], Tab(k)[t.u])
    ensures var e := End(k, es);
            t.u in Tab(e) && t.v in Tab(e) && Tab(e)[t.u].waitTicks <= Limit(Tab(k), t)
  {
    CurIsOne(k, t);
    assert TwoAt(Tab(k), Cur(k).value, t) && StateAt(k.view, Cur(k).value);
    RunKeepsTwo(k, es, t);
    CurIsOne(End(k, es), t);
    SameRanks(k, End(k, es), t);
  }

  /** In any run in which nobody blocks, wakes, comes or goes: each of the two that the other does not outrank never
      waits more than 50 ticks for each point of aging it needs, and one turn of the other. */
  lemma AgingBound(k: Kernel, es: seq<Event>, t: Two)
    requires FreshTwo(k, t) && Runs(k, es) && Steady(k, es)
    ensures var (u, v, e) := (Tab(k)[t.u], Tab(k)[t.v], End(k, es));
            && t.u in Tab(e) && t.v in Tab(e)
            && (!Outranks(v, u) ==> Tab(e)[t.u].waitTicks <= AGING_INTERVAL * Gap(u, v) + v.priority)
            && (!Outranks(u, v) ==> Tab(e)[t.v].waitTicks <= AGING_INTERVAL * Gap(v, u) + u.priority)
  {
    SwappedFresh(k, t);
    if !Outranks(Tab(k)[t.v], Tab(k)[t.u]) { OneBound(k, es, t); }
    if !Outranks(Tab(k)[t.u], Tab(k)[t.v]) { OneBound(k, es, Swapped(t)); }
  }

  // ---------------------------------------------------------------- no bound otherwise

  /** In no such run has x waited more than that many ticks. */
  ghost predicate BoundedBy(k: Kernel, x: nat, bound: nat)
    requires KernelInv(k)
  {
    forall es {:trigger Steady(k, es)} :: Runs(k, es) && Steady(k, es) ==>
      x in Tab(End(k, es)) && Tab(End(k, es))[x].waitTicks <= bound
  }

  lemma SteadyBefore(k: Kernel, e: Event, es: seq<Event>)
    requires KernelInv(k) && Enabled(k, e) && IsTurn(k, e) && KernelInv(KernelTheorems.After(k, e))
    requires Runs(KernelTheorems.After(k, e), es) && Steady(KernelTheorems.After(k, e), es)
    ensures Runs(k, [e] + es) && Steady(k, [e] + es)
    ensures End(k, [e] + es) == End(KernelTheorems.After(k, e), es)
  {
    OneBefore(k, e, es);
    assert ([e] + es)[1..] == es;
  }

  ghost predicate IsSteady(k: Kernel, es: seq<Event>)
    requires KernelInv(k)
  {
    Runs(k, es) && Steady(k, es)
  }

  lemma {:induction false} TimersSteady(k: Kernel, n: nat)
    requires KernelInv(k)
    ensures IsSteady(k, Starvation.Timers(n))
    decreases n
  {
    if n > 0 {
      TickKeeps(k);
      TimersSteady(KernelTheorems.After(k, Timer), n - 1);
      SteadyBefore(k, Timer, Starvation.Timers(n - 1));
    }
  }

  /** Where u waits and v outranks it, there is a run in which u waits longer than any bound. */
  lemma WaitsLonger(k: Kernel, t: Two, bound: nat)
    requires KernelInv(k) && Starvation.Waits(k, t.u, t.v)
    ensures var es := Starvation.Timers(bound + 1);
            IsSteady(k, es) && t.u in Tab(End(k, es)) && Tab(End(k, es))[t.u].waitTicks > bound
  {
    TimersSteady(k, bound + 1);
    Starvation.TicksWait(k, t.u, t.v, bound + 1);
  }

  const YIELD: Event := Syscall(Yield, 0)

  lemma YieldTab(k: Kernel, p: nat)
    requires KernelInv(k) && Cur(k) != k.queue.idle && p in Tab(k) && IsActive(Tab(k)[p])
    ensures var k' := KernelTheorems.After(k, YIELD);
            && KernelInv(k') && k'.queue.idle == k.queue.idle && p in Tab(k') && IsActive(Tab(k')[p])
            && Tab(k')[p].priority == Tab(k)[p].priority && Tab(k')[p].foreground == Tab(k)[p].foreground
  {
    YieldIs(k, 0);
    SwitchIdle(Demote(SaveRax(k, 0)));
    SwitchTab(Demote(SaveRax(k, 0)), p);
    OneRuns(k);
  }

  lemma YieldPicks(k: Kernel, x: nat)
    requires KernelInv(k) && Cur(k) != k.queue.idle && k.queue.idle != Some(x)
    ensures var k' := KernelTheorems.After(k, YIELD); Cur(k') == Some(x) ==> Starvation.MayRun(k', x)
  {
    CallKeeps(k, Yield, 0);
    SaveRaxKeeps(YieldCall(k), 0);
    Starvation.LeavePicks(SaveRax(YieldCall(k), 0), x);
  }

  /** If u is running and v outranks it, u waits as soon as it yields. */
  lemma YieldsAway(k: Kernel, t: Two)
    requires FreshTwo(k, t) && Cur(k) == Some(t.u) && Outranks(Tab(k)[t.v], Tab(k)[t.u])
    ensures Enabled(k, YIELD) && KernelInv(KernelTheorems.After(k, YIELD))
    ensures Starvation.Waits(KernelTheorems.After(k, YIELD), t.u, t.v)
  {
    var k' := KernelTheorems.After(k, YIELD);
    CurIsOne(k, t);
    assert TwoAt(Tab(k), t.u, t) && TwoAt(Tab(k), t.v, t);
    YieldTab(k, t.u);
    YieldTab(k, t.v);
    YieldPicks(k, t.u);
    OneRuns(k');
    assert Cur(k') == Some(t.u) ==> Starvation.BowsTo(k', t.u, t.v);
  }

  lemma Unbounded(k: Kernel, t: Two, bound: nat)
    requires FreshTwo(k, t) && Outranks(Tab(k)[t.v], Tab(k)[t.u])
    ensures !BoundedBy(k, t.u, bound)
  {
    CurIsOne(k, t);
    assert TwoAt(Tab(k), t.u, t) && TwoAt(Tab(k), t.v, t);
    OneRuns(k);
    if Cur(k) == Some(t.u) {
      YieldsAway(k, t);
      WaitsLonger(KernelTheorems.After(k, YIELD), t, bound);
      SteadyBefore(k, YIELD, Starvation.Timers(bound + 1));
    } else {
      WaitsLonger(k, t, bound);
    }
  }

  /** There is a bound for u if and only if v does not outrank it. */
  lemma BoundedIff(k: Kernel, t: Two)
    requires FreshTwo(k, t)
    ensures (exists bound {:trigger BoundedBy(k, t.u, bound)} :: BoundedBy(k, t.u, bound)) <==>
            !Outranks(Tab(k)[t.v], Tab(k)[t.u])
  {
    if Outranks(Tab(k)[t.v], Tab(k)[t.u]) {
      forall bound ensures !BoundedBy(k, t.u, bound) { Unbounded(k, t, bound); }
    } else {
      forall es | Runs(k, es) && Steady(k, es)
        ensures t.u in Tab(End(k, es)) && Tab(End(k, es))[t.u].waitTicks <= Limit(Tab(k), t)
      {
        OneBound(k, es, t);
      }
      assert BoundedBy(k, t.u, Limit(Tab(k), t));
    }
  }
}
