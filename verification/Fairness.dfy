/**
 Waiting times: equal processes take turns in strict cyclic order, each waiting a bounded number of ticks, because
 aging never disturbs the round-robin; and of two processes the one of lower priority is not kept waiting for ever.
 */
module Fairness {
  import opened Sequences
  import opened Processes
  import opened Scheduler
  import opened KernelSpec
  import opened KernelTheorems
  import opened KernelRuns

  // ---------------------------------------------------------------- stretches in which nobody comes or goes

  predicate SameAt(a: Pcb, b: Pcb) {
    && a.state == b.state && a.priority == b.priority && (a.foreground != 0 <==> b.foreground != 0)
    && a.waitTicks == b.waitTicks && a.quanta == b.quanta
  }

  /** Nothing the scheduler looks at has changed. */
  ghost predicate SameSched(ps: Procs, ps': Procs) {
    ps.Keys == ps'.Keys && forall x {:trigger SameAt(ps[x], ps'[x])} :: x in ps && x in ps' ==> SameAt(ps[x], ps'[x])
  }

  /** An entry into the kernel that wakes, blocks, starts and ends nobody: a system call that just does its work or
      fails, or an interrupt that nobody waits for. */
  ghost predicate Quiet(k: Kernel, e: Event)
    requires KernelInv(k) && Enabled(k, e)
  {
    var k' := KernelTheorems.After(k, e);
    k'.queue == k.queue && Cur(k') == Cur(k) && SameSched(Tab(k), Tab(k'))
  }

  predicate IsYield(e: Event) { e.Syscall? && e.call.Yield? }

  /** The entries into the kernel of a stretch in which nobody blocks, wakes, comes or goes. */
  ghost predicate IsTurn(k: Kernel, e: Event)
    requires KernelInv(k) && Enabled(k, e)
  {
    e.Timer? || IsYield(e) || Quiet(k, e)
  }

  /** The CPU changes hands at every yield, and when the ticks of a turn run out. */
  ghost predicate IsSwitch(k: Kernel, e: Event)
    requires KernelInv(k)
  {
    IsYield(e) || (e.Timer? && Tab(k)[Cur(k).value].quanta <= 1)
  }

  ghost predicate Steady(k: Kernel, es: seq<Event>)
    requires KernelInv(k) && Runs(k, es)
    decreases |es|
  {
    if es == [] then true
    else
      IsTurn(k, es[0]) && (StepKeeps(k, es[0]); Steady(KernelTheorems.After(k, es[0]), es[1..]))
  }

  /** How often the CPU changes hands. */
  ghost function Switches(k: Kernel, es: seq<Event>): nat
    requires KernelInv(k) && Runs(k, es)
    decreases |es|
  {
    if es == [] then 0
    else
      StepKeeps(k, es[0]);
      (if IsSwitch(k, es[0]) then 1 else 0) + Switches(KernelTheorems.After(k, es[0]), es[1..])
  }

  /** Who gets the CPU at this entry, if anybody does. */
  ghost function Getter(k: Kernel, e: Event): set<nat>
    requires KernelInv(k) && Enabled(k, e)
  {
    if IsSwitch(k, e) then
      StepKeeps(k, e);
      {Cur(KernelTheorems.After(k, e)).value}
    else {}
  }

  /** Who gets the CPU at one of these occasions. */
  ghost function Dispatched(k: Kernel, es: seq<Event>): set<nat>
    requires KernelInv(k) && Runs(k, es)
    decreases |es|
  {
    if es == [] then {}
    else
      StepKeeps(k, es[0]);
      var k' := KernelTheorems.After(k, es[0]);
      Getter(k, es[0]) + Dispatched(k', es[1..])
  }

  predicate IsActive(b: Pcb) { b.state == State.Ready || b.state == Running }

  /** The ready and running processes of r, in its order. */
  function Keep(ps: Procs, r: seq<nat>): (o: seq<nat>)
    requires Known(ps, r)
    ensures |o| <= |r|
  {
    if r == [] then []
    else
      assert forall k {:trigger r[1..][k]} :: 0 <= k < |r| - 1 ==> r[1..][k] == r[k + 1];
      if IsActive(ps[r[0]]) then [r[0]] + Keep(ps, r[1..]) else Keep(ps, r[1..])
  }

  /** The active processes in the order of the cursor's walk; with the cursor on the current process, that is last. */
  function Order(k: Kernel): seq<nat>
    requires Known(Tab(k), k.queue.pids) && k.queue.cursor < |k.queue.pids|
  {
    RotationElems(k.queue.pids, k.queue.cursor);
    Keep(Tab(k), Rotation(k.queue.pids, k.queue.cursor))
  }

  // ---------------------------------------------------------------- filtering and turning

  lemma {:induction false} KeepConcat(ps: Procs, a: seq<nat>, b: seq<nat>)
    requires Known(ps, a) && Known(ps, b)
    ensures Known(ps, a + b) && Keep(ps, a + b) == Keep(ps, a) + Keep(ps, b)
  {
    if a == [] {
      assert a + b == b;
    } else {
      assert (a + b)[1..] == a[1..] + b;
      KeepConcat(ps, a[1..], b);
    }
  }

  lemma {:induction false} KeepSame(ps: Procs, ps': Procs, r: seq<nat>)
    requires Known(ps, r) && Known(ps', r)
    requires forall i {:trigger r[i]} :: 0 <= i < |r| ==> (IsActive(ps[r[i]]) <==> IsActive(ps'[r[i]]))
    ensures Keep(ps, r) == Keep(ps', r)
  {
    if r != [] { KeepSame(ps, ps', r[1..]); }
  }

  lemma {:induction false} KeepElems(ps: Procs, r: seq<nat>)
    requires Known(ps, r)
    ensures forall p :: p in Keep(ps, r) <==> p in r && IsActive(ps[p])
  {
    if r != [] {
      KeepElems(ps, r[1..]);
      assert forall p :: p in r <==> p == r[0] || p in r[1..];
    }
  }

  /** The first active process of r, with its position. */
  lemma {:induction false} FirstActive(ps: Procs, r: seq<nat>) returns (j: nat)
    requires Known(ps, r) && Keep(ps, r) != []
    ensures j < |r| && r[j] == Keep(ps, r)[0] && IsActive(ps[r[j]])
    ensures forall i :: 0 <= i < j ==> !IsActive(ps[r[i]])
    ensures Keep(ps, r[..j + 1]) == [r[j]] && Keep(ps, r[j + 1..]) == Keep(ps, r)[1..]
  {
    if IsActive(ps[r[0]]) {
      j := 0;
      assert r[..1] == [r[0]] && r[..1][1..] == [];
    } else {
      var i := FirstActive(ps, r[1..]);
      j := i + 1;
      assert r[..j + 1][1..] == r[1..][..i + 1];
      assert r[1..][i + 1..] == r[j + 1..];
    }
  }

  /** Moving the cursor to the j-th process of its walk turns the rotation that far. */
  lemma {:induction false} RotationShift(pids: seq<nat>, c: nat, j: nat) returns (c': nat)
    requires c < |pids| && j < |pids|
    ensures c' < |pids| && pids[c'] == Rotation(pids, c)[j]
    ensures Rotation(pids, c') == Rotation(pids, c)[j + 1..] + Rotation(pids, c)[..j + 1]
    decreases j
  {
    var r := Rotation(pids, c);
    c' := Onward(c, |pids|);
    RotationTurns(pids, c);
    if j > 0 {
      var r' := Rotation(pids, c');
      c' := RotationShift(pids, c', j - 1);
      assert r'[j - 1] == r[j];
      assert r'[j..] + r'[..j] == r[j + 1..] + r[..j + 1] by {
        assert r' == r[1..] + [r[0]];
        assert r'[j..] == r[j + 1..] + [r[0]];
        assert r'[..j] == r[1..j + 1];
      }
    }
  }

  // ---------------------------------------------------------------- equal processes

  /** All active processes have priority p, and are all in the foreground or all in the background. */
  ghost predicate Alike(ps: Procs, pids: seq<nat>, p: nat, fg: bool) {
    forall x {:trigger AlikeAt(ps, x, p, fg)} :: x in pids && x in ps ==> AlikeAt(ps, x, p, fg)
  }

  predicate AlikeAt(ps: Procs, x: nat, p: nat, fg: bool)
    requires x in ps
  {
    IsActive(ps[x]) ==> ps[x].priority == p && (ps[x].foreground != 0 <==> fg)
  }

  predicate NonIncreasing(ps: Procs, o: seq<nat>)
    requires Known(ps, o)
  {
    forall i, j :: 0 <= i < j < |o| ==> ps[o[i]].waitTicks >= ps[o[j]].waitTicks
  }

  /** Those dispatched since the start, d, have had their initial waits, at most w, reset. */
  function Allowance(d: set<nat>, w: nat, x: nat): nat { if x in d then 0 else w }

  /** With q ticks left to the current process, the last of o: what each has waited and must still wait at most. */
  predicate Within(ps: Procs, o: seq<nat>, q: nat, p: nat, w: nat, d: set<nat>)
    requires Known(ps, o)
  {
    && (forall i {:trigger o[i]} :: 0 <= i < |o| - 1 ==>
        ps[o[i]].waitTicks + q + i * p <= Allowance(d, w, o[i]) + (|o| - 1) * p)
    && (o != [] ==> ps[o[|o| - 1]].waitTicks <= Allowance(d, w, o[|o| - 1]))
  }

  /** A state of the round-robin of equal processes. */
  ghost predicate Fair(k: Kernel, p: nat, fg: bool, w: nat, d: set<nat>) {
    && KernelInv(k) && At(k.queue) == Cur(k) && k.queue.cursor < |k.queue.pids| && Alike(Tab(k), k.queue.pids, p, fg)
    && Known(Tab(k), Order(k)) && NonIncreasing(Tab(k), Order(k))
    && Within(Tab(k), Order(k), Tab(k)[Cur(k).value].quanta, p, w, d)
  }

  /** Of equals the first in the walk, which has waited longest, is chosen. */
  lemma FirstIsChosen(ps: Procs, q: RunQueue, p: nat, fg: bool)
    requires Known(ps, q.pids) && q.cursor < |q.pids| && Alike(ps, q.pids, p, fg)
    requires Known(ps, Rotation(q.pids, q.cursor))
    requires forall x :: x in q.pids ==> ps[x].state != Running
    requires (var o := Keep(ps, Rotation(q.pids, q.cursor)); o != [] && Known(ps, o) && NonIncreasing(ps, o))
    ensures NextReady(ps, q).0 == Some(Keep(ps, Rotation(q.pids, q.cursor))[0])
  {
    var r := Rotation(q.pids, q.cursor);
    var o := Keep(ps, r);
    RotationElems(q.pids, q.cursor);
    KeepElems(ps, r);
    var j := FirstActive(ps, r);
    assert o[0] in o && AlikeAt(ps, o[0], p, fg);
    Selection(ps, q);
    assert SomeReady(ps, q.pids);
    var n := NextReady(ps, q).0.value;
    assert n in o && AlikeAt(ps, n, p, fg);
    var a :| 0 <= a < |o| && o[a] == n;
    assert ps[o[0]].waitTicks >= ps[n].waitTicks;
    BonusMonotone(ps[n], ps[o[0]]);
    assert Effective(ps[o[0]]) == Effective(ps[n]);
    var i: nat :| i < |r| && r[i] == n && NoneBefore(ps, r, i, Effective(ps[n]), ps[n].foreground != 0);
    assert Eligible(ps[r[j]], Effective(ps[n]), ps[n].foreground != 0);
  }

  lemma BonusMonotone(a: Pcb, b: Pcb)
    requires a.waitTicks <= b.waitTicks
    ensures AgingBonus(a) <= AgingBonus(b)
  {
  }

  /** The order after the first of it has been dispatched. */
  function Turned(o: seq<nat>): seq<nat> { if o == [] then [] else o[1..] + [o[0]] }

  lemma OrderTurns(ps: Procs, pids: seq<nat>, c: nat, c': nat)
    requires NoDup(pids) && Known(ps, pids) && c < |pids| && c' < |pids| && Known(ps, Rotation(pids, c))
    requires Known(ps, Rotation(pids, c'))
    requires Keep(ps, Rotation(pids, c)) != [] && pids[c'] == Keep(ps, Rotation(pids, c))[0]
    ensures Keep(ps, Rotation(pids, c')) == Turned(Keep(ps, Rotation(pids, c)))
  {
    var r := Rotation(pids, c);
    var j := FirstActive(ps, r);
    var i := RotationShift(pids, c, j);
    assert i == c';
    KeepConcat(ps, r[j + 1..], r[..j + 1]);
  }

  /** The current process has just been made ready again, and has no ticks left. */
  ghost predicate Demoted(k: Kernel, p: nat, fg: bool, w: nat, d: set<nat>) {
    && Shape(k) && NoDup(k.queue.pids) && k.queue.cursor < |k.queue.pids| && At(k.queue) == Cur(k)
    && Alike(Tab(k), k.queue.pids, p, fg) && NoneRuns(Tab(k))
    && IsReady(Tab(k)[Cur(k).value])
    && Known(Tab(k), Order(k)) && NonIncreasing(Tab(k), Order(k)) && Within(Tab(k), Order(k), 0, p, w, d)
  }

  lemma CurIsLast(ps: Procs, pids: seq<nat>, c: nat)
    requires Known(ps, pids) && c < |pids| && IsActive(ps[pids[c]])
    ensures Known(ps, Rotation(pids, c)) && Known(ps, Keep(ps, Rotation(pids, c)))
    ensures var o := Keep(ps, Rotation(pids, c)); o != [] && o[|o| - 1] == pids[c]
  {
    var r := Rotation(pids, c);
    RotationElems(pids, c);
    assert r == r[..|r| - 1] + [pids[c]];
    KeepConcat(ps, r[..|r| - 1], [pids[c]]);
    assert [pids[c]][1..] == [];
    KeepElems(ps, r);
    assert forall i {:trigger Keep(ps, r)[i]} :: 0 <= i < |Keep(ps, r)| ==> Keep(ps, r)[i] in Keep(ps, r);
  }

  lemma OrderNoDup(ps: Procs, pids: seq<nat>, c: nat)
    requires Known(ps, pids) && c < |pids| && NoDup(pids)
    ensures Known(ps, Rotation(pids, c)) && NoDup(Keep(ps, Rotation(pids, c)))
  {
    RotationElems(pids, c);
    KeepNoDup(ps, Rotation(pids, c));
  }

  lemma {:induction false} KeepNoDup(ps: Procs, r: seq<nat>)
    requires Known(ps, r) && NoDup(r)
    ensures NoDup(Keep(ps, r))
  {
    if r != [] {
      KeepNoDup(ps, r[1..]);
      KeepElems(ps, r[1..]);
    }
  }

  lemma WaitTurnsAt(ps: Procs, o: seq<nat>, p: nat, w: nat, d: set<nat>, b: Pcb, i: nat)
    requires Known(ps, o) && NoDup(o) && Within(ps, o, 0, p, w, d) && i < |o| - 1
    ensures var ps' := ps[o[0] := b];
            Turned(o)[i] == o[i + 1] && o[i + 1] in ps' && ps'[o[i + 1]].waitTicks == ps[o[i + 1]].waitTicks
    ensures ps[o[i + 1]].waitTicks + p + i * p <= Allowance(d + {o[0]}, w, o[i + 1]) + (|o| - 1) * p
  {
    assert o[i + 1] != o[0];
    Distribute(i, p);
    if i + 1 == |o| - 1 { Distribute(|o| - 2, p); }
  }

  /** The waits after the first of o has been dispatched with p ticks to go. */
  lemma WaitsTurn(ps: Procs, o: seq<nat>, p: nat, w: nat, d: set<nat>, b: Pcb)
    requires Known(ps, o) && NoDup(o) && o != [] && NonIncreasing(ps, o) && Within(ps, o, 0, p, w, d)
    requires b.waitTicks == 0
    ensures var ps' := ps[o[0] := b];
            Known(ps', Turned(o)) && NonIncreasing(ps', Turned(o)) && Within(ps', Turned(o), p, p, w, d + {o[0]})
  {
    TurnedDecreases(ps, o, b);
    TurnedWithin(ps, o, p, w, d, b);
  }

  lemma TurnedDecreases(ps: Procs, o: seq<nat>, b: Pcb)
    requires Known(ps, o) && NoDup(o) && o != [] && NonIncreasing(ps, o) && b.waitTicks == 0
    ensures var ps' := ps[o[0] := b]; Known(ps', Turned(o)) && NonIncreasing(ps', Turned(o))
  {
  }

  lemma TurnedWithin(ps: Procs, o: seq<nat>, p: nat, w: nat, d: set<nat>, b: Pcb)
    requires Known(ps, o) && NoDup(o) && o != [] && Within(ps, o, 0, p, w, d) && b.waitTicks == 0
    requires Known(ps[o[0] := b], Turned(o))
    ensures Within(ps[o[0] := b], Turned(o), p, p, w, d + {o[0]})
  {
    var ps' := ps[o[0] := b];
    var o' := Turned(o);
    forall i | 0 <= i < |o'| - 1
      ensures ps'[o'[i]].waitTicks + p + i * p <= Allowance(d + {o[0]}, w, o'[i]) + (|o'| - 1) * p
    {
      WaitTurnsAt(ps, o, p, w, d, b, i);
    }
  }

  lemma Multiply(i: int, n: int, p: nat)
    requires i <= n
    ensures i * p <= n * p
  {
  }

  lemma Distribute(i: nat, p: nat)
    ensures p + i * p == (i + 1) * p
  {
  }

  /** The choice falls on the first of the order. */
  lemma PicksFirst(ps: Procs, q: RunQueue, p: nat, fg: bool)
    requires Known(ps, q.pids) && q.cursor < |q.pids| && Alike(ps, q.pids, p, fg) && NoneRuns(ps)
    requires IsReady(ps[q.pids[q.cursor]])
    requires Known(ps, Rotation(q.pids, q.cursor)) && Known(ps, Keep(ps, Rotation(q.pids, q.cursor)))
    requires NonIncreasing(ps, Keep(ps, Rotation(q.pids, q.cursor)))
    ensures var o := Keep(ps, Rotation(q.pids, q.cursor));
            o != [] && o[0] in q.pids && o[0] in ps && IsReady(ps[o[0]]) && NextReady(ps, q).0 == Some(o[0])
  {
    var r := Rotation(q.pids, q.cursor);
    CurIsLast(ps, q.pids, q.cursor);
    forall x | x in q.pids ensures ps[x].state != Running { assert StateOk(ps[x], false); }
    FirstIsChosen(ps, q, p, fg);
    KeepElems(ps, r);
    RotationElems(q.pids, q.cursor);
    assert Keep(ps, r)[0] in Keep(ps, r) && StateOk(ps[Keep(ps, r)[0]], false);
  }

  /** The cursor ends up on the chosen process. */
  lemma CursorOnChosen(ps: Procs, q: RunQueue, n: nat)
    requires Known(ps, q.pids) && q.cursor < |q.pids| && NextReady(ps, q).0 == Some(n) && n in q.pids && IsReady(ps[n])
    ensures var r := NextReady(ps, q).1; r == q.(cursor := r.cursor) && r.cursor < |q.pids| && q.pids[r.cursor] == n
  {
    Selection(ps, q);
    assert SomeReady(ps, q.pids);
  }

  /** The switch dispatches the first of the order. */
  lemma SwitchPicks(k: Kernel, p: nat, fg: bool, w: nat, d: set<nat>)
    requires Demoted(k, p, fg, w, d)
    ensures var o := Order(k);
            var k' := Switch(k);
            && o != [] && o[0] in k.queue.pids && o[0] in Tab(k) && IsReady(Tab(k)[o[0]]) && Cur(k') == Some(o[0])
            && k'.queue == k.queue.(cursor := k'.queue.cursor) && k'.queue.cursor < |k.queue.pids|
            && At(k'.queue) == Some(o[0])
            && Tab(k') == Tab(k)[o[0] := Tab(k)[o[0]].(waitTicks := 0, state := Running)]
  {
    PicksFirst(Tab(k), k.queue, p, fg);
    CursorOnChosen(Tab(k), k.queue, Order(k)[0]);
  }

  /** The switch dispatches the first of the order, and the order turns. */
  lemma SwitchTurns(k: Kernel, p: nat, fg: bool, w: nat, d: set<nat>)
    requires Demoted(k, p, fg, w, d)
    ensures var o := Order(k);
            var k' := Switch(k);
            && o != [] && Cur(k') == Some(o[0]) && k'.queue.pids == k.queue.pids && k'.queue.cursor < |k.queue.pids|
            && At(k'.queue) == Cur(k')
            && Known(Tab(k'), k'.queue.pids) && Order(k') == Turned(o) && Known(Tab(k'), Order(k'))
            && NonIncreasing(Tab(k'), Order(k')) && Within(Tab(k'), Order(k'), p, p, w, d + {o[0]})
            && Alike(Tab(k'), k'.queue.pids, p, fg)
  {
    var ps := Tab(k);
    var o := Order(k);
    SwitchPicks(k, p, fg, w, d);
    var k' := Switch(k);
    OrderNoDup(ps, k.queue.pids, k.queue.cursor);
    OrderAfter(ps, Tab(k'), k.queue.pids, k.queue.cursor, k'.queue.cursor);
    WaitsTurn(ps, o, p, w, d, Tab(k')[o[0]]);
    AlikeAfter(ps, k.queue.pids, p, fg, o[0]);
  }

  lemma AlikeAfter(ps: Procs, pids: seq<nat>, p: nat, fg: bool, n: nat)
    requires Alike(ps, pids, p, fg) && n in ps && n in pids && IsReady(ps[n])
    ensures Alike(ps[n := ps[n].(waitTicks := 0, state := Running)], pids, p, fg)
  {
    var ps' := ps[n := ps[n].(waitTicks := 0, state := Running)];
    forall x | x in pids && x in ps' ensures AlikeAt(ps', x, p, fg) { assert AlikeAt(ps, x, p, fg); }
  }

  lemma OrderAfter(ps: Procs, ps': Procs, pids: seq<nat>, c: nat, c': nat)
    requires NoDup(pids) && Known(ps, pids) && Known(ps', pids) && c < |pids| && c' < |pids|
    requires Known(ps, Rotation(pids, c)) && Keep(ps, Rotation(pids, c)) != []
    requires pids[c'] == Keep(ps, Rotation(pids, c))[0]
    requires forall x :: x in pids ==> (IsActive(ps[x]) <==> IsActive(ps'[x]))
    ensures Known(ps', Rotation(pids, c')) && Keep(ps', Rotation(pids, c')) == Turned(Keep(ps, Rotation(pids, c)))
  {
    RotationElems(pids, c');
    OrderTurns(ps, pids, c, c');
    KeepSame(ps, ps', Rotation(pids, c'));
  }

  // ---------------------------------------------------------------- ticks and yields

  lemma OrderKnown(k: Kernel)
    requires Known(Tab(k), k.queue.pids) && k.queue.cursor < |k.queue.pids|
    ensures Known(Tab(k), Order(k)) && forall x :: x in Order(k) <==> x in k.queue.pids && IsActive(Tab(k)[x])
  {
    var r := Rotation(k.queue.pids, k.queue.cursor);
    RotationElems(k.queue.pids, k.queue.cursor);
    KeepElems(Tab(k), r);
    assert forall i {:trigger Keep(Tab(k), r)[i]} :: 0 <= i < |Keep(Tab(k), r)| ==>
           Keep(Tab(k), r)[i] in Keep(Tab(k), r);
  }

  /** A tick of waiting for all but the current process, which has one tick less. */
  lemma WaitsTick(ps: Procs, ps': Procs, o: seq<nat>, q: nat, p: nat, w: nat, d: set<nat>)
    requires Known(ps, o) && Known(ps', o) && NonIncreasing(ps, o) && Within(ps, o, q, p, w, d) && q > 0
    requires forall i {:trigger o[i]} :: 0 <= i < |o| ==>
             ps'[o[i]].waitTicks == ps[o[i]].waitTicks + if i < |o| - 1 then 1 else 0
    ensures NonIncreasing(ps', o) && Within(ps', o, q - 1, p, w, d)
  {
  }

  /** What a tick does to an active process of the queue. */
  lemma AgedAt(k: Kernel, x: nat)
    requires KernelInv(k) && x in k.queue.pids && x in Tab(k)
    ensures x in Tab(Aged(k)) && (IsActive(Tab(Aged(k))[x]) <==> IsActive(Tab(k)[x]))
    ensures Tab(Aged(k))[x].priority == Tab(k)[x].priority && Tab(Aged(k))[x].foreground == Tab(k)[x].foreground
    ensures IsActive(Tab(k)[x]) ==>
            Tab(Aged(k))[x].waitTicks == Tab(k)[x].waitTicks + if Cur(k) == Some(x) then 0 else 1
  {
    assert StateAt(k.view, x);
  }

  lemma AgedAlike(k: Kernel, p: nat, fg: bool)
    requires KernelInv(k) && Alike(Tab(k), k.queue.pids, p, fg)
    ensures Alike(Tab(Aged(k)), k.queue.pids, p, fg)
  {
    forall x | x in k.queue.pids && x in Tab(Aged(k)) ensures AlikeAt(Tab(Aged(k)), x, p, fg) {
      AgedAt(k, x);
      assert AlikeAt(Tab(k), x, p, fg);
    }
  }

  lemma AgedOrder(k: Kernel)
    requires KernelInv(k) && k.queue.cursor < |k.queue.pids|
    ensures Known(Tab(Aged(k)), k.queue.pids) && Order(Aged(k)) == Order(k)
  {
    var r := Rotation(k.queue.pids, k.queue.cursor);
    RotationElems(k.queue.pids, k.queue.cursor);
    forall i | 0 <= i < |r| ensures IsActive(Tab(k)[r[i]]) <==> IsActive(Tab(Aged(k))[r[i]]) {
      assert r[i] in r;
      AgedAt(k, r[i]);
    }
    KeepSame(Tab(k), Tab(Aged(k)), r);
  }

  lemma AgedWaits(k: Kernel, p: nat, fg: bool, w: nat, d: set<nat>)
    requires Fair(k, p, fg, w, d)
    ensures Known(Tab(Aged(k)), Order(k)) && NonIncreasing(Tab(Aged(k)), Order(k))
    ensures Within(Tab(Aged(k)), Order(k), Less(Tab(k)[Cur(k).value].quanta), p, w, d)
  {
    var ps := Tab(k);
    var o := Order(k);
    assert StateAt(k.view, Cur(k).value);
    OrderKnown(k);
    CurIsLast(ps, k.queue.pids, k.queue.cursor);
    OrderNoDup(ps, k.queue.pids, k.queue.cursor);
    forall i | 0 <= i < |o|
      ensures o[i] in Tab(Aged(k)) && Tab(Aged(k))[o[i]].waitTicks == ps[o[i]].waitTicks + if i < |o| - 1 then 1 else 0
    {
      assert o[i] in o;
      AgedAt(k, o[i]);
    }
    WaitsTick(ps, Tab(Aged(k)), o, ps[Cur(k).value].quanta, p, w, d);
  }

  /** The current process's own state and ticks are no part of the order, the waits or the likeness. */
  lemma OwnFrame(ps: Procs, q: RunQueue, b: Pcb, p: nat, fg: bool, left: nat, w: nat, d: set<nat>)
    requires Known(ps, q.pids) && q.cursor < |q.pids| && IsActive(ps[q.pids[q.cursor]]) && IsActive(b)
    requires b.waitTicks == ps[q.pids[q.cursor]].waitTicks && b.priority == ps[q.pids[q.cursor]].priority
    requires b.foreground == ps[q.pids[q.cursor]].foreground
    requires Alike(ps, q.pids, p, fg) && Known(ps, Rotation(q.pids, q.cursor))
    requires (var o := Keep(ps, Rotation(q.pids, q.cursor));
              Known(ps, o) && NonIncreasing(ps, o) && Within(ps, o, left, p, w, d))
    ensures var ps' := ps[q.pids[q.cursor] := b];
            var o := Keep(ps, Rotation(q.pids, q.cursor));
            && Known(ps', q.pids) && Known(ps', Rotation(q.pids, q.cursor))
            && Keep(ps', Rotation(q.pids, q.cursor)) == o
            && Known(ps', o) && NonIncreasing(ps', o) && Within(ps', o, left, p, w, d) && Alike(ps', q.pids, p, fg)
  {
    var ps' := ps[q.pids[q.cursor] := b];
    KeepSame(ps, ps', Rotation(q.pids, q.cursor));
    assert AlikeAt(ps, q.pids[q.cursor], p, fg);
    forall x | x in q.pids && x in ps' ensures AlikeAt(ps', x, p, fg) { assert AlikeAt(ps, x, p, fg); }
  }

  lemma WithinLess(ps: Procs, o: seq<nat>, q: nat, q': nat, p: nat, w: nat, d: set<nat>)
    requires Known(ps, o) && Within(ps, o, q, p, w, d) && q' <= q
    ensures Within(ps, o, q', p, w, d)
  {
  }

  /** What one entry does to equals: nothing changes hands, or the first of the order takes over and the order turns;
      d collects who takes over. */
  ghost predicate TurnsTo(k: Kernel, e: Event, k': Kernel, p: nat, fg: bool, w: nat, d: set<nat>)
    requires KernelInv(k) && KernelInv(k') && k.queue.cursor < |k.queue.pids| && k'.queue.cursor < |k'.queue.pids|
  {
    if IsSwitch(k, e) then
      && Order(k) != [] && Order(k') == Turned(Order(k)) && Cur(k') == Some(Order(k)[0])
      && Fair(k', p, fg, w, d + {Order(k)[0]}) && Tab(k')[Cur(k').value].quanta == p
    else
      && Order(k') == Order(k) && Cur(k') == Cur(k) && Fair(k', p, fg, w, d)
      && Tab(k')[Cur(k').value].quanta == Tab(k)[Cur(k).value].quanta - if e.Timer? then 1 else 0
  }

  /** The current process made ready, with its ticks restored. */
  function Demote(k: Kernel): Kernel
    requires Cur(k).Some? && Cur(k).value in Tab(k)
  {
    With(k, Cur(k).value, Tab(k)[Cur(k).value].(state := State.Ready, quanta := Tab(k)[Cur(k).value].priority))
  }

  /** What the order and the waits of k look like, the current process aside. */
  ghost predicate Ready0(k: Kernel, p: nat, fg: bool, w: nat, d: set<nat>) {
    && k.queue.cursor < |k.queue.pids| && At(k.queue) == Cur(k) && Known(Tab(k), k.queue.pids)
    && Alike(Tab(k), k.queue.pids, p, fg)
    && Known(Tab(k), Order(k)) && NonIncreasing(Tab(k), Order(k)) && Within(Tab(k), Order(k), 0, p, w, d)
  }

  lemma DemotedIs(k: Kernel, p: nat, fg: bool, w: nat, d: set<nat>)
    requires Ready0(k, p, fg, w, d) && Base(k) && IdleOk(k) && StatesOk(k.view) && Tab(k)[Cur(k).value].state == Running
    ensures Demoted(Demote(k), p, fg, w, d) && Order(Demote(k)) == Order(k)
  {
    var c := Cur(k).value;
    var b := Tab(k)[c].(state := State.Ready, quanta := Tab(k)[c].priority);
    RotationElems(k.queue.pids, k.queue.cursor);
    OwnFrame(Tab(k), k.queue, b, p, fg, 0, w, d);
    forall x | x in Tab(Demote(k)) ensures StateOk(Tab(Demote(k))[x], false) { assert StateAt(k.view, x); }
  }

  /** The switch away from a demoted current process. */
  lemma TurnFair(k: Kernel, p: nat, fg: bool, w: nat, d: set<nat>)
    requires Ready0(k, p, fg, w, d) && Base(k) && IdleOk(k) && StatesOk(k.view) && Tab(k)[Cur(k).value].state == Running
    requires Shape(Demote(k)) && KernelInv(Switch(Demote(k)))
    ensures var k' := Switch(Demote(k));
            && Order(k) != [] && Fair(k', p, fg, w, d + {Order(k)[0]}) && Order(k') == Turned(Order(k))
            && Cur(k') == Some(Order(k)[0])
            && Tab(k')[Cur(k').value].quanta == Tab(k')[Cur(k').value].priority == p
  {
    var m := Demote(k);
    DemotedIs(k, p, fg, w, d);
    SwitchPicks(m, p, fg, w, d);
    SwitchTurns(m, p, fg, w, d);
    var n := Order(m)[0];
    assert StateOk(Tab(m)[n], false) && AlikeAt(Tab(m), n, p, fg);
  }

  /** The current process of a round-robin is not idle. */
  lemma FairNotIdle(k: Kernel, p: nat, fg: bool, w: nat, d: set<nat>)
    requires Fair(k, p, fg, w, d)
    ensures Cur(k) != k.queue.idle && Cur(k).value in k.queue.pids
  {
    assert k.queue.pids[k.queue.cursor] in k.queue.pids;
  }

  lemma AgedReady0(k: Kernel, p: nat, fg: bool, w: nat, d: set<nat>)
    requires Fair(k, p, fg, w, d)
    ensures var k1 := Aged(k);
            && Ready0(k1, p, fg, w, d) && Order(k1) == Order(k) && Mid(k1) && Tab(k1)[Cur(k).value].state == Running
            && Within(Tab(k1), Order(k1), Less(Tab(k)[Cur(k).value].quanta), p, w, d)
            && Tab(k1)[Cur(k).value].quanta == Tab(k)[Cur(k).value].quanta
  {
    AgedKeeps(k);
    AgedAlike(k, p, fg);
    AgedOrder(k);
    AgedWaits(k, p, fg, w, d);
    assert StateAt(k.view, Cur(k).value);
    WithinLess(Tab(Aged(k)), Order(k), Less(Tab(k)[Cur(k).value].quanta), 0, p, w, d);
  }

  lemma TickIs(k: Kernel)
    requires KernelInv(k) && Tab(k)[Cur(k).value].quanta > 1
    ensures Shape(k) && Cur(k).value in Tab(Aged(k))
    ensures Tick(k) ==
            With(Aged(k), Cur(k).value, Tab(Aged(k))[Cur(k).value].(quanta := Tab(k)[Cur(k).value].quanta - 1))
  {
    TickKeeps(k);
    assert StateAt(k.view, Cur(k).value);
    OneRuns(k);
  }

  lemma QuantaFair(k: Kernel, q: nat, p: nat, fg: bool, w: nat, d: set<nat>)
    requires Ready0(k, p, fg, w, d) && Cur(k).Some? && Tab(k)[Cur(k).value].state == Running
    requires Within(Tab(k), Order(k), q, p, w, d)
    requires KernelInv(With(k, Cur(k).value, Tab(k)[Cur(k).value].(quanta := q)))
    ensures var k' := With(k, Cur(k).value, Tab(k)[Cur(k).value].(quanta := q));
            Fair(k', p, fg, w, d) && Order(k') == Order(k)
  {
    RotationElems(k.queue.pids, k.queue.cursor);
    OwnFrame(Tab(k), k.queue, Tab(k)[Cur(k).value].(quanta := q), p, fg, q, w, d);
  }

  /** A tick that leaves the current process some. */
  lemma TickOn(k: Kernel, p: nat, fg: bool, w: nat, d: set<nat>)
    requires Fair(k, p, fg, w, d) && Tab(k)[Cur(k).value].quanta > 1
    ensures Shape(k) && Fair(Tick(k), p, fg, w, d) && Order(Tick(k)) == Order(k) && Cur(Tick(k)) == Cur(k)
    ensures Tab(Tick(k))[Cur(k).value].quanta == Tab(k)[Cur(k).value].quanta - 1
  {
    TickKeeps(k);
    TickIs(k);
    AgedReady0(k, p, fg, w, d);
    QuantaFair(Aged(k), Tab(k)[Cur(k).value].quanta - 1, p, fg, w, d);
  }

  /** The tick that ends its turn. */
  lemma TickOver(k: Kernel, p: nat, fg: bool, w: nat, d: set<nat>)
    requires Fair(k, p, fg, w, d) && Tab(k)[Cur(k).value].quanta == 1
    ensures Shape(k) && Order(k) != [] && Fair(Tick(k), p, fg, w, d + {Order(k)[0]})
    ensures Order(Tick(k)) == Turned(Order(k)) && Cur(Tick(k)) == Some(Order(k)[0])
    ensures Tab(Tick(k))[Cur(Tick(k)).value].quanta == Tab(Tick(k))[Cur(Tick(k)).value].priority == p
  {
    TickKeeps(k);
    AgedReady0(k, p, fg, w, d);
    assert Tick(k) == Switch(Demote(Aged(k)));
    DemotedIs(Aged(k), p, fg, w, d);
    TurnFair(Aged(k), p, fg, w, d);
  }

  lemma TickFair(k: Kernel, p: nat, fg: bool, w: nat, d: set<nat>)
    requires Fair(k, p, fg, w, d)
    ensures KernelInv(Tick(k)) && Tick(k).queue.cursor < |Tick(k).queue.pids| && TurnsTo(k, Timer, Tick(k), p, fg, w, d)
  {
    FairNotIdle(k, p, fg, w, d);
    assert StateAt(k.view, Cur(k).value);
    if Tab(k)[Cur(k).value].quanta > 1 { TickOn(k, p, fg, w, d); } else { TickOver(k, p, fg, w, d); }
  }

  /** The saved RAX slot of the current process is no part of it. */
  lemma SaveRaxReady0(k: Kernel, p: nat, fg: bool, w: nat, d: set<nat>, rax: int)
    requires Fair(k, p, fg, w, d)
    ensures Ready0(SaveRax(k, rax), p, fg, w, d) && Order(SaveRax(k, rax)) == Order(k) && Mid(SaveRax(k, rax))
    ensures Tab(SaveRax(k, rax))[Cur(k).value].state == Running
  {
    var c := Cur(k).value;
    SaveRaxKeeps(k, rax);
    assert StateAt(k.view, c);
    WithinLess(Tab(k), Order(k), Tab(k)[c].quanta, 0, p, w, d);
    RotationElems(k.queue.pids, k.queue.cursor);
    OwnFrame(Tab(k), k.queue, Tab(k)[c].(savedRax := rax), p, fg, 0, w, d);
  }

  /** The yield's own changes to the current process come to making it ready with its ticks restored. */
  lemma PausedIs(k: Kernel, rax: int)
    requires Cur(k).Some? && Cur(k).value in Tab(k) && !k.view.force
    ensures var s := SaveRax(YieldCall(k), rax);
            s.view.force && Pause(s.(view := s.view.(force := false))) == Demote(SaveRax(k, rax))
  {
    var c := Cur(k).value;
    var s := SaveRax(YieldCall(k), rax);
    var b := Tab(k)[c].(state := State.Ready, savedRax := rax);
    assert Tab(s) == Tab(k)[c := b];
    assert Tab(Demote(SaveRax(k, rax))) == Tab(k)[c := b.(quanta := b.priority)];
    assert Tab(Pause(s.(view := s.view.(force := false)))) == Tab(k)[c := b.(quanta := b.priority)];
  }

  lemma YieldIs(k: Kernel, rax: int)
    requires KernelInv(k) && Cur(k) != k.queue.idle
    ensures Shape(Demote(SaveRax(k, rax)))
    ensures KernelTheorems.After(k, Syscall(Yield, rax)) == Switch(Demote(SaveRax(k, rax)))
    ensures KernelInv(Switch(Demote(SaveRax(k, rax))))
  {
    PausedIs(k, rax);
    CallKeeps(k, Yield, rax);
    SaveRaxKeeps(YieldCall(k), rax);
    LeaveKeeps(SaveRax(YieldCall(k), rax));
  }

  lemma YieldFair(k: Kernel, p: nat, fg: bool, w: nat, d: set<nat>, rax: int)
    requires Fair(k, p, fg, w, d)
    ensures Cur(k) != k.queue.idle
    ensures var e := Syscall(Yield, rax);
            var k' := KernelTheorems.After(k, e);
            KernelInv(k') && k'.queue.cursor < |k'.queue.pids| && TurnsTo(k, e, k', p, fg, w, d)
  {
    FairNotIdle(k, p, fg, w, d);
    SaveRaxReady0(k, p, fg, w, d, rax);
    YieldIs(k, rax);
    TurnFair(SaveRax(k, rax), p, fg, w, d);
  }

  /** What the scheduler does not look at is no part of the order, the waits or the likeness. */
  lemma SameFair(k: Kernel, k': Kernel, p: nat, fg: bool, w: nat, d: set<nat>)
    requires Fair(k, p, fg, w, d) && KernelInv(k')
    requires k'.queue == k.queue && Cur(k') == Cur(k) && SameSched(Tab(k), Tab(k'))
    ensures Fair(k', p, fg, w, d) && Order(k') == Order(k)
  {
    var ps := Tab(k);
    var ps' := Tab(k');
    var r := Rotation(k.queue.pids, k.queue.cursor);
    RotationElems(k.queue.pids, k.queue.cursor);
    assert forall x :: x in ps ==> x in ps' && SameAt(ps[x], ps'[x]);
    KeepSame(ps, ps', r);
    forall x | x in k.queue.pids && x in ps' ensures AlikeAt(ps', x, p, fg) { assert AlikeAt(ps, x, p, fg); }
    SameWaits(ps, ps', Order(k), ps[Cur(k).value].quanta, p, w, d);
  }

  lemma SameWaits(ps: Procs, ps': Procs, o: seq<nat>, q: nat, p: nat, w: nat, d: set<nat>)
    requires Known(ps, o) && NonIncreasing(ps, o) && Within(ps, o, q, p, w, d) && SameSched(ps, ps')
    ensures Known(ps', o) && NonIncreasing(ps', o) && Within(ps', o, q, p, w, d)
  {
    forall i | 0 <= i < |o| ensures o[i] in ps' && ps'[o[i]].waitTicks == ps[o[i]].waitTicks {
      assert o[i] in ps.Keys;
      assert SameAt(ps[o[i]], ps'[o[i]]);
    }
  }

  // ---------------------------------------------------------------- runs

  lemma TurnKeepsFair(k: Kernel, e: Event, p: nat, fg: bool, w: nat, d: set<nat>)
    requires Fair(k, p, fg, w, d) && Enabled(k, e) && IsTurn(k, e)
    ensures var k' := KernelTheorems.After(k, e);
            KernelInv(k') && k'.queue.cursor < |k'.queue.pids| && TurnsTo(k, e, k', p, fg, w, d)
  {
    if e.Timer? {
      TickFair(k, p, fg, w, d);
    } else if IsYield(e) {
      YieldFair(k, p, fg, w, d, e.rax);
    } else {
      StepKeeps(k, e);
      SameFair(k, KernelTheorems.After(k, e), p, fg, w, d);
      assert SameAt(Tab(k)[Cur(k).value], Tab(KernelTheorems.After(k, e))[Cur(k).value]);
    }
  }

  /** The i-th of o, going round and round. */
  function CyclicAt(o: seq<nat>, i: nat): nat
    requires o != []
    decreases i
  {
    if i < |o| then o[i] else CyclicAt(o, i - |o|)
  }

  /** A turn moves everybody one place forward. */
  lemma {:induction false} CyclicTurned(o: seq<nat>, i: nat)
    requires o != []
    ensures Turned(o) != [] && CyclicAt(Turned(o), i) == CyclicAt(o, i + 1)
    decreases i
  {
    if i >= |o| { CyclicTurned(o, i - |o|); }
  }

  lemma OneTurn(k: Kernel, e: Event, p: nat, fg: bool, w: nat, d: set<nat>)
    requires Fair(k, p, fg, w, d) && Enabled(k, e) && IsTurn(k, e)
    ensures var k' := KernelTheorems.After(k, e);
            Fair(k', p, fg, w, d + Getter(k, e)) && Order(k') == if IsSwitch(k, e) then Turned(Order(k)) else Order(k)
  {
    TurnKeepsFair(k, e, p, fg, w, d);
    assert d + {} == d;
  }

  /** The first entry of a run: n switches take place, and g gets the CPU. */
  lemma FirstTurn(k: Kernel, es: seq<Event>, p: nat, fg: bool, w: nat, d: set<nat>)
    returns (k': Kernel, g: set<nat>, n: nat)
    requires Fair(k, p, fg, w, d) && Runs(k, es) && Steady(k, es) && es != []
    ensures Fair(k', p, fg, w, d + g) && Runs(k', es[1..]) && Steady(k', es[1..]) && End(k, es) == End(k', es[1..])
    ensures Order(k) != [] && n <= 1 && Order(k') == (if n == 0 then Order(k) else Turned(Order(k)))
    ensures g == (if n == 0 then {} else {Order(k)[0]})
    ensures Switches(k, es) == n + Switches(k', es[1..]) && Dispatched(k, es) == g + Dispatched(k', es[1..])
  {
    CurAtEnd(k, p, fg, w, d);
    TurnKeepsFair(k, es[0], p, fg, w, d);
    OneTurn(k, es[0], p, fg, w, d);
    k' := KernelTheorems.After(k, es[0]);
    g := Getter(k, es[0]);
    n := if IsSwitch(k, es[0]) then 1 else 0;
  }

  /** Over a run the waits of those dispatched start anew. */
  lemma {:induction false} RunTurns(k: Kernel, es: seq<Event>, p: nat, fg: bool, w: nat, d: set<nat>)
    returns (e: Kernel, g: set<nat>)
    requires Fair(k, p, fg, w, d) && Runs(k, es) && Steady(k, es)
    ensures e == End(k, es) && g == d + Dispatched(k, es) && Fair(e, p, fg, w, g)
    decreases |es|
  {
    if es == [] {
      e, g := k, d;
    } else {
      var k', g0, n := FirstTurn(k, es, p, fg, w, d);
      e, g := RunTurns(k', es[1..], p, fg, w, d + g0);
    }
  }

  /** Nobody joins the order, and nobody leaves it. */
  lemma {:induction false} RunMembers(k: Kernel, es: seq<Event>, p: nat, fg: bool, w: nat, d: set<nat>, x: nat)
    requires Fair(k, p, fg, w, d) && Runs(k, es) && Steady(k, es) && x in Order(k)
    requires (var e := End(k, es); e.queue.cursor < |e.queue.pids| && Known(Tab(e), e.queue.pids))
    ensures |Order(End(k, es))| == |Order(k)| && x in Order(End(k, es))
    decreases |es|
  {
    if es != [] {
      var k', g, n := FirstTurn(k, es, p, fg, w, d);
      assert x in Turned(Order(k)) by { TurnedElems(Order(k), x); }
      RunMembers(k', es[1..], p, fg, w, d + g, x);
    }
  }

  lemma TurnedElems(o: seq<nat>, x: nat)
    requires x in o
    ensures x in Turned(o) && |Turned(o)| == |o|
  {
    assert o == [o[0]] + o[1..];
  }

  /** The one who gets the CPU at the last of s switches, the last of o having it now. */
  predicate LastOf(o: seq<nat>, s: nat, x: nat) {
    o != [] && x == CyclicAt(o, |o| - 1 + s)
  }

  lemma NextInTurn(o: seq<nat>, o': seq<nat>, n: nat, m: nat, s: nat, x: nat)
    requires LastOf(o, s, x) && n <= 1 && s == n + m && o' == if n == 0 then o else Turned(o)
    ensures LastOf(o', m, x)
  {
    if n == 1 { CyclicTurned(o, |o| - 1 + m); }
  }

  /** Each switch gives the CPU to the next in the order. */
  lemma {:induction false} RunCur(k: Kernel, es: seq<Event>, p: nat, fg: bool, w: nat, d: set<nat>, x: nat)
    requires Fair(k, p, fg, w, d) && Runs(k, es) && Steady(k, es) && LastOf(Order(k), Switches(k, es), x)
    ensures Cur(End(k, es)) == Some(x)
    decreases |es|
  {
    if es == [] {
      CurAtEnd(k, p, fg, w, d);
    } else {
      var k', g, n := FirstTurn(k, es, p, fg, w, d);
      NextInTurn(Order(k), Order(k'), n, Switches(k', es[1..]), Switches(k, es), x);
      RunCur(k', es[1..], p, fg, w, d + g, x);
    }
  }

  /** The first of the order are dispatched first. */
  lemma {:induction false} RunDispatches(k: Kernel, es: seq<Event>, p: nat, fg: bool, w: nat, d: set<nat>, i: nat)
    requires Fair(k, p, fg, w, d) && Runs(k, es) && Steady(k, es) && i < |Order(k)| && i < Switches(k, es)
    ensures Order(k)[i] in Dispatched(k, es)
    decreases |es|
  {
    var k', g, n := FirstTurn(k, es, p, fg, w, d);
    if n == 0 {
      RunDispatches(k', es[1..], p, fg, w, d + g, i);
    } else if i > 0 {
      RunDispatches(k', es[1..], p, fg, w, d + g, i - 1);
    }
  }

  /** Equal processes that have waited equally long, all but the current one, which may have waited less. */
  ghost predicate EqualStart(k: Kernel, p: nat, fg: bool, w: nat) {
    && KernelInv(k) && k.queue.cursor < |k.queue.pids| && At(k.queue) == Cur(k) && Alike(Tab(k), k.queue.pids, p, fg)
    && Tab(k)[Cur(k).value].waitTicks <= w
    && forall x {:trigger Tab(k)[x].waitTicks} ::
         x in k.queue.pids && IsActive(Tab(k)[x]) && Cur(k) != Some(x) ==> Tab(k)[x].waitTicks == w
  }

  /** Equal processes in any run in which nobody blocks, wakes, comes or goes: the CPU goes round in strict cyclic
      order, one step at each switch. */
  lemma StrictRoundRobin(k: Kernel, es: seq<Event>, p: nat, fg: bool, w: nat)
    requires EqualStart(k, p, fg, w) && Runs(k, es) && Steady(k, es)
    ensures Order(k) != [] && Cur(k) == Some(Order(k)[|Order(k)| - 1])
    ensures Cur(End(k, es)) == Some(CyclicAt(Order(k), |Order(k)| - 1 + Switches(k, es)))
  {
    EqualWaitsAreFair(k, p, fg, w);
    CurAtEnd(k, p, fg, w, {});
    FairCur(k, es, p, fg, w);
  }

  lemma FairCur(k: Kernel, es: seq<Event>, p: nat, fg: bool, w: nat)
    requires Fair(k, p, fg, w, {}) && Runs(k, es) && Steady(k, es) && Order(k) != []
    ensures Cur(End(k, es)) == Some(CyclicAt(Order(k), |Order(k)| - 1 + Switches(k, es)))
  {
    RunCur(k, es, p, fg, w, {}, CyclicAt(Order(k), |Order(k)| - 1 + Switches(k, es)));
  }

  lemma CurAtEnd(k: Kernel, p: nat, fg: bool, w: nat, d: set<nat>)
    requires Fair(k, p, fg, w, d)
    ensures Order(k) != [] && Cur(k) == Some(Order(k)[|Order(k)| - 1])
  {
    assert StateAt(k.view, Cur(k).value);
    CurIsLast(Tab(k), k.queue.pids, k.queue.cursor);
  }

  lemma WaitBound(ps: Procs, o: seq<nat>, q: nat, p: nat, w: nat, d: set<nat>, x: nat)
    requires Known(ps, o) && Within(ps, o, q, p, w, d) && x in o && x in ps
    ensures ps[x].waitTicks <= Allowance(d, w, x) + (|o| - 1) * p
  {
    var i: nat :| i < |o| && o[i] == x;
    Multiply(0, i, p);
    Multiply(0, |o| - 1, p);
  }

  /** From equal waits w, none of the n ready or running processes waits more than (n - 1) further turns of p ticks
      until it first gets the CPU, and more than (n - 1) turns ever after; and in n switches everybody gets the CPU. */
  lemma NobodyWaitsLong(k: Kernel, es: seq<Event>, p: nat, fg: bool, w: nat, x: nat)
    requires EqualStart(k, p, fg, w) && Runs(k, es) && Steady(k, es)
    requires x in k.queue.pids && IsActive(Tab(k)[x])
    ensures x in Tab(End(k, es))
    ensures Tab(End(k, es))[x].waitTicks <= (if x in Dispatched(k, es) then 0 else w) + (|Order(k)| - 1) * p
    ensures Switches(k, es) >= |Order(k)| ==> x in Dispatched(k, es)
  {
    EqualWaitsAreFair(k, p, fg, w);
    OrderKnown(k);
    assert x in Order(k);
    var e, g := RunTurns(k, es, p, fg, w, {});
    RunMembers(k, es, p, fg, w, {}, x);
    OrderKnown(e);
    WaitBound(Tab(e), Order(e), Tab(e)[Cur(e).value].quanta, p, w, g, x);
    if Switches(k, es) >= |Order(k)| {
      var i: nat :| i < |Order(k)| && Order(k)[i] == x;
      RunDispatches(k, es, p, fg, w, {}, i);
    }
  }

  /** Equal waits make a fair start. */
  lemma EqualWaitsAreFair(k: Kernel, p: nat, fg: bool, w: nat)
    requires EqualStart(k, p, fg, w)
    ensures Fair(k, p, fg, w, {})
  {
    OrderKnown(k);
    var o := Order(k);
    var c := Cur(k).value;
    assert k.queue.pids[k.queue.cursor] in k.queue.pids;
    assert StateAt(k.view, c) && AlikeAt(Tab(k), c, p, fg);
    CurIsLast(Tab(k), k.queue.pids, k.queue.cursor);
    OrderNoDup(Tab(k), k.queue.pids, k.queue.cursor);
    forall i | 0 <= i < |o| - 1 ensures Tab(k)[o[i]].waitTicks == w { assert o[i] in o; }
    EqualWithin(Tab(k), o, Tab(k)[c].quanta, p, w);
  }

  lemma EqualWithin(ps: Procs, o: seq<nat>, q: nat, p: nat, w: nat)
    requires Known(ps, o) && q <= p && forall i {:trigger o[i]} :: 0 <= i < |o| - 1 ==> ps[o[i]].waitTicks == w
    requires o != [] && ps[o[|o| - 1]].waitTicks <= w
    ensures Within(ps, o, q, p, w, {})
  {
    forall i | 0 <= i < |o| - 1 ensures q + i * p <= (|o| - 1) * p {
      Distribute(i, p);
      Multiply(i + 1, |o| - 1, p);
    }
  }
}
