/**
 Which of two ready processes the scheduler puts first, and how many points of aging it takes to change that.
 */
module Ranks {
  import opened Processes
  import opened Scheduler

  /** Priority with the advantage of the foreground, and without aging. */
  function Rank(b: Pcb): nat { b.priority + if b.foreground != 0 then 1 else 0 }

  predicate Preferred(b: Pcb, a: Pcb) { b.foreground != 0 && a.foreground == 0 }

  /** b is chosen before a wherever the cursor is: it has the higher score, or the same and the foreground decides. */
  predicate Ahead(b: Pcb, a: Pcb) {
    Effective(b) > Effective(a) || (Effective(b) == Effective(a) && Preferred(b, a))
  }

  /** The points of aging that a needs not to come after b when b has not waited. */
  function Gap(a: Pcb, b: Pcb): nat {
    var g := Rank(b) - Rank(a) + if Preferred(b, a) then 1 else 0;
    if g > 0 then g else 0
  }

  lemma GapMakesUp(a: Pcb, b: Pcb)
    requires b.waitTicks == 0
    ensures Ahead(b, a) <==> AgingBonus(a) < Gap(a, b)
  {
  }

  /** More points than aging gives. */
  predicate Outranks(b: Pcb, a: Pcb) { Gap(a, b) > MAX_AGING_BONUS }

  /** That is: b comes first however long the two have waited. */
  lemma OutranksIff(b: Pcb, a: Pcb)
    ensures Outranks(b, a) <==>
            forall i: nat, j: nat {:trigger b.(waitTicks := i), a.(waitTicks := j)} ::
              Ahead(b.(waitTicks := i), a.(waitTicks := j))
  {
    if !Outranks(b, a) {
      var j := MAX_AGING_BONUS * AGING_INTERVAL;
      assert AgingBonus(a.(waitTicks := j)) == MAX_AGING_BONUS;
      assert !Ahead(b.(waitTicks := 0), a.(waitTicks := j));
    }
  }

  /** Of the priorities there are, it takes three more, and the foreground. */
  lemma StarvingPairs(b: Pcb, a: Pcb)
    requires MIN_PRIORITY <= a.priority <= MAX_PRIORITY && MIN_PRIORITY <= b.priority <= MAX_PRIORITY
    ensures Outranks(b, a) <==> Preferred(b, a) && b.priority >= a.priority + 3
  {
  }

  /** Whoever is chosen, nobody who is ready is ahead of it. */
  lemma ChoiceBest(ps: Procs, q: RunQueue, x: nat, y: nat)
    requires Known(ps, q.pids) && CursorOk(q) && NextReady(ps, q).0 == Some(x) && q.idle != Some(x)
    requires x in ps && y in q.pids && IsReady(ps[y])
    ensures !Ahead(ps[y], ps[x]) && !Outranks(ps[y], ps[x])
  {
    Selection(ps, q);
    OutranksIff(ps[y], ps[x]);
    assert ps[y].(waitTicks := ps[y].waitTicks) == ps[y] && ps[x].(waitTicks := ps[x].waitTicks) == ps[x];
  }

  /** And whoever is ready and ahead of all the others who are is chosen. */
  lemma ChoiceFirst(ps: Procs, q: RunQueue, x: nat)
    requires Known(ps, q.pids) && CursorOk(q) && x in q.pids && x in ps && IsReady(ps[x])
    requires forall z :: z in q.pids && z in ps && z != x && IsReady(ps[z]) ==> Ahead(ps[x], ps[z])
    ensures NextReady(ps, q).0 == Some(x)
  {
    Selection(ps, q);
    assert SomeReady(ps, q.pids);
    var z := NextReady(ps, q).0.value;
    assert z != x ==> Ahead(ps[x], ps[z]);
  }
}
