/**
 The run queue of scheduler.c in place: an array of PCB slots, shifted to insert and to remove, with its round-robin
 cursor. Each operation is shown to do what Scheduler says of pids.
 */
module SchedulerTable {
  import opened Processes
  import opened ProcessTable
  import Spec = Scheduler

  /** The pids of a sequence of slots. */
  function PidsOf(t: seq<Pcb>, q: seq<nat>): (r: seq<nat>)
    requires forall i {:trigger q[i]} :: 0 <= i < |q| ==> q[i] < |t|
    ensures |r| == |q|
  {
    seq(|q|, i requires 0 <= i < |q| => t[q[i]].pid)
  }

  ghost predicate SlotsOk(t: seq<Pcb>, q: seq<nat>) {
    && (forall i {:trigger q[i]} :: 0 <= i < |q| ==> q[i] < |t| && Live(t[q[i]]))
    && forall i, j {:trigger q[i], q[j]} :: 0 <= i < j < |q| ==> q[i] != q[j]
  }

  lemma KnownPids(t: seq<Pcb>, q: seq<nat>)
    requires UniquePids(t) && SlotsOk(t, q)
    ensures Spec.Known(ByPid(t), PidsOf(t, q))
    ensures forall i {:trigger q[i]} :: 0 <= i < |q| ==>
            PidsOf(t, q)[i] in ByPid(t) && ByPid(t)[PidsOf(t, q)[i]] == t[q[i]]
  {
    forall i | 0 <= i < |q|
      ensures PidsOf(t, q)[i] in ByPid(t) && ByPid(t)[PidsOf(t, q)[i]] == t[q[i]]
    {
      ByPidAt(t, q[i]);
    }
  }

  /** The cursor with n steps to go until it is back at c, in a queue of the given size. */
  function Around(c: nat, n: nat, size: nat): (r: nat)
    requires c < size && n <= size
    ensures r < size
  {
    if c >= n then c - n else c - n + size
  }

  lemma AroundNext(c: nat, n: nat, size: nat)
    requires c < size && 0 < n <= size
    ensures Spec.Onward(Around(c, n, size), size) == Around(c, n - 1, size)
  {
  }

  class Scheduler {
    const runQueue: array<nat>
    var size: nat
    var idx: nat
    var idle: Option<nat>
    const procs: Table

    /** The queue, apart from its cursor. */
    ghost predicate Listed()
      reads this`size, runQueue, procs, procs.slots
    {
      && procs.Valid() && runQueue.Length == MAX_PROCESSES && size <= MAX_PROCESSES
      && SlotsOk(procs.slots[..], runQueue[..size])
    }

    ghost predicate Valid()
      reads this, runQueue, procs, procs.slots
    {
      && Listed() && (idx < size || idx == 0)
      && (idle.Some? ==> idle.value < procs.slots.Length && Live(procs.slots[idle.value]))
    }

    ghost function Pids(): (r: seq<nat>)
      reads this`size, runQueue, procs, procs.slots
      requires Listed()
      ensures |r| == size && Spec.Known(procs.Procs(), r)
    {
      KnownPids(procs.slots[..], runQueue[..size]);
      PidsOf(procs.slots[..], runQueue[..size])
    }

    ghost function Queue(): Spec.RunQueue
      reads this, runQueue, procs, procs.slots
      requires Valid()
    {
      Spec.RunQueue(PidsOf(procs.slots[..], runQueue[..size]), idx,
                    if idle.Some? then Some(procs.slots[idle.value].pid) else None)
    }

    /** scheduler_init. */
    constructor (p: Table)
      requires p.Valid()
      ensures Valid() && procs == p && fresh(runQueue) && Queue() == Spec.RunQueue([], 0, None)
    {
      procs := p;
      runQueue := new nat[MAX_PROCESSES](_ => 0);
      size, idx, idle := 0, 0, None;
    }

    /** The queue's pids are those of its slots. */
    lemma Here()
      requires Valid()
      ensures Spec.Known(procs.Procs(), Queue().pids) && |Queue().pids| == size
      ensures forall i {:trigger runQueue[i]} :: 0 <= i < size ==>
        Queue().pids[i] == procs.slots[runQueue[i]].pid && Queue().pids[i] in procs.Procs()
          && procs.Procs()[Queue().pids[i]] == procs.slots[runQueue[i]]
    {
      KnownPids(procs.slots[..], runQueue[..size]);
      forall i | 0 <= i < size ensures runQueue[..size][i] == runQueue[i] { }
    }

    lemma IsIdle(p: nat)
      requires Valid() && p < procs.slots.Length && Live(procs.slots[p])
      ensures idle == Some(p) <==> Queue().idle == Some(procs.slots[p].pid)
    {
      if Queue().idle == Some(procs.slots[p].pid) { SamePid(procs.slots[..], p, idle.value); }
    }

    /** The queue does not notice what happens to slots outside it, nor to fields other than the pid. */
    twostate lemma Undisturbed()
      requires old(Valid()) && unchanged(this) && unchanged(runQueue) && procs.Valid()
      requires procs.slots.Length == MAX_PROCESSES
      requires forall p {:trigger procs.slots[p]} ::
               0 <= p < MAX_PROCESSES && (p in runQueue[..size] || idle == Some(p)) ==>
               Live(procs.slots[p]) && procs.slots[p].pid == old(procs.slots[p].pid)
      ensures Valid() && Queue() == old(Queue())
    {
      forall i | 0 <= i < size
        ensures runQueue[i] < MAX_PROCESSES && Live(procs.slots[runQueue[i]])
        ensures procs.slots[runQueue[i]].pid == old(procs.slots[runQueue[i]].pid)
      {
        assert old(runQueue[..size])[i] == runQueue[i];
        assert runQueue[..size][i] == runQueue[i];
      }
      assert SlotsOk(procs.slots[..], runQueue[..size]);
    }

    // ---------------------------------------------------------------- what Scheduler says of this queue

    ghost function Place(priority: nat): nat
      reads this, runQueue, procs, procs.slots
      requires Valid()
    {
      Here();
      Spec.InsertAt(procs.Procs(), Queue().pids, priority, 0)
    }

    ghost function Added(p: nat): Spec.RunQueue
      reads this, runQueue, procs, procs.slots
      requires Valid() && p < procs.slots.Length && Live(procs.slots[p])
    {
      Here();
      ByPidAt(procs.slots[..], p);
      Spec.Add(procs.Procs(), Queue(), procs.slots[p].pid)
    }

    ghost function Chosen(): (Option<nat>, Spec.RunQueue)
      reads this, runQueue, procs, procs.slots
      requires Valid()
    {
      Here();
      Spec.NextReady(procs.Procs(), Queue())
    }

    // ---------------------------------------------------------------- adding and removing

    /** Where in the queue a newcomer of the given priority goes. */
    method Position(priority: nat) returns (at: nat)
      requires Valid()
      ensures at == Place(priority) && at <= size
    {
      Here();
      for i := 0 to size
        invariant Spec.InsertAt(procs.Procs(), Queue().pids, priority, 0) ==
                  Spec.InsertAt(procs.Procs(), Queue().pids, priority, i)
      {
        if procs.slots[runQueue[i]].priority < priority {
          return i;
        }
      }
      return size;
    }

    /** The elements from `at` on move up by one. */
    method ShiftUp(at: nat)
      requires at <= size < runQueue.Length
      modifies runQueue
      ensures runQueue[..at] == old(runQueue[..at]) && runQueue[at + 1..size + 1] == old(runQueue[at..size])
    {
      var j := size;
      while j > at
        invariant at <= j <= size
        invariant forall k :: 0 <= k <= j ==> k < size ==> runQueue[k] == old(runQueue[k])
        invariant forall k :: j < k <= size ==> runQueue[k] == old(runQueue[k - 1])
      {
        runQueue[j] := runQueue[j - 1];
        j := j - 1;
      }
    }

    /** The elements after `at` move down by one. */
    method ShiftDown(at: nat)
      requires at < size <= runQueue.Length
      modifies runQueue
      ensures runQueue[..size - 1] == old(runQueue[..at] + runQueue[at + 1..size])
    {
      for j := at to size - 1
        invariant forall k :: 0 <= k < at ==> runQueue[k] == old(runQueue[k])
        invariant forall k :: at <= k < j ==> runQueue[k] == old(runQueue[k + 1])
        invariant forall k :: j <= k < size ==> runQueue[k] == old(runQueue[k])
      {
        runQueue[j] := runQueue[j + 1];
      }
    }

    /** The shifting and writing of scheduler_add. */
    method InsertHere(at: nat, p: nat)
      requires at <= size < runQueue.Length
      modifies this`size, runQueue
      ensures size == old(size) + 1 && runQueue[..size] == old(runQueue[..at]) + [p] + old(runQueue[at..size])
    {
      ShiftUp(at);
      runQueue[at] := p;
      size := size + 1;
    }

    /** scheduler_add, of a process not in the queue. */
    method Add(p: nat)
      requires Valid() && p < procs.slots.Length && Live(procs.slots[p]) && p !in runQueue[..size]
      modifies this`size, this`idx, runQueue
      ensures Valid() && Queue() == old(Added(p))
      ensures forall x :: x in runQueue[..size] ==> x in old(runQueue[..size]) || x == p
    {
      Here();
      ByPidAt(procs.slots[..], p);
      IsIdle(p);
      if size >= MAX_PROCESSES {
        return;
      }
      if idle == Some(p) {
        return;
      }
      ghost var q := runQueue[..size];
      var at := Position(procs.slots[p].priority);
      SpliceSlots(procs.slots[..], q, at, p);
      assert q[..at] == runQueue[..at] && q[at..] == runQueue[at..size];
      InsertHere(at, p);
      if at <= idx && size > 1 {
        idx := idx + 1;
      }
    }

    /** The place of a process in the queue. */
    method IndexOf(p: nat) returns (r: Option<nat>)
      requires Valid() && p < procs.slots.Length && Live(procs.slots[p])
      ensures r == Spec.IndexFrom(Queue().pids, procs.slots[p].pid, 0)
      ensures match r case None => p !in runQueue[..size] case Some(i) => i < size && runQueue[i] == p
    {
      ghost var pids, pid := Queue().pids, procs.slots[p].pid;
      for i := 0 to size
        invariant p !in runQueue[..i]
        invariant Spec.IndexFrom(pids, pid, 0) == Spec.IndexFrom(pids, pid, i)
      {
        SameAt(i, p);
        if p == runQueue[i] {
          return Some(i);
        }
        assert runQueue[..i + 1] == runQueue[..i] + [runQueue[i]];
      }
      return None;
    }

    /** The element at i goes, and the cursor is adjusted. */
    method CutAt(i: nat)
      requires Valid() && i < size
      modifies this`size, this`idx, runQueue
      ensures Valid() && Queue().idle == old(Queue()).idle
      ensures Queue().pids == old(Queue().pids[..i] + Queue().pids[i + 1..])
      ensures runQueue[..size] == old(runQueue[..i] + runQueue[i + 1..size])
      ensures idx == if old(idx) >= size && size > 0 then size - 1 else if i < old(idx) then old(idx) - 1 else old(idx)
    {
      ghost var q := runQueue[..size];
      ShiftDown(i);
      size := size - 1;
      if idx >= size && size > 0 {
        idx := size - 1;
      } else if i < idx {
        idx := idx - 1;
      }
      assert runQueue[..size] == q[..i] + q[i + 1..];
      CutSlots(procs.slots[..], q, i);
    }

    /** scheduler_remove. */
    method Remove(p: nat)
      requires Valid() && p < procs.slots.Length && Live(procs.slots[p])
      modifies this`size, this`idx, runQueue
      ensures Valid() && Queue() == Spec.Remove(old(Queue()), procs.slots[p].pid)
      ensures forall x :: x in runQueue[..size] <==> x in old(runQueue[..size]) && x != p
    {
      var i := IndexOf(p);
      if i.Some? {
        CutElemsAt(i.value);
        CutAt(i.value);
      }
    }

    lemma CutElemsAt(i: nat)
      requires Valid() && i < size
      ensures forall x :: x in runQueue[..i] + runQueue[i + 1..size] <==> x in runQueue[..size] && x != runQueue[i]
    {
      ghost var q := runQueue[..size];
      CutElems(procs.slots[..], q, i);
      assert q[i] == runQueue[i] && q[i + 1..] == runQueue[i + 1..size] && q[..i] == runQueue[..i];
    }

    /** The i-th of the queue is p just when it has p's pid. */
    lemma SameAt(i: nat, p: nat)
      requires Valid() && i < size && p < procs.slots.Length && Live(procs.slots[p])
      ensures runQueue[i] == p <==> Queue().pids[i] == procs.slots[p].pid
    {
      assert runQueue[..size][i] == runQueue[i];
      if Queue().pids[i] == procs.slots[p].pid { SamePid(procs.slots[..], p, runQueue[i]); }
    }

    lemma NotQueued(p: nat)
      requires Valid() && p < procs.slots.Length && Live(procs.slots[p])
      ensures p in runQueue[..size] <==> procs.slots[p].pid in Queue().pids
    {
      if p in runQueue[..size] {
        var i :| 0 <= i < size && runQueue[..size][i] == p;
        assert Queue().pids[i] == procs.slots[p].pid;
      }
      if procs.slots[p].pid in Queue().pids {
        var i :| 0 <= i < size && Queue().pids[i] == procs.slots[p].pid;
        SameAt(i, p);
        assert runQueue[..size][i] == runQueue[i];
      }
    }

    // ---------------------------------------------------------------- choosing the next process

    method AgingBonus(p: nat) returns (b: nat)
      requires Valid() && p < procs.slots.Length
      ensures b == Spec.AgingBonus(procs.slots[p])
    {
      b := procs.slots[p].waitTicks / Spec.AGING_INTERVAL;
      if b > Spec.MAX_AGING_BONUS {
        b := Spec.MAX_AGING_BONUS;
      }
    }

    method Effective(p: nat) returns (e: nat)
      requires Valid() && p < procs.slots.Length
      ensures e == Spec.Effective(procs.slots[p])
    {
      var bonus := AgingBonus(p);
      e := procs.slots[p].priority + (if procs.slots[p].foreground != 0 then 1 else 0) + bonus;
    }

    ghost function HighestOf(n: nat): int
      reads this, runQueue, procs, procs.slots
      requires Valid() && n <= size
    {
      Here();
      Spec.Highest(procs.Procs(), Queue().pids, n)
    }

    /** The first loop of scheduler_next_ready. */
    method Highest() returns (h: int)
      requires Valid()
      ensures h == HighestOf(size)
    {
      Here();
      h := -1;
      for i := 0 to size
        invariant h == HighestOf(i)
      {
        if procs.slots[runQueue[i]].state == State.Ready {
          var eff := Effective(runQueue[i]);
          if eff > h {
            h := eff;
          }
        }
      }
    }

    ghost function ScanFrom(c: nat, n: nat, best: int, foreground: bool): Option<nat>
      reads this`size, runQueue, procs, procs.slots
      requires Listed() && c < size
    {
      Spec.Scan(procs.Procs(), Pids(), c, n, best, foreground)
    }

    /** Process c of the queue is one the pass is looking for. */
    method IsEligible(c: nat, best: int, foreground: bool) returns (e: bool)
      requires Valid() && c < procs.slots.Length
      ensures e == Spec.Eligible(procs.slots[c], best, foreground)
    {
      if procs.slots[c].state == State.Ready && (foreground ==> procs.slots[c].foreground != 0) {
        var eff := Effective(c);
        return eff == best;
      }
      return false;
    }

    /** The first of the n processes after the cursor that the pass is looking for is `found`. */
    ghost predicate Finds(n: nat, best: int, foreground: bool, found: Option<nat>)
      reads this, runQueue, procs, procs.slots
    {
      Valid() && idx < size && ScanFrom(idx, n, best, foreground) == found
    }

    /** One step of a pass: the cursor moves on, and the process there is looked at. */
    method Step(best: int, foreground: bool, ghost n: nat, ghost found: Option<nat>) returns (r: Option<nat>)
      requires n > 0 && Finds(n, best, foreground, found)
      modifies this`idx
      ensures idx == Spec.Onward(old(idx), size)
      ensures if r.Some? then Valid() && found == Some(idx) && r == Some(runQueue[idx])
              else Finds(n - 1, best, foreground, found)
    {
      Here();
      ScanOnce(procs.Procs(), Queue().pids, idx, n, best, foreground);
      Spec.NextIndex(idx, size);
      idx := (idx + 1) % size;
      var e := IsEligible(runQueue[idx], best, foreground);
      r := if e then Some(runQueue[idx]) else None;
    }

    /** One pass around the queue; the cursor stops at the process found, or comes round to where it was. */
    method Pass(best: int, foreground: bool) returns (r: Option<nat>)
      requires Valid() && size > 0
      modifies this`idx
      ensures Valid()
      ensures match old(ScanFrom(idx, size, best, foreground))
              case None => r == None && idx == old(idx)
              case Some(i) => i < size && r == Some(runQueue[i]) && idx == i
    {
      r := PassFor(best, foreground, ScanFrom(idx, size, best, foreground));
    }

    /** The loop of a pass that is to find `found`. */
    method PassFor(best: int, foreground: bool, ghost found: Option<nat>) returns (r: Option<nat>)
      requires Finds(size, best, foreground, found)
      modifies this`idx
      ensures Valid()
      ensures if r.None? then found == None && idx == old(idx)
              else found == Some(idx) && idx < size && r == Some(runQueue[idx])
    {
      ghost var n := size;
      for i := 0 to size
        invariant n == size - i && Finds(n, best, foreground, found)
        invariant idx == Around(old(idx), n, size)
      {
        AroundNext(old(idx), n, size);
        r := Step(best, foreground, n, found);
        if r.Some? {
          return;
        }
        n := n - 1;
      }
      return None;
    }

    ghost function PassesFind(best: int): Option<nat>
      reads this, runQueue, procs, procs.slots
      requires Valid() && size > 0
    {
      var i := ScanFrom(idx, size, best, true);
      if i.Some? then i else ScanFrom(idx, size, best, false)
    }

    /** The two passes, for the highest effective priority there is. */
    method Passes(best: int) returns (r: Option<nat>)
      requires Valid() && size > 0
      modifies this`idx
      ensures Valid()
      ensures match old(PassesFind(best))
              case None => r == None && idx == old(idx)
              case Some(i) => i < size && r == Some(runQueue[i]) && idx == i
    {
      r := Pass(best, true);
      if r.None? {
        r := Pass(best, false);
      }
    }

    /** What the passes find, which is not nothing, in the terms of Scheduler. */
    method Choose(best: int) returns (r: Option<nat>)
      requires Valid() && size > 0 && best == HighestOf(size) && best >= 0
      modifies this`idx
      ensures Valid() && Queue() == old(Chosen()).1
      ensures r.Some? <==> old(Chosen()).0.Some?
      ensures r.Some? ==> r.value < procs.slots.Length && Live(procs.slots[r.value])
      ensures r.Some? ==> procs.slots[r.value].pid == old(Chosen()).0.value
    {
      ChosenIs();
      Here();
      r := Passes(best);
      if r.None? {
        r := idle;
      }
    }

    lemma ChosenIs()
      requires Valid()
      ensures var best := HighestOf(size);
              Chosen() == if size == 0 || best < 0 || PassesFind(best).None? then (Queue().idle, Queue())
                else (Some(Queue().pids[PassesFind(best).value]), Queue().(cursor := PassesFind(best).value))
    {
      Here();
    }

    /** scheduler_next_ready. */
    method NextReady() returns (r: Option<nat>)
      requires Valid()
      modifies this`idx
      ensures Valid() && Queue() == old(Chosen()).1
      ensures r.Some? <==> old(Chosen()).0.Some?
      ensures r.Some? ==> r.value < procs.slots.Length && Live(procs.slots[r.value])
      ensures r.Some? ==> procs.slots[r.value].pid == old(Chosen()).0.value
    {
      ChosenIs();
      if size == 0 {
        return idle;
      }
      var best := Highest();
      if best < 0 {
        return idle;
      }
      r := Choose(best);
    }
  }

  /** One step of the scan. */
  lemma ScanOnce(ps: Procs, pids: seq<nat>, c: nat, n: nat, best: int, foreground: bool)
    requires Spec.Known(ps, pids) && c < |pids| && n > 0
    ensures var i := Spec.Onward(c, |pids|);
            Spec.Scan(ps, pids, c, n, best, foreground) ==
              if Spec.Eligible(ps[pids[i]], best, foreground) then Some(i)
              else Spec.Scan(ps, pids, i, n - 1, best, foreground)
  {
  }

  lemma SpliceSlots(t: seq<Pcb>, q: seq<nat>, at: nat, p: nat)
    requires SlotsOk(t, q) && at <= |q| && p < |t| && Live(t[p]) && p !in q
    ensures var r := q[..at] + [p] + q[at..];
            && SlotsOk(t, r) && PidsOf(t, r) == PidsOf(t, q)[..at] + [t[p].pid] + PidsOf(t, q)[at..]
            && forall x :: x in r ==> x in q || x == p
  {
    var r := q[..at] + [p] + q[at..];
    forall i | 0 <= i < |r|
      ensures r[i] < |t| && Live(t[r[i]]) && r[i] == (if i < at then q[i] else if i == at then p else q[i - 1])
    {
    }
  }

  lemma CutSlots(t: seq<Pcb>, q: seq<nat>, i: nat)
    requires SlotsOk(t, q) && i < |q|
    ensures var r := q[..i] + q[i + 1..]; SlotsOk(t, r) && PidsOf(t, r) == PidsOf(t, q)[..i] + PidsOf(t, q)[i + 1..]
  {
    var r := q[..i] + q[i + 1..];
    forall k | 0 <= k < |r| ensures r[k] < |t| && Live(t[r[k]]) && r[k] == (if k < i then q[k] else q[k + 1]) { }
  }

  lemma CutElems(t: seq<Pcb>, q: seq<nat>, i: nat)
    requires SlotsOk(t, q) && i < |q|
    ensures forall x :: x in q[..i] + q[i + 1..] <==> x in q && x != q[i]
  {
    var r := q[..i] + q[i + 1..];
    forall k | 0 <= k < |r| ensures r[k] in q && r[k] != q[i] { assert r[k] == if k < i then q[k] else q[k + 1]; }
    assert q == q[..i] + [q[i]] + q[i + 1..];
  }
}
