/**
 scheduler.c on values: the run queue, in descending priority, with its round-robin cursor, and the choice of the
 next process. A PCB is named by its pid.
 */
module Scheduler {
  import opened Sequences
  import opened Processes

  const AGING_INTERVAL: nat := 50
  const MAX_AGING_BONUS: nat := 4

  /** The run queue; `cursor` is queue_idx, and the idle process never enters it. */
  datatype RunQueue = RunQueue(pids: seq<nat>, cursor: nat, idle: Option<nat>)

  function AgingBonus(b: Pcb): nat {
    if b.waitTicks / AGING_INTERVAL > MAX_AGING_BONUS then MAX_AGING_BONUS else b.waitTicks / AGING_INTERVAL
  }

  function Effective(b: Pcb): nat {
    b.priority + (if b.foreground != 0 then 1 else 0) + AgingBonus(b)
  }

  predicate Known(ps: Procs, pids: seq<nat>) {
    forall k {:trigger pids[k]} :: 0 <= k < |pids| ==> pids[k] in ps
  }

  // ---------------------------------------------------------------- adding and removing

  /** Before the first process of lower priority, from position i on. */
  function InsertAt(ps: Procs, pids: seq<nat>, priority: nat, i: nat): (r: nat)
    requires i <= |pids| && Known(ps, pids)
    ensures i <= r <= |pids|
    ensures forall k :: i <= k < r ==> ps[pids[k]].priority >= priority
    ensures r < |pids| ==> ps[pids[r]].priority < priority
    decreases |pids| - i
  {
    if i == |pids| || ps[pids[i]].priority < priority then i else InsertAt(ps, pids, priority, i + 1)
  }

  function Add(ps: Procs, q: RunQueue, p: nat): RunQueue
    requires p in ps && Known(ps, q.pids)
  {
    if |q.pids| >= MAX_PROCESSES || q.idle == Some(p) then q
    else
      var i := InsertAt(ps, q.pids, ps[p].priority, 0);
      q.(pids := q.pids[..i] + [p] + q.pids[i..],
         cursor := if i <= q.cursor && |q.pids| + 1 > 1 then q.cursor + 1 else q.cursor)
  }

  function IndexFrom(pids: seq<nat>, p: nat, i: nat): (r: Option<nat>)
    requires i <= |pids|
    ensures r.Some? ==> i <= r.value < |pids| && pids[r.value] == p && p !in pids[i..r.value]
    ensures r.None? ==> p !in pids[i..]
    decreases |pids| - i
  {
    if i == |pids| then None else if pids[i] == p then Some(i) else IndexFrom(pids, p, i + 1)
  }

  function Remove(q: RunQueue, p: nat): RunQueue {
    match IndexFrom(q.pids, p, 0)
    case None => q
    case Some(i) =>
      var rest := q.pids[..i] + q.pids[i + 1..];
      q.(pids := rest,
         cursor := if q.cursor >= |rest| && |rest| > 0 then |rest| - 1
                   else if i < q.cursor then q.cursor - 1 else q.cursor)
  }

  // ---------------------------------------------------------------- choosing the next process

  predicate IsReady(b: Pcb) { b.state == State.Ready }

  /** The highest effective priority of a ready process among the first n of the queue; -1 if there is none. */
  function Highest(ps: Procs, pids: seq<nat>, n: nat): (r: int)
    requires n <= |pids| && Known(ps, pids)
    ensures forall k :: 0 <= k < n && IsReady(ps[pids[k]]) ==> Effective(ps[pids[k]]) <= r
    ensures r >= 0 ==> exists k :: 0 <= k < n && IsReady(ps[pids[k]]) && Effective(ps[pids[k]]) == r
    ensures r < 0 ==> r == -1
  {
    if n == 0 then -1
    else
      var h := Highest(ps, pids, n - 1);
      var b := ps[pids[n - 1]];
      if IsReady(b) && Effective(b) > h then Effective(b) else h
  }

  /** What the first pass looks for is a foreground process, the second any. */
  predicate Eligible(b: Pcb, best: int, foreground: bool) {
    IsReady(b) && (foreground ==> b.foreground != 0) && Effective(b) == best
  }

  /** The cursor's next position, which is (c + 1) % n. */
  function Onward(c: nat, n: nat): (r: nat)
    requires c < n
    ensures r < n
  {
    if c + 1 < n then c + 1 else 0
  }

  lemma NextIndex(c: nat, n: nat)
    requires c < n
    ensures Onward(c, n) == (c + 1) % n
  {
  }

  /** The first n positions after the cursor, cyclically, looked at for an eligible process. */
  function Scan(ps: Procs, pids: seq<nat>, c: nat, n: nat, best: int, foreground: bool): (r: Option<nat>)
    requires c < |pids| && Known(ps, pids)
    ensures r.Some? ==> r.value < |pids| && Eligible(ps[pids[r.value]], best, foreground)
    decreases n
  {
    if n == 0 then None
    else
      var i := Onward(c, |pids|);
      if Eligible(ps[pids[i]], best, foreground) then Some(i) else Scan(ps, pids, i, n - 1, best, foreground)
  }

  /** The chosen process, and the queue with its cursor on it if it was chosen from the queue. */
  function NextReady(ps: Procs, q: RunQueue): (r: (Option<nat>, RunQueue))
    requires Known(ps, q.pids) && (q.pids == [] || q.cursor < |q.pids|)
  {
    if q.pids == [] then (q.idle, q)
    else
      var n := |q.pids|;
      var best := Highest(ps, q.pids, n);
      if best < 0 then (q.idle, q)
      else
        match Scan(ps, q.pids, q.cursor, n, best, true)
        case Some(i) => (Some(q.pids[i]), q.(cursor := i))
        case None =>
          match Scan(ps, q.pids, q.cursor, n, best, false)
          case Some(i) => (Some(q.pids[i]), q.(cursor := i))
          case None => (q.idle, q)
  }

  // ---------------------------------------------------------------- the queue's invariant

  ghost predicate Descending(ps: Procs, pids: seq<nat>)
    requires Known(ps, pids)
  {
    forall a, b :: 0 <= a < b < |pids| ==> ps[pids[a]].priority >= ps[pids[b]].priority
  }

  /** All processes but the idle one are queued. */
  ghost predicate Listed(ps: Procs, q: RunQueue) {
    forall p {:trigger p in q.pids} :: p in q.pids <==> p in ps && q.idle != Some(p)
  }

  predicate CursorOk(q: RunQueue) {
    q.cursor < |q.pids| || q.cursor == 0
  }

  /** The queue holds once each, in descending priority, all processes but the idle one. */
  ghost predicate QueueOk(ps: Procs, q: RunQueue) {
    NoDup(q.pids) && Known(ps, q.pids) && Descending(ps, q.pids) && Listed(ps, q) && CursorOk(q)
  }

  /** The process the cursor is on. */
  function At(q: RunQueue): Option<nat> {
    if q.cursor < |q.pids| then Some(q.pids[q.cursor]) else None
  }

  lemma {:induction false} SizeOf(pids: seq<nat>, ps: Procs)
    requires NoDup(pids) && Known(ps, pids)
    ensures |pids| <= |ps|
    decreases |pids|
  {
    if pids != [] {
      var p := pids[|pids| - 1];
      var rest := pids[..|pids| - 1];
      var ps' := ps - {p};
      assert p in ps && p !in rest;
      assert |ps'.Keys| == |ps.Keys - {p}|;
      assert forall k :: 0 <= k < |rest| ==> rest[k] == pids[k];
      SizeOf(rest, ps');
    }
  }

  // ---------------------------------------------------------------- adding

  function Splice(pids: seq<nat>, i: nat, p: nat): (r: seq<nat>)
    requires i <= |pids|
    ensures |r| == |pids| + 1 && r[i] == p
    ensures forall k :: 0 <= k < i ==> r[k] == pids[k]
    ensures forall k :: i < k < |r| ==> r[k] == pids[k - 1]
  {
    pids[..i] + [p] + pids[i..]
  }

  lemma SpliceElems(pids: seq<nat>, i: nat, p: nat)
    requires i <= |pids|
    ensures forall x :: x in Splice(pids, i, p) <==> x in pids || x == p
  {
    assert pids == pids[..i] + pids[i..];
  }

  lemma SpliceNoDup(pids: seq<nat>, i: nat, p: nat)
    requires i <= |pids| && NoDup(pids) && p !in pids
    ensures NoDup(Splice(pids, i, p))
  {
  }

  lemma SpliceDescending(ps: Procs, pids: seq<nat>, p: nat)
    requires p in ps && Known(ps, pids) && Descending(ps, pids)
    ensures var r := Splice(pids, InsertAt(ps, pids, ps[p].priority, 0), p); Known(ps, r) && Descending(ps, r)
  {
    var i := InsertAt(ps, pids, ps[p].priority, 0);
    var r := Splice(pids, i, p);
    forall k | 0 <= k < |r|
      ensures r[k] in ps && (k < i ==> ps[r[k]].priority >= ps[p].priority)
      ensures k > i ==> ps[r[k]].priority < ps[p].priority
    {
      if k > i { assert ps[pids[i]].priority >= ps[pids[k - 1]].priority; }
    }
  }

  lemma SpliceCursor(q: RunQueue, i: nat, p: nat)
    requires i <= |q.pids| && CursorOk(q)
    ensures var r := q.(pids := Splice(q.pids, i, p),
                        cursor := if i <= q.cursor && |q.pids| + 1 > 1 then q.cursor + 1 else q.cursor);
            CursorOk(r) && (q.pids != [] ==> At(r) == At(q))
  {
  }

  lemma SpliceListed(ps: Procs, q: RunQueue, i: nat, p: nat)
    requires i <= |q.pids| && p in ps && q.idle != Some(p) && Listed(ps - {p}, q)
    ensures Listed(ps, q.(pids := Splice(q.pids, i, p)))
  {
    SpliceElems(q.pids, i, p);
    var r := Splice(q.pids, i, p);
    forall x
      ensures x in r <==> x in ps && q.idle != Some(x)
    {
      assert x in q.pids <==> x in ps - {p} && q.idle != Some(x);
    }
  }

  /** scheduler_add: the newcomer goes behind all of its priority or higher, the others keep their order, the full-queue
      drop cannot fire, and the cursor stays on the same process. */
  lemma AddKeeps(ps: Procs, q: RunQueue, p: nat)
    requires p in ps && q.idle != Some(p) && |ps| <= MAX_PROCESSES && QueueOk(ps - {p}, q)
    ensures var r := Add(ps, q, p);
            && QueueOk(ps, r) && r.idle == q.idle && (q.pids != [] ==> At(r) == At(q))
            && Known(ps, q.pids) && r.pids == Splice(q.pids, InsertAt(ps, q.pids, ps[p].priority, 0), p)
  {
    SizeOf(q.pids, ps - {p});
    assert ps.Keys == (ps - {p}).Keys + {p};
    assert Known(ps, q.pids) && Descending(ps, q.pids);
    var i := InsertAt(ps, q.pids, ps[p].priority, 0);
    assert p in q.pids ==> p in ps - {p};
    SpliceNoDup(q.pids, i, p);
    SpliceDescending(ps, q.pids, p);
    SpliceListed(ps, q, i, p);
    SpliceCursor(q, i, p);
  }

  // ---------------------------------------------------------------- removing

  function Cut(pids: seq<nat>, i: nat): (r: seq<nat>)
    requires i < |pids|
    ensures |r| == |pids| - 1
    ensures forall k :: 0 <= k < i ==> r[k] == pids[k]
    ensures forall k :: i <= k < |r| ==> r[k] == pids[k + 1]
  {
    pids[..i] + pids[i + 1..]
  }

  lemma CutElems(pids: seq<nat>, i: nat)
    requires i < |pids| && NoDup(pids)
    ensures forall x :: x in Cut(pids, i) <==> x in pids && x != pids[i]
  {
    assert pids == pids[..i] + [pids[i]] + pids[i + 1..];
  }

  lemma CutSorted(ps: Procs, pids: seq<nat>, i: nat)
    requires i < |pids| && NoDup(pids) && Known(ps, pids) && Descending(ps, pids)
    ensures var r := Cut(pids, i); NoDup(r) && Known(ps - {pids[i]}, r) && Descending(ps - {pids[i]}, r)
  {
    var r := Cut(pids, i);
    forall k | 0 <= k < |r| ensures r[k] in ps - {pids[i]} { }
  }

  lemma CutListed(ps: Procs, q: RunQueue, i: nat)
    requires i < |q.pids| && NoDup(q.pids) && Listed(ps, q)
    ensures Listed(ps - {q.pids[i]}, q.(pids := Cut(q.pids, i)))
  {
    CutElems(q.pids, i);
    var r := Cut(q.pids, i);
    forall x
      ensures x in r <==> x in ps - {q.pids[i]} && q.idle != Some(x)
    {
      assert x in q.pids <==> x in ps && q.idle != Some(x);
    }
  }

  lemma CutCursor(q: RunQueue, i: nat)
    requires i < |q.pids| && CursorOk(q) && NoDup(q.pids)
    ensures var rest := Cut(q.pids, i);
            var r := q.(pids := rest,
                        cursor := if q.cursor >= |rest| && |rest| > 0 then |rest| - 1
                                  else if i < q.cursor then q.cursor - 1 else q.cursor);
            CursorOk(r) && (At(q) != Some(q.pids[i]) ==> At(r) == At(q))
  {
  }

  lemma CutKeeps(ps: Procs, q: RunQueue, i: nat)
    requires QueueOk(ps, q) && i < |q.pids|
    ensures var rest := Cut(q.pids, i);
            var r := q.(pids := rest,
                        cursor := if q.cursor >= |rest| && |rest| > 0 then |rest| - 1
                                  else if i < q.cursor then q.cursor - 1 else q.cursor);
            QueueOk(ps - {q.pids[i]}, r) && (At(q) != Some(q.pids[i]) ==> At(r) == At(q))
  {
    CutSorted(ps, q.pids, i);
    CutListed(ps, q, i);
    CutCursor(q, i);
  }

  /** Who is neither queued nor idle is no process at all. */
  lemma NotQueued(ps: Procs, q: RunQueue, p: nat)
    requires QueueOk(ps, q) && p !in q.pids
    ensures q.idle != Some(p) ==> ps - {p} == ps
  {
  }

  /** scheduler_remove: the others keep their order, and the cursor stays on the same process unless that one goes. */
  lemma RemoveKeeps(ps: Procs, q: RunQueue, p: nat)
    requires QueueOk(ps, q)
    ensures var r := Remove(q, p);
            && r.idle == q.idle && (q.idle != Some(p) ==> QueueOk(ps - {p}, r)) && p !in r.pids
            && (At(q) != Some(p) ==> At(r) == At(q))
            && (p !in q.pids ==> r == q)
  {
    assert q.pids[0..] == q.pids;
    match IndexFrom(q.pids, p, 0)
    case None => NotQueued(ps, q, p);
    case Some(i) =>
      CutKeeps(ps, q, i);
      CutElems(q.pids, i);
      assert Remove(q, p).pids == Cut(q.pids, i);
  }

  lemma RemoveKnown(ps: Procs, q: RunQueue, p: nat)
    requires Known(ps, q.pids)
    ensures Known(ps, Remove(q, p).pids)
  {
  }

  // ---------------------------------------------------------------- the choice

  /** The queue read from just after the cursor, all the way round. */
  function Rotation(pids: seq<nat>, c: nat): (r: seq<nat>)
    requires c < |pids|
    ensures |r| == |pids|
  {
    pids[c + 1..] + pids[..c + 1]
  }

  lemma RotationElems(pids: seq<nat>, c: nat)
    requires c < |pids|
    ensures forall p :: p in Rotation(pids, c) <==> p in pids
  {
    assert pids == pids[..c + 1] + pids[c + 1..];
  }

  /** One step of the cursor turns the rotation by one. */
  lemma RotationTurns(pids: seq<nat>, c: nat)
    requires c < |pids|
    ensures var c' := Onward(c, |pids|);
            var r := Rotation(pids, c);
            c' < |pids| && r[0] == pids[c'] && Rotation(pids, c') == r[1..] + [r[0]]
  {
  }

  predicate NoneBefore(ps: Procs, r: seq<nat>, k: nat, best: int, foreground: bool)
    requires Known(ps, r) && k <= |r|
  {
    forall j {:trigger r[j]} :: 0 <= j < k ==> !Eligible(ps[r[j]], best, foreground)
  }

  /** p is the first element of r that is eligible. */
  ghost predicate FirstEligible(ps: Procs, r: seq<nat>, p: nat, best: int, foreground: bool)
    requires Known(ps, r)
  {
    exists k: nat :: k < |r| && r[k] == p && Eligible(ps[p], best, foreground) && NoneBefore(ps, r, k, best, foreground)
  }

  /** The walk of n steps from the cursor finds what comes first among the first n of the rotation. */
  lemma {:induction false} ScanIs(ps: Procs, pids: seq<nat>, c: nat, n: nat, best: int, foreground: bool)
    returns (k: nat)
    requires Known(ps, pids) && c < |pids| && n <= |pids|
    ensures Known(ps, Rotation(pids, c)) && k <= n && NoneBefore(ps, Rotation(pids, c), k, best, foreground)
    ensures match Scan(ps, pids, c, n, best, foreground)
            case None => k == n
            case Some(i) => k < n && Rotation(pids, c)[k] == pids[i]
    decreases n
  {
    var r := Rotation(pids, c);
    RotationElems(pids, c);
    k := 0;
    if n > 0 {
      var c' := Onward(c, |pids|);
      RotationTurns(pids, c);
      if !Eligible(ps[pids[c']], best, foreground) {
        var j := ScanIs(ps, pids, c', n - 1, best, foreground);
        var r' := Rotation(pids, c');
        k := j + 1;
        assert forall i {:trigger r[i]} :: 1 <= i < |r| ==> r[i] == r'[i - 1];
      }
    }
  }

  lemma ScanFirst(ps: Procs, pids: seq<nat>, c: nat, best: int, foreground: bool)
    requires Known(ps, pids) && c < |pids|
    ensures Known(ps, Rotation(pids, c))
    ensures match Scan(ps, pids, c, |pids|, best, foreground)
            case None => forall p :: p in pids ==> !Eligible(ps[p], best, foreground)
            case Some(i) => FirstEligible(ps, Rotation(pids, c), pids[i], best, foreground)
  {
    RotationElems(pids, c);
    var k := ScanIs(ps, pids, c, |pids|, best, foreground);
    var r := Rotation(pids, c);
    if Scan(ps, pids, c, |pids|, best, foreground).None? {
      forall p | p in pids ensures !Eligible(ps[p], best, foreground) {
        var j :| 0 <= j < |r| && r[j] == p;
      }
    }
  }

  ghost predicate SomeReady(ps: Procs, pids: seq<nat>)
    requires Known(ps, pids)
  {
    exists p :: p in pids && IsReady(ps[p])
  }

  /** No ready process of the queue beats b, and b is in the foreground if one that equals it is. */
  ghost predicate Best(ps: Procs, pids: seq<nat>, b: Pcb)
    requires Known(ps, pids)
  {
    forall p :: p in pids && IsReady(ps[p]) ==>
      Effective(ps[p]) <= Effective(b)
        && (Effective(ps[p]) == Effective(b) && ps[p].foreground != 0 ==> b.foreground != 0)
  }

  /** scheduler_next_ready: idle if and only if no queued process is ready (its last line is never reached); otherwise
      the first process, in cyclic order after the cursor, of those with the highest effective priority, those in the
      foreground preferred. The cursor ends up on the process chosen. */
  lemma Selection(ps: Procs, q: RunQueue)
    requires Known(ps, q.pids) && (q.pids == [] || q.cursor < |q.pids|)
    ensures var (next, r) := NextReady(ps, q);
            if SomeReady(ps, q.pids) then
              && next.Some? && next.value in q.pids && IsReady(ps[next.value]) && Best(ps, q.pids, ps[next.value])
              && Known(ps, Rotation(q.pids, q.cursor))
              && FirstEligible(ps, Rotation(q.pids, q.cursor), next.value, Effective(ps[next.value]),
                               ps[next.value].foreground != 0)
              && r == q.(cursor := r.cursor) && At(r) == next
            else next == q.idle && r == q
  {
    if q.pids != [] {
      var best := Highest(ps, q.pids, |q.pids|);
      ScanFirst(ps, q.pids, q.cursor, best, true);
      ScanFirst(ps, q.pids, q.cursor, best, false);
      if best >= 0 {
        var k :| 0 <= k < |q.pids| && IsReady(ps[q.pids[k]]) && Effective(ps[q.pids[k]]) == best;
        assert Eligible(ps[q.pids[k]], best, false);
        assert q.pids[k] in q.pids;
        ChosenIsBest(ps, q, best);
      }
    }
  }

  lemma ChosenIsBest(ps: Procs, q: RunQueue, best: int)
    requires Known(ps, q.pids) && q.pids != [] && q.cursor < |q.pids| && best == Highest(ps, q.pids, |q.pids|)
    requires best >= 0
    ensures var i := Scan(ps, q.pids, q.cursor, |q.pids|, best, true);
            var j := Scan(ps, q.pids, q.cursor, |q.pids|, best, false);
            && (i.Some? ==> Best(ps, q.pids, ps[q.pids[i.value]]))
            && (i.None? && j.Some? ==> Best(ps, q.pids, ps[q.pids[j.value]]) && ps[q.pids[j.value]].foreground == 0)
  {
    ScanFirst(ps, q.pids, q.cursor, best, true);
  }

  /** The choice is a ready process of the queue, with the cursor on it, or idle. */
  lemma ChosenIsReady(ps: Procs, q: RunQueue)
    requires Known(ps, q.pids) && CursorOk(q)
    ensures var (next, r) := NextReady(ps, q);
            || (next == q.idle && r == q)
            || (next.Some? && next.value in q.pids && next.value in ps && IsReady(ps[next.value])
                && r == q.(cursor := r.cursor) && r.cursor < |q.pids|)
  {
  }
}
