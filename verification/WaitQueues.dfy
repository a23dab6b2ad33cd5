/**
 The circular queues of waiting pids that semaphores and pipes hold, in place.
 */
module WaitQueues {
  import opened Processes
  import SemaphoreSpec
  import PipeSpec

  /** The n elements of the ring b from position h on. */
  function Ring(b: seq<nat>, h: nat, n: nat): (r: seq<nat>)
    requires |b| == MAX_PROCESSES
    ensures |r| == n
  {
    seq(n, k requires 0 <= k < n => b[(h + k) % MAX_PROCESSES])
  }

  lemma RingPut(b: seq<nat>, h: nat, n: nat, x: nat)
    requires |b| == MAX_PROCESSES && h < MAX_PROCESSES && n < MAX_PROCESSES
    ensures Ring(b[(h + n) % MAX_PROCESSES := x], h, n + 1) == Ring(b, h, n) + [x]
  {
    var r := Ring(b[(h + n) % MAX_PROCESSES := x], h, n + 1);
    forall k | 0 <= k < n ensures r[k] == Ring(b, h, n)[k] {
      assert (h + k) % MAX_PROCESSES != (h + n) % MAX_PROCESSES;
    }
  }

  lemma RingPop(b: seq<nat>, h: nat, n: nat)
    requires |b| == MAX_PROCESSES && h < MAX_PROCESSES && 0 < n <= MAX_PROCESSES
    ensures Ring(b, h, n)[0] == b[h] && Ring(b, (h + 1) % MAX_PROCESSES, n - 1) == Ring(b, h, n)[1..]
  {
    var r := Ring(b, (h + 1) % MAX_PROCESSES, n - 1);
    forall k | 0 <= k < n - 1 ensures r[k] == Ring(b, h, n)[k + 1] {
      assert ((h + 1) % MAX_PROCESSES + k) % MAX_PROCESSES == (h + (k + 1)) % MAX_PROCESSES;
    }
  }

  lemma RingNext(h: nat, n: nat)
    ensures ((h + n) % MAX_PROCESSES + 1) % MAX_PROCESSES == (h + (n + 1)) % MAX_PROCESSES
  {
  }

  lemma RingFront(b: seq<nat>, n: nat)
    requires |b| == MAX_PROCESSES && n <= MAX_PROCESSES
    ensures Ring(b, 0, n) == b[..n]
  {
  }

  lemma {:induction false} RemoveSnoc(q: seq<nat>, x: nat, pid: nat)
    ensures SemaphoreSpec.Remove(q + [x], pid) == SemaphoreSpec.Remove(q, pid) + if x == pid then [] else [x]
  {
    if q == [] {
      assert q + [x] == [x] && [x][1..] == [];
    } else {
      assert (q + [x])[1..] == q[1..] + [x];
      RemoveSnoc(q[1..], x, pid);
    }
  }

  lemma {:induction false} RemoveNone(q: seq<nat>, pid: nat)
    ensures |SemaphoreSpec.Remove(q, pid)| <= |q| && (pid in q ==> |SemaphoreSpec.Remove(q, pid)| < |q|)
    ensures pid !in q ==> SemaphoreSpec.Remove(q, pid) == q
  {
    if q != [] { RemoveNone(q[1..], pid); }
  }

  class WaitQueue {
    const buf: array<nat>
    var head: nat
    var tail: nat
    var count: nat

    ghost predicate Valid()
      reads this, buf
    {
      buf.Length == MAX_PROCESSES && head < MAX_PROCESSES && count <= MAX_PROCESSES
        && tail == (head + count) % MAX_PROCESSES
    }

    ghost function Contents(): seq<nat>
      reads this, buf
      requires Valid()
    {
      Ring(buf[..], head, count)
    }

    constructor ()
      ensures Valid() && fresh(buf) && Contents() == []
    {
      buf := new nat[MAX_PROCESSES](_ => 0);
      head, tail, count := 0, 0, 0;
    }

    method Clear()
      requires Valid()
      modifies this
      ensures Valid() && Contents() == []
    {
      head, tail, count := 0, 0, 0;
    }

    method Push(pid: nat)
      requires Valid()
      modifies this, buf
      ensures Valid() && Contents() == SemaphoreSpec.Push(old(Contents()), pid)
    {
      if count >= MAX_PROCESSES {
        return;
      }
      RingPut(buf[..], head, count, pid);
      RingNext(head, count);
      buf[tail] := pid;
      assert buf[..] == old(buf[..])[tail := pid];
      tail := (tail + 1) % MAX_PROCESSES;
      count := count + 1;
    }

    method Pop() returns (pid: nat)
      requires Valid() && Contents() != []
      modifies this
      ensures Valid() && pid == old(Contents())[0] && Contents() == old(Contents())[1..]
    {
      RingPop(buf[..], head, count);
      pid := buf[head];
      head := (head + 1) % MAX_PROCESSES;
      count := count - 1;
    }

    /** The pipes' push, which leaves alone a process already queued. */
    method PushOnce(pid: nat)
      requires Valid()
      modifies this, buf
      ensures Valid() && Contents() == PipeSpec.Push(old(Contents()), pid)
    {
      if count >= MAX_PROCESSES {
        return;
      }
      var idx := (tail + MAX_PROCESSES - count) % MAX_PROCESSES;
      var i := 0;
      while i < count
        invariant head == old(head) && tail == old(tail) && count == old(count) && buf[..] == old(buf[..])
        invariant 0 <= i <= count && idx == (head + i) % MAX_PROCESSES
        invariant forall k :: 0 <= k < i ==> old(Contents())[k] != pid
      {
        if buf[idx] == pid {
          assert old(Contents())[i] == pid;
          return;
        }
        RingNext(head, i);
        idx := (idx + 1) % MAX_PROCESSES;
        i := i + 1;
      }
      Push(pid);
    }

    /** What queue_remove_pid keeps, in a buffer of its own. */
    method Without(pid: nat) returns (tmp: array<nat>, n: nat, found: bool)
      requires Valid()
      ensures fresh(tmp) && tmp.Length == MAX_PROCESSES && n <= count
      ensures tmp[..n] == SemaphoreSpec.Remove(Contents(), pid) && found == (pid in Contents())
    {
      tmp := new nat[MAX_PROCESSES];
      n, found := 0, false;
      ghost var q := Contents();
      var idx, i := head, 0;
      while i < count
        invariant 0 <= i <= count && idx == (head + i) % MAX_PROCESSES && n <= i
        invariant tmp[..n] == SemaphoreSpec.Remove(q[..i], pid)
        invariant found == (pid in q[..i])
      {
        var x := buf[idx];
        assert x == q[i];
        assert q[..i + 1] == q[..i] + [x];
        RemoveSnoc(q[..i], x, pid);
        RingNext(head, i);
        if x != pid {
          tmp[n] := x;
          assert tmp[..n + 1] == tmp[..n] + [x];
          n := n + 1;
        } else {
          found := true;
        }
        idx := (idx + 1) % MAX_PROCESSES;
        i := i + 1;
      }
      assert q[..i] == q;
    }

    /** queue_remove_pid: compacts what is left to the front of the buffer. */
    method RemovePid(pid: nat) returns (found: bool)
      requires Valid()
      modifies this, buf
      ensures Valid() && Contents() == SemaphoreSpec.Remove(old(Contents()), pid) && found == (pid in old(Contents()))
    {
      if count <= 0 {
        return false;
      }
      var tmp, n;
      tmp, n, found := Without(pid);
      RemoveNone(Contents(), pid);
      if found {
        CopyFront(tmp, n);
        RingFront(buf[..], n);
        head, tail, count := 0, n, n;
        assert buf[..][..n] == buf[..n];
      }
    }

    method CopyFront(tmp: array<nat>, n: nat)
      requires buf.Length == MAX_PROCESSES == tmp.Length && n <= MAX_PROCESSES && tmp != buf
      modifies buf
      ensures buf[..n] == tmp[..n]
    {
      for i := 0 to n
        invariant buf[..i] == tmp[..i]
      {
        buf[i] := tmp[i];
      }
    }
  }
}
