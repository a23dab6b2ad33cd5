/**
 The standard streams: what redirecting one does to it, where reads and writes of numbers 0 and 1 then go, and what the
 terminal answers.
 */
module PipeRouting {
  import opened Processes
  import opened PipeSpec
  import opened PipeStreams
  import Owners = PipeOwners

  predicate OtherStreams(v: View, v': View, pid: nat, p: nat)
    requires p in v.procs && p in v'.procs
  {
    p != pid ==> v'.procs[p].stdin == v.procs[p].stdin && v'.procs[p].stdout == v.procs[p].stdout
  }

  /** Stream `target` of pid is f, its other one and everybody else's are as they were. */
  ghost predicate OneStream(v: View, v': View, pid: nat, target: nat, f: int) {
    && v'.procs.Keys == v.procs.Keys && pid in v.procs && v'.cur == v.cur
    && GetStd(v'.procs[pid], target) == f
    && GetStd(v'.procs[pid], if target == 0 then 1 else 0) == GetStd(v.procs[pid], if target == 0 then 1 else 0)
    && forall p {:trigger OtherStreams(v, v', pid, p)} :: p in v.procs && p in v'.procs ==> OtherStreams(v, v', pid, p)
  }

  lemma DecrefCur(s: Pipes, f: nat)
    ensures Decref(s, f).view.cur == s.view.cur && Incref(s, f).view.cur == s.view.cur
  {
    if f < |s.fds| && s.fds[f].pipe < |s.pipes| {
      UnblockAllCur(s.view, s.pipes[s.fds[f].pipe].readers);
      UnblockAllCur(s.view, s.pipes[s.fds[f].pipe].writers);
    }
  }

  lemma {:induction false} UnblockAllCur(v: View, q: seq<nat>)
    ensures UnblockAll(v, q).cur == v.cur
    decreases |q|
  {
    if q != [] { UnblockAllCur(ProcessUnblock(v, q[0]), q[1..]); }
  }

  lemma RedirectIs(s: Pipes, pid: nat, target: nat, f: int)
    requires pid in s.view.procs && target <= 1
    ensures OneStream(s.view, Redirect(s, pid, target, f).view, pid, target, f)
  {
    var was := GetStd(s.view.procs[pid], target);
    var s1 := if was >= 0 then Decref(s, was) else s;
    if was >= 0 {
      Owners.RefsStd(s, was);
      DecrefCur(s, was);
    }
    var s2 := Point(s1, pid, target, f);
    if f >= 0 {
      Owners.RefsStd(s2, f);
      DecrefCur(s2, f);
    }
    var v' := Redirect(s, pid, target, f).view;
    assert s1.view.procs.Keys == s.view.procs.Keys;
    forall p | p in s.view.procs && p in v'.procs
      ensures p in s1.view.procs && p in s2.view.procs && OtherStreams(s.view, v', pid, p)
    {
      assert was >= 0 ==> Owners.StdAt(s.view, s1.view, p);
      assert f >= 0 ==> Owners.StdAt(s2.view, v', p);
    }
    assert was >= 0 ==> Owners.StdAt(s.view, s1.view, pid);
    assert f >= 0 ==> Owners.StdAt(s2.view, v', pid);
  }

  /** sys_dup2: refused for a stream that is none, a FD that is not in use, or without a caller; otherwise the stream is
      that FD, and the answer its number. */
  lemma DupIs(s: Pipes, oldFd: nat, newFd: nat)
    ensures var (s', r) := Dup2(s, oldFd, newFd);
            if newFd > 1 || !Valid(s, oldFd) || s.view.cur.None? || s.view.cur.value !in s.view.procs then
              s' == s && r == -1
            else r == oldFd && OneStream(s.view, s'.view, s.view.cur.value, newFd, oldFd)
  {
    if newFd <= 1 && s.view.cur.Some? && s.view.cur.value in s.view.procs && Dup2(s, oldFd, newFd).0 != s {
      RedirectIs(s, s.view.cur.value, newFd, oldFd);
    }
  }

  /** process_pipe_setup. */
  lemma SetupIs(s: Pipes, pid: nat, f: int, target: nat)
    ensures var s' := Setup(s, pid, f, target);
            if pid !in s.view.procs || target > 1 then s' == s else OneStream(s.view, s'.view, pid, target, f)
  {
    if pid in s.view.procs && target <= 1 { RedirectIs(s, pid, target, f); }
  }

  /** The FD a stream is redirected to is still what it was. */
  lemma FdStays(s: Pipes, pid: nat, target: nat, f: nat)
    requires pid in s.view.procs && target <= 1 && Valid(s, f) && GetStd(s.view.procs[pid], target) != f
    ensures var s' := Redirect(s, pid, target, f);
            && f < |s'.fds| && s'.fds[f].kind == s.fds[f].kind && s'.fds[f].pipe == s.fds[f].pipe
            && |s'.pipes| == |s.pipes|
  {
  }

  /** After a successful sys_dup2 of FD f to the standard output, what is written there goes where f leads; and what is
      read from the standard input comes from there. */
  lemma DupRoutes(s: Pipes, f: nat)
    requires Valid(s, f) && s.view.cur.Some? && s.view.cur.value in s.view.procs
    ensures WriteTo(Dup2(s, f, 1).0, 1) == if IsEnd(s, f, WriteEnd) then Some(s.fds[f].pipe) else None
    ensures ReadFrom(Dup2(s, f, 0).0, 0) == if IsEnd(s, f, ReadEnd) then Some(s.fds[f].pipe) else None
  {
    var me := s.view.cur.value;
    DupIs(s, f, 0);
    DupIs(s, f, 1);
    if GetStd(s.view.procs[me], 0) != f { FdStays(s, me, 0, f); }
    if GetStd(s.view.procs[me], 1) != f { FdStays(s, me, 1, f); }
  }

  /** Numbers above the standard ones are FDs themselves, those that fit in 32 bits. */
  lemma NumbersAreFds(s: Pipes, n: nat)
    requires 1 < n < |s.fds| <= MAX_FDS && s.view.cur.Some? && s.view.cur.value in s.view.procs
    ensures WriteTo(s, n) == if IsEnd(s, n, WriteEnd) then Some(s.fds[n].pipe) else None
    ensures ReadFrom(s, n) == if IsEnd(s, n, ReadEnd) then Some(s.fds[n].pipe) else None
  {
  }

  /** The streams of a dying process are closed. */
  lemma ReleaseIs(s: Pipes, pid: nat)
    requires pid in s.view.procs
    ensures var v' := ReleaseFds(s, pid).view;
            pid in v'.procs && v'.procs[pid].stdin == -1 && v'.procs[pid].stdout == -1
  {
    var b := s.view.procs[pid];
    var s1 := if b.stdin >= 0 then Decref(s, b.stdin) else s;
    if b.stdin >= 0 { Owners.RefsStd(s, b.stdin); }
    if b.stdout >= 0 { Owners.RefsStd(s1, b.stdout); }
  }

  // ---------------------------------------------------------------- the terminal, and what is no stream

  /** A terminal takes all that is written to it. A read of it gives a process in the background nothing; otherwise what
      has been typed, as much as is asked for; and with nothing typed the caller goes to sleep. */
  lemma TerminalIs(s: Pipes, n: nat, f: nat, data: seq<Byte>, count: nat, typed: Option<seq<Byte>>)
    requires IsTerminal(s, f)
    ensures Real(s, n, FD_STDOUT) == Some(f) ==> SysWrite(s, n, data) == (s, |data|)
    ensures Real(s, n, FD_STDIN) == Some(f) && count > 0 ==>
            var (s', r, got) := SysRead(s, n, count, typed);
            var me := s.view.cur.value;
            if s.view.procs[me].foreground == 0 then s' == s && r == 0 && got == []
            else if typed.Some? then s' == s && r == |got| <= count && got <= typed.value
              && (r == count || got == typed.value)
            else r == -1 && got == [] && me in s'.view.procs && s'.view.procs[me].state == Blocked && s'.view.force
                 && s'.pipes == s.pipes && s'.fds == s.fds
  {
  }

  /** Nothing can be read from or written to a number that leads nowhere. */
  lemma NowhereIs(s: Pipes, n: nat, data: seq<Byte>, count: nat, typed: Option<seq<Byte>>)
    ensures (Real(s, n, FD_STDOUT).None? || !(IsEnd(s, Real(s, n, FD_STDOUT).value, WriteEnd)
                                              || IsTerminal(s, Real(s, n, FD_STDOUT).value))) ==>
            SysWrite(s, n, data) == (s, 0)
    ensures (Real(s, n, FD_STDIN).None? || !(IsEnd(s, Real(s, n, FD_STDIN).value, ReadEnd)
                                             || IsTerminal(s, Real(s, n, FD_STDIN).value))) ==>
            SysRead(s, n, count, typed) == (s, 0, [])
  {
  }
}
