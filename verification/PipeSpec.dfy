/**
 pipe.c, fd.c and the system calls on file descriptors, on values. The ring buffer of a pipe is the sequence of bytes
 in it; a FD names its pipe by its index in the pipe table.
 */
module PipeSpec {
  import opened Processes
  import SemaphoreSpec

  const PIPE_BUFFER_SIZE: nat := 4096
  const MAX_PIPES: nat := 32
  const PIPE_NAME_LEN: nat := 32
  const MAX_FDS: nat := MAX_PROCESSES * 2 + 2
  const FD_STDIN: nat := 0
  const FD_STDOUT: nat := 1

  const ERROR: int := -1

  type Byte = x: nat | x < 256

  datatype Pipe = Pipe(contents: seq<Byte>, openRead: nat, openWrite: nat, readers: seq<nat>, writers: seq<nat>,
                       inUse: bool, named: bool, eof: bool, opens: nat, name: string)

  datatype Kind = NoFd | Terminal | ReadEnd | WriteEnd

  datatype Fd = Fd(kind: Kind, refs: nat, pipe: nat)

  datatype Pipes = Pipes(pipes: seq<Pipe>, fds: seq<Fd>, view: View)

  const Closed: Pipe := Pipe([], 0, 0, [], [], false, false, false, 0, "")

  // ---------------------------------------------------------------- wait queues

  /** queue_push, which does not queue a process twice. */
  function Push(q: seq<nat>, pid: nat): seq<nat> {
    if |q| >= MAX_PROCESSES || pid in q then q else q + [pid]
  }

  function WakeReader(p: Pipe, v: View): (Pipe, View) {
    if p.readers == [] then (p, v) else (p.(readers := p.readers[1..]), ProcessUnblock(v, p.readers[0]))
  }

  function WakeWriter(p: Pipe, v: View): (Pipe, View) {
    if p.writers == [] then (p, v) else (p.(writers := p.writers[1..]), ProcessUnblock(v, p.writers[0]))
  }

  function UnblockAll(v: View, q: seq<nat>): View
    decreases |q|
  {
    if q == [] then v else UnblockAll(ProcessUnblock(v, q[0]), q[1..])
  }

  function WakeAllReaders(p: Pipe, v: View): (Pipe, View) {
    (p.(readers := []), UnblockAll(v, p.readers))
  }

  function WakeAllWriters(p: Pipe, v: View): (Pipe, View) {
    (p.(writers := []), UnblockAll(v, p.writers))
  }

  // ---------------------------------------------------------------- opening and closing ends

  function MaybeFree(p: Pipe): Pipe {
    if p.openRead == 0 && p.openWrite == 0 then Closed else p
  }

  function OpenRead(p: Pipe, v: View): (Pipe, View) {
    var p1 := p.(openRead := p.openRead + 1);
    if p1.named && |p1.writers| > 0 then WakeAllWriters(p1, v) else (p1, v)
  }

  function OpenWrite(p: Pipe, v: View): (Pipe, View) {
    var p1 := p.(openWrite := p.openWrite + 1);
    if p1.named then WakeAllReaders(p1.(eof := false), v) else (p1, v)
  }

  function Less(n: nat): nat { if n > 0 then n - 1 else 0 }

  function CloseRead(p: Pipe, v: View): (Pipe, View) {
    var p1 := p.(openRead := Less(p.openRead));
    var (p2, v2) := if p1.openRead == 0 then WakeAllWriters(p1, v) else (p1, v);
    (MaybeFree(p2), v2)
  }

  function CloseWrite(p: Pipe, v: View): (Pipe, View) {
    var p1 := p.(openWrite := Less(p.openWrite));
    var (p2, v2) := if p1.openWrite == 0 then WakeAllReaders(p1.(eof := p1.eof || (p1.named && p1.opens >= 2)), v)
                    else (p1, v);
    (MaybeFree(p2), v2)
  }

  // ---------------------------------------------------------------- reading and writing

  const BLOCKED: int := -1

  /** What a read of n bytes delivers and returns. */
  function ReadPipe(p: Pipe, v: View, n: nat): (Pipe, View, int, seq<Byte>) {
    if n == 0 then (p, v, 0, [])
    else if p.contents == [] then
      if (if p.named then p.eof else p.openWrite == 0) then (p, v, 0, [])
      else if v.cur.None? then (p, v, BLOCKED, [])
      else (p.(readers := Push(p.readers, v.cur.value)), ProcessBlock(v, v.cur.value), BLOCKED, [])
    else
      var m := if n > |p.contents| then |p.contents| else n;
      var p1 := p.(contents := p.contents[m..]);
      var (p2, v2) := if |p1.contents| < PIPE_BUFFER_SIZE then WakeWriter(p1, v) else (p1, v);
      (p2, v2, m, p.contents[..m])
  }

  function BlockWriter(p: Pipe, v: View): (Pipe, View, int) {
    if v.cur.None? then (p, v, BLOCKED)
    else (p.(writers := Push(p.writers, v.cur.value)), ProcessBlock(v, v.cur.value), BLOCKED)
  }

  function WritePipe(p: Pipe, v: View, data: seq<Byte>): (Pipe, View, int) {
    if data == [] then (p, v, 0)
    else if p.openRead == 0 then
      if p.named && !p.eof then BlockWriter(p, v) else (p, v, 0)
    else if |p.contents| >= PIPE_BUFFER_SIZE then BlockWriter(p, v)
    else
      var space := PIPE_BUFFER_SIZE - |p.contents|;
      var m := if |data| < space then |data| else space;
      var p1 := p.(contents := p.contents + data[..m]);
      var (p2, v2) := if |p1.contents| > 0 then WakeReader(p1, v) else (p1, v);
      (p2, v2, m)
  }

  // ---------------------------------------------------------------- pipe_open

  function StoredName(name: string): string {
    if |name| < PIPE_NAME_LEN then name else name[..PIPE_NAME_LEN - 1]
  }

  function FindNamed(ps: seq<Pipe>, name: string, i: nat): (r: Option<nat>)
    requires i <= |ps|
    ensures r.Some? ==> i <= r.value < |ps| && ps[r.value].inUse && ps[r.value].named && ps[r.value].name == name
    ensures forall j :: i <= j < (if r.Some? then r.value else |ps|) ==>
              !(ps[j].inUse && ps[j].named && ps[j].name == name)
    decreases |ps| - i
  {
    if i == |ps| then None
    else if ps[i].inUse && ps[i].named && ps[i].name == name then Some(i)
    else FindNamed(ps, name, i + 1)
  }

  function FindFree(ps: seq<Pipe>, i: nat): (r: Option<nat>)
    requires i <= |ps|
    ensures r.Some? ==> i <= r.value < |ps| && !ps[r.value].inUse
    ensures forall j :: i <= j < (if r.Some? then r.value else |ps|) ==> ps[j].inUse
    decreases |ps| - i
  {
    if i == |ps| then None else if !ps[i].inUse then Some(i) else FindFree(ps, i + 1)
  }

  /** A pipe just taken from the table. */
  function Begun(name: Option<string>): Pipe {
    if name.Some? then Closed.(inUse := true, named := true, name := StoredName(name.value), opens := 1)
    else Closed.(inUse := true)
  }

  function Reopened(p: Pipe): Pipe { p.(opens := p.opens + 1) }

  /** pipe_open, for an anonymous pipe if there is no name. */
  function PipeOpen(ps: seq<Pipe>, name: Option<string>): (r: (seq<Pipe>, Option<nat>))
    ensures |r.0| == |ps| && (r.1.Some? ==> r.1.value < |ps|)
  {
    var found := if name.Some? then FindNamed(ps, name.value, 0) else None;
    if found.Some? then (ps[found.value := Reopened(ps[found.value])], found)
    else
      match FindFree(ps, 0)
      case None => (ps, None)
      case Some(i) =>
        (ps[i := Begun(name)], Some(i))
  }

  // ---------------------------------------------------------------- the FD table

  function FreeFd(fds: seq<Fd>, i: nat): (r: Option<nat>)
    requires i <= |fds|
    ensures r.Some? ==> i <= r.value < |fds| && fds[r.value].kind == NoFd
    ensures forall j :: i <= j < (if r.Some? then r.value else |fds|) ==> fds[j].kind != NoFd
    decreases |fds| - i
  {
    if i == |fds| then None else if fds[i].kind == NoFd then Some(i) else FreeFd(fds, i + 1)
  }

  predicate Valid(s: Pipes, f: nat) {
    f < |s.fds| && s.fds[f].kind != NoFd
  }

  /** The FD is an end of a pipe of the table. */
  predicate IsEnd(s: Pipes, f: nat, kind: Kind) {
    f < |s.fds| && s.fds[f].kind == kind && s.fds[f].pipe < |s.pipes|
  }

  function SetPipe(s: Pipes, i: nat, r: (Pipe, View)): Pipes
    requires i < |s.pipes|
  {
    s.(pipes := s.pipes[i := r.0], view := r.1)
  }

  function Incref(s: Pipes, f: nat): (r: Pipes)
    ensures |r.pipes| == |s.pipes| && |r.fds| == |s.fds|
  {
    if !Valid(s, f) then s
    else
      var s1 := s.(fds := s.fds[f := s.fds[f].(refs := s.fds[f].refs + 1)]);
      var i := s.fds[f].pipe;
      if IsEnd(s, f, ReadEnd) then SetPipe(s1, i, OpenRead(s.pipes[i], s.view))
      else if IsEnd(s, f, WriteEnd) then SetPipe(s1, i, OpenWrite(s.pipes[i], s.view))
      else s1
  }

  /** The slot is free again when the last reference is gone, unless it is a terminal. */
  function Reclaim(fd: Fd): Fd {
    if fd.refs == 0 && fd.kind != Terminal then Fd(NoFd, 0, 0) else fd
  }

  function Decref(s: Pipes, f: nat): (r: Pipes)
    ensures |r.pipes| == |s.pipes| && |r.fds| == |s.fds|
  {
    if !Valid(s, f) then s
    else if s.fds[f].refs == 0 then s.(fds := s.fds[f := Reclaim(s.fds[f])])
    else
      var fd := s.fds[f].(refs := s.fds[f].refs - 1);
      var i := fd.pipe;
      var s1 := s.(fds := s.fds[f := Reclaim(fd)]);
      if IsEnd(s, f, ReadEnd) then SetPipe(s1, i, CloseRead(s.pipes[i], s.view))
      else if IsEnd(s, f, WriteEnd) then SetPipe(s1, i, CloseWrite(s.pipes[i], s.view))
      else s1
  }

  function CreateFd(s: Pipes, i: nat, kind: Kind): (Pipes, int) {
    match FreeFd(s.fds, 0)
    case None => (s, ERROR)
    case Some(f) => (Incref(s.(fds := s.fds[f := Fd(kind, 0, i)]), f), f)
  }

  // ---------------------------------------------------------------- system calls

  /** pipe_create_fds. */
  function CreateBoth(s: Pipes, i: nat): (Pipes, Option<(nat, nat)>) {
    var (s1, r) := CreateFd(s, i, ReadEnd);
    if r < 0 then (s1, None)
    else
      var (s2, w) := CreateFd(s1, i, WriteEnd);
      if w < 0 then (Decref(s2, r), None) else (s2, Some((r, w)))
  }

  /** sys_pipe and sys_pipe_open. */
  function SysPipe(s: Pipes, name: Option<string>): (Pipes, Option<(nat, nat)>) {
    var (ps, i) := PipeOpen(s.pipes, name);
    match i
    case None => (s, None)
    case Some(i) => CreateBoth(s.(pipes := ps), i)
  }

  function SetStd(b: Pcb, target: nat, f: int): Pcb {
    if target == 0 then b.(stdin := f) else b.(stdout := f)
  }

  function GetStd(b: Pcb, target: nat): int {
    if target == 0 then b.stdin else b.stdout
  }

  function Point(s: Pipes, pid: nat, target: nat, f: int): Pipes {
    if pid in s.view.procs then
      s.(view := s.view.(procs := s.view.procs[pid := SetStd(s.view.procs[pid], target, f)]))
    else s
  }

  /** A reference more to the FD of that number, if there is one; a negative number is none. */
  function Reference(s: Pipes, f: int): (r: Pipes)
    ensures |r.pipes| == |s.pipes| && |r.fds| == |s.fds|
  {
    if f >= 0 then Incref(s, f) else s
  }

  /** What standard stream `target` of pid was is released, and f takes its place. */
  function Redirect(s: Pipes, pid: nat, target: nat, f: int): Pipes
    requires pid in s.view.procs
  {
    var was := GetStd(s.view.procs[pid], target);
    var s1 := if was >= 0 then Decref(s, was) else s;
    Reference(Point(s1, pid, target, f), f)
  }

  function Dup2(s: Pipes, oldFd: nat, newFd: nat): (Pipes, int) {
    if newFd > 1 || !Valid(s, oldFd) || s.view.cur.None? || s.view.cur.value !in s.view.procs then (s, ERROR)
    else if GetStd(s.view.procs[s.view.cur.value], newFd) == oldFd then (s, oldFd)
    else (Redirect(s, s.view.cur.value, newFd, oldFd), oldFd)
  }

  /** process_pipe_setup. */
  function Setup(s: Pipes, pid: nat, f: int, target: nat): Pipes {
    if pid !in s.view.procs || target > 1 then s else Redirect(s, pid, target, f)
  }

  /** The table index a read or write of file number n goes to. */
  function Real(s: Pipes, n: nat, lastStd: nat): (r: Option<nat>)
    ensures r.Some? ==> s.view.cur.Some? && s.view.cur.value in s.view.procs
  {
    if s.view.cur.None? || s.view.cur.value !in s.view.procs then None
    else if n <= lastStd then
      var f := GetStd(s.view.procs[s.view.cur.value], n);
      if f < 0 then None else Some(f)
    else Some(n % 0x1_0000_0000)
  }

  predicate IsTerminal(s: Pipes, f: nat) {
    f < |s.fds| && s.fds[f].kind == Terminal
  }

  /** A read from the terminal, for a process in the foreground only; `typed` is what the keyboard has ready for it, the
      empty sequence at an end of input. With nothing ready the caller goes to sleep. */
  function ReadTerminal(s: Pipes, me: nat, count: nat, typed: Option<seq<Byte>>): (Pipes, int, seq<Byte>)
    requires me in s.view.procs
  {
    if s.view.procs[me].foreground == 0 then (s, 0, [])
    else
      match typed
      case None => (s.(view := s.view.(procs := s.view.procs[me := s.view.procs[me].(state := Blocked)],
                                       force := true)), BLOCKED, [])
      case Some(b) =>
        var data := if |b| > count then b[..count] else b;
        (s, |data|, data)
  }

  /** sys_read. */
  function SysRead(s: Pipes, n: nat, count: nat, typed: Option<seq<Byte>>): (Pipes, int, seq<Byte>) {
    match Real(s, n, FD_STDIN)
    case None => (s, 0, [])
    case Some(f) =>
      if count == 0 then (s, 0, [])
      else if IsEnd(s, f, ReadEnd) then
        var i := s.fds[f].pipe;
        var (p, v, r, data) := ReadPipe(s.pipes[i], s.view, count);
        (SetPipe(s, i, (p, v)), r, data)
      else if IsTerminal(s, f) then ReadTerminal(s, s.view.cur.value, count, typed)
      else (s, 0, [])
  }

  /** sys_write; a terminal takes everything. */
  function SysWrite(s: Pipes, n: nat, data: seq<Byte>): (Pipes, int) {
    match Real(s, n, FD_STDOUT)
    case None => (s, 0)
    case Some(f) =>
      if IsEnd(s, f, WriteEnd) then
        var i := s.fds[f].pipe;
        var (p, v, r) := WritePipe(s.pipes[i], s.view, data);
        (SetPipe(s, i, (p, v)), r)
      else (s, if IsTerminal(s, f) then |data| else 0)
  }

  // ---------------------------------------------------------------- death

  /** The pipe without the process in its queues. */
  function Dropped(p: Pipe, pid: nat): Pipe {
    p.(readers := SemaphoreSpec.Remove(p.readers, pid), writers := SemaphoreSpec.Remove(p.writers, pid))
  }

  function Unqueued(p: Pipe, pid: nat): Pipe {
    if p.inUse then Dropped(p, pid) else p
  }

  /** pipe_cleanup_for_process. */
  function PipeCleanup(s: Pipes, pid: nat): Pipes {
    s.(pipes := seq(|s.pipes|, i requires 0 <= i < |s.pipes| => Unqueued(s.pipes[i], pid)))
  }

  /** The references to both standard streams are given back. */
  function DropBoth(s: Pipes, stdin: int, stdout: int): Pipes {
    var s1 := if stdin >= 0 then Decref(s, stdin) else s;
    if stdout >= 0 then Decref(s1, stdout) else s1
  }

  /** process_release_fds. */
  function ReleaseFds(s: Pipes, pid: nat): Pipes {
    if pid !in s.view.procs then s
    else
      var b := s.view.procs[pid];
      Point(Point(DropBoth(s, b.stdin, b.stdout), pid, 0, -1), pid, 1, -1)
  }
}
