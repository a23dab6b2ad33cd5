/**
 test_sync.c: any number of my_process_inc processes, with use_sem set, interleaved step by step with each other,
 with everything else that goes on in the kernel and with their own deaths. At most one of them is between its wait and
 its post, and the shared counter is the sum of what has been added to it.
 */
module TestSync {
  import opened Processes
  import opened SemaphoreSpec
  import opened SemaphoreTheorems
  import opened SemaphoreFrames
  import opened SemaphoreSlices

  const SEM_ID: string := "sem"

  /** Where a process is: before sem_open, at the loop's head, past sem_wait, past `aux = *p`, past `*p = aux`,
      past sem_close; or it returned an error before the loop, or was killed. */
  datatype Pc = Start | Top | Entered | Loaded(aux: int) | Stored | Done | Failed | Dead

  datatype Task = Task(pid: nat, n: nat, inc: int, done: nat, pc: Pc)

  datatype System = System(w: World, counter: int, tasks: seq<Task>)

  datatype Event = TaskStep(k: nat) | KillTask(k: nat) | Outside(s: Step)

  predicate Inside(t: Task) {
    t.pc.Entered? || t.pc.Loaded? || t.pc.Stored?
  }

  /** The process has the semaphore open. */
  predicate Active(t: Task) {
    t.pc.Top? || Inside(t)
  }

  predicate Over(t: Task) {
    t.pc.Done? || t.pc.Failed? || t.pc.Dead?
  }

  predicate IsTask(ts: seq<Task>, pid: nat) {
    exists k :: 0 <= k < |ts| && ts[k].pid == pid
  }

  /** A process of the test may be killed at any point. */
  ghost predicate Enabled(s: System, e: Event) {
    match e
    case TaskStep(k) =>
      k < |s.tasks| && s.w.view.cur == Some(s.tasks[k].pid) && CallerRuns(s.w) && !Over(s.tasks[k])
    case KillTask(k) => k < |s.tasks| && s.tasks[k].pid in s.w.view.procs && !Over(s.tasks[k])
    case Outside(step) =>
      && Legal(s.w, step) && Elsewhere(s.w, step, SEM_ID)
      && (step.Die? ==> forall k :: 0 <= k < |s.tasks| && s.tasks[k].pid == step.pid ==> Over(s.tasks[k]))
      && (!step.Die? && !step.Other? ==> s.w.view.cur.Some? && !IsTask(s.tasks, s.w.view.cur.value))
  }

  /** One statement of my_process_inc, of which slowInc is two: the load and the store may be far apart. */
  function Do(s: System, k: nat): System
    requires k < |s.tasks|
  {
    var t := s.tasks[k];
    match t.pc
    case Start =>
      if t.n == 0 || t.inc == 0 then s.(tasks := s.tasks[k := t.(pc := Failed)])
      else
        var (w, r) := SemOpen(s.w, SEM_ID, 1);
        s.(w := w, tasks := s.tasks[k := t.(pc := if r == 0 then Failed else Top)])
    case Top =>
      if t.done < t.n then s.(w := SemWait(s.w, SEM_ID).0, tasks := s.tasks[k := t.(pc := Entered)])
      else s.(w := SemClose(s.w, SEM_ID).0, tasks := s.tasks[k := t.(pc := Done)])
    case Entered => s.(tasks := s.tasks[k := t.(pc := Loaded(s.counter))])
    case Loaded(aux) => s.(counter := aux + t.inc, tasks := s.tasks[k := t.(pc := Stored)])
    case Stored => s.(w := SemPost(s.w, SEM_ID).0, tasks := s.tasks[k := t.(pc := Top, done := t.done + 1)])
    case Done => s
    case Failed => s
    case Dead => s
  }

  /** What has been stored stays stored. */
  function Killed(t: Task): Task { t.(pc := Dead, done := Stores(t)) }

  /** How often the process has stored to the counter. */
  function Stores(t: Task): nat { t.done + if t.pc.Stored? then 1 else 0 }

  function After(s: System, e: Event): System
    requires !e.Outside? ==> e.k < |s.tasks|
  {
    match e
    case TaskStep(k) => Do(s, k)
    case KillTask(k) => s.(w := Next(s.w, Die(s.tasks[k].pid)), tasks := s.tasks[k := Killed(s.tasks[k])])
    case Outside(step) => s.(w := Next(s.w, step))
  }

  /** What the process has added to the counter so far. */
  function Added(t: Task): int {
    Stores(t) * t.inc
  }

  function Sum(ts: seq<Task>): int {
    if ts == [] then 0 else Added(ts[0]) + Sum(ts[1..])
  }

  // ---------------------------------------------------------------- the invariant

  predicate TaskOk(t: Task) {
    && t.done <= t.n && (Inside(t) ==> t.done < t.n) && (t.pc.Done? ==> t.done == t.n)
    && (t.pc.Start? || t.pc.Failed? ==> t.done == 0)
  }

  ghost predicate TasksOk(ts: seq<Task>) {
    && (forall k :: 0 <= k < |ts| ==> TaskOk(ts[k]))
    && forall j, k :: 0 <= j < k < |ts| ==> ts[j].pid != ts[k].pid
  }

  /** Task t as the semaphore sees it: it has it open while active, and holds it while inside and not waiting. */
  predicate Linked(m: Slice, t: Task) {
    && (Active(t) <==> t.pid in m.openers)
    && (t.pid in m.queue ==> t.pc.Entered?)
    && (t.pid in m.holders <==> Inside(t) && t.pid !in m.queue)
  }

  ghost predicate AllLinked(m: Slice, ts: seq<Task>) {
    && (forall k {:trigger ts[k]} :: 0 <= k < |ts| ==> Linked(m, ts[k]))
    && (forall p :: p in m.openers ==> IsTask(ts, p))
  }

  /** One unit in all: in the value, or with the one that holds it, or owed to those that wait. */
  ghost predicate Lock(m: Slice) {
    m.openers != {} ==> m.value + |m.holders| + |m.queue| == 1 && forall p :: p in m.queue ==> p !in m.holders
  }

  ghost predicate Loads(s: System) {
    forall k :: 0 <= k < |s.tasks| && s.tasks[k].pc.Loaded? ==> s.tasks[k].pc.aux == s.counter
  }

  /** The counter is the sum of what was added, and whoever has loaded it has its current value. */
  ghost predicate DataInv(s: System) {
    TasksOk(s.tasks) && Loads(s) && s.counter == Sum(s.tasks)
  }

  ghost function TheSem(s: System): Slice { SliceOf(s.w, SEM_ID) }

  ghost predicate LinkInv(m: Slice, ts: seq<Task>) {
    SliceOk(m) && Lock(m) && AllLinked(m, ts)
  }

  ghost predicate Inv(s: System) {
    SemInv(s.w) && DataInv(s) && LinkInv(TheSem(s), s.tasks)
  }

  /** A process that is past its wait and has been let in. */
  predicate In(m: Slice, t: Task) {
    Inside(t) && t.pid !in m.queue
  }

  ghost predicate Critical(s: System, k: nat) {
    k < |s.tasks| && In(TheSem(s), s.tasks[k])
  }

  lemma TwoHolders(a: nat, b: nat, h: set<nat>)
    requires a in h && b in h && a != b
    ensures |h| >= 2
  {
    SubsetSize({a, b}, h);
  }

  lemma OnlyOneIn(m: Slice, ts: seq<Task>, j: nat, k: nat)
    requires LinkInv(m, ts) && j < |ts| && k < |ts| && ts[j].pid != ts[k].pid && In(m, ts[j])
    ensures !In(m, ts[k])
  {
    assert Linked(m, ts[j]) && Linked(m, ts[k]);
    if In(m, ts[k]) { TwoHolders(ts[j].pid, ts[k].pid, m.holders); }
  }

  /** Mutual exclusion: two different processes are never both between their wait and their post. */
  lemma MutualExclusion(s: System, j: nat, k: nat)
    requires Inv(s) && Critical(s, j) && Critical(s, k)
    ensures j == k
  {
    if j != k {
      assert s.tasks[j].pid != s.tasks[k].pid;
      OnlyOneIn(TheSem(s), s.tasks, j, k);
    }
  }

  lemma {:induction false} SumUpdate(ts: seq<Task>, k: nat, t: Task)
    requires k < |ts|
    ensures Sum(ts[k := t]) == Sum(ts) - Added(ts[k]) + Added(t)
  {
    if k == 0 {
      assert ts[0 := t][1..] == ts[1..];
    } else {
      assert ts[k := t][1..] == ts[1..][k - 1 := t];
      SumUpdate(ts[1..], k - 1, t);
    }
  }

  // ---------------------------------------------------------------- one process moves on

  lemma TaskStays(ts: seq<Task>, k: nat, t: Task, p: nat)
    requires k < |ts| && t.pid == ts[k].pid && IsTask(ts, p)
    ensures IsTask(ts[k := t], p)
  {
    var j :| 0 <= j < |ts| && ts[j].pid == p;
    assert ts[k := t][j].pid == p;
  }

  /** Task k moves on to t, and the semaphore changes at most for it. */
  lemma MoveLinks(m: Slice, m': Slice, ts: seq<Task>, k: nat, t: Task)
    requires AllLinked(m, ts) && TasksOk(ts) && k < |ts| && t.pid == ts[k].pid && OnlyFor(m, m', t.pid) && Linked(m', t)
    ensures AllLinked(m', ts[k := t])
  {
    forall j | 0 <= j < |ts| && j != k ensures Linked(m', ts[j]) {
      assert ts[j].pid != t.pid && Linked(m, ts[j]) && SameFor(m, m', ts[j].pid);
    }
    forall p | p in m'.openers ensures IsTask(ts[k := t], p) {
      if p == t.pid {
        assert ts[k].pid == p;
      } else {
        assert SameFor(m, m', p);
      }
      TaskStays(ts, k, t, p);
    }
  }

  lemma DataUpdate(s: System, k: nat, t: Task)
    requires DataInv(s) && k < |s.tasks| && Stores(t) == Stores(s.tasks[k]) && t.inc == s.tasks[k].inc
    requires t.pid == s.tasks[k].pid
    requires !t.pc.Loaded? && TaskOk(t)
    ensures DataInv(s.(tasks := s.tasks[k := t])) && TasksOk(s.tasks[k := t])
  {
    SumUpdate(s.tasks, k, t);
  }

  lemma StoreAdds(t: Task)
    requires !t.pc.Stored?
    ensures Added(t.(pc := Stored)) == Added(t) + t.inc
  {
    assert (t.done + 1) * t.inc == t.done * t.inc + t.inc;
  }

  lemma LocalData(s: System, k: nat)
    requires DataInv(s) && k < |s.tasks| && (s.tasks[k].pc.Entered? || s.tasks[k].pc.Loaded?)
    requires forall j :: 0 <= j < |s.tasks| && s.tasks[j].pc.Loaded? ==> j == k
    ensures DataInv(Do(s, k))
  {
    var t := s.tasks[k];
    SumUpdate(s.tasks, k, Do(s, k).tasks[k]);
    if t.pc.Loaded? { StoreAdds(t); }
  }

  // ---------------------------------------------------------------- what the calls do to the semaphore's tasks

  lemma OpenLinks(m: Slice, ts: seq<Task>, k: nat)
    requires LinkInv(m, ts) && TasksOk(ts) && k < |ts| && ts[k].pc.Start? && SliceOk(OpenSlice(m, ts[k].pid, 1))
    ensures LinkInv(OpenSlice(m, ts[k].pid, 1), ts[k := ts[k].(pc := Top)])
  {
    var m' := OpenSlice(m, ts[k].pid, 1);
    assert Linked(m, ts[k]);
    assert OnlyFor(m, m', ts[k].pid) by {
      forall q | q != ts[k].pid ensures SameFor(m, m', q) { }
    }
    MoveLinks(m, m', ts, k, ts[k].(pc := Top));
  }

  lemma WaitLinks(m: Slice, ts: seq<Task>, k: nat)
    requires LinkInv(m, ts) && TasksOk(ts) && k < |ts| && ts[k].pc.Top? && SliceOk(WaitSlice(m, ts[k].pid))
    ensures LinkInv(WaitSlice(m, ts[k].pid), ts[k := ts[k].(pc := Entered)])
  {
    var m' := WaitSlice(m, ts[k].pid);
    assert Linked(m, ts[k]);
    MoveLinks(m, m', ts, k, ts[k].(pc := Entered));
  }

  /** The unit goes back to the value, or to the first that waits, which is let in. */
  lemma GiveBackLinks(m: Slice, ts: seq<Task>)
    requires SliceOk(m) && m.openers != {} && AllLinked(m, ts)
    requires m.value + |m.holders| + |m.queue| == 0 && forall p :: p in m.queue ==> p !in m.holders
    ensures var m' := GiveBackSlice(m); SliceOk(m') && Lock(m') && AllLinked(m', ts)
  {
    var m' := GiveBackSlice(m);
    if m.queue != [] {
      HeadIsNew(m.queue);
      assert m.queue[0] in m.queue;
      assert forall p :: p in m.queue <==> p == m.queue[0] || p in m'.queue;
    }
    forall j | 0 <= j < |ts| ensures Linked(m', ts[j]) { assert Linked(m, ts[j]); }
  }

  lemma PostLinks(m: Slice, ts: seq<Task>, k: nat, t: Task)
    requires LinkInv(m, ts) && TasksOk(ts) && k < |ts| && In(m, ts[k]) && t == ts[k].(pc := Top, done := t.done)
    ensures LinkInv(PostSlice(m, ts[k].pid), ts[k := t])
  {
    assert Linked(m, ts[k]);
    var m1 := m.(holders := m.holders - {t.pid});
    assert |m1.holders| == |m.holders| - 1;
    MoveLinks(m, m1, ts, k, t);
    GiveBackLinks(m1, ts[k := t]);
  }

  lemma CloseLinks(m: Slice, ts: seq<Task>, k: nat)
    requires LinkInv(m, ts) && TasksOk(ts) && k < |ts| && ts[k].pc.Top? && SliceOk(CloseSlice(m, ts[k].pid))
    ensures LinkInv(CloseSlice(m, ts[k].pid), ts[k := ts[k].(pc := Done)])
  {
    var m' := CloseSlice(m, ts[k].pid);
    assert Linked(m, ts[k]);
    assert m.holders - {ts[k].pid} == m.holders;
    assert OnlyFor(m, m', ts[k].pid) by {
      forall q | q != ts[k].pid ensures SameFor(m, m', q) { }
    }
    MoveLinks(m, m', ts, k, ts[k].(pc := Done));
  }

  /** A process that is killed leaves the queue, or gives back what it holds; the last one takes the semaphore along. */
  lemma KillLinks(m: Slice, ts: seq<Task>, k: nat, t: Task)
    requires LinkInv(m, ts) && TasksOk(ts) && k < |ts| && !Over(ts[k]) && t == ts[k].(pc := Dead, done := t.done)
    ensures LinkInv(DieSlice(m, ts[k].pid), ts[k := t])
  {
    assert Linked(m, ts[k]);
    var p := ts[k].pid;
    if m.openers == {p} {
      forall q | q != p ensures SameFor(m, Absent, q) { }
      MoveLinks(m, Absent, ts, k, t);
    } else if p !in m.openers {
      MoveLinks(m, m, ts, k, t);
    } else {
      LeaveLinks(m, ts, k, t);
    }
  }

  /** The semaphore without p, before anything is given back. */
  function Without(m: Slice, p: nat): Slice {
    m.(openers := m.openers - {p}, holders := m.holders - {p}, queue := Remove(m.queue, p),
       value := if p in m.queue then m.value + 1 else m.value)
  }

  lemma WithoutOk(m: Slice, p: nat)
    requires SliceOk(m) && Lock(m) && p in m.openers && m.openers != {p}
    ensures var m1 := Without(m, p);
            && SliceOk(m1) && OnlyFor(m, m1, p) && m1.openers != {} && p !in m1.openers && p !in m1.queue
            && p !in m1.holders
            && m1.value + |m1.holders| + |m1.queue| == (if p in m.holders && p !in m.queue then 0 else 1)
            && forall q :: q in m1.queue ==> q !in m1.holders
    ensures LeaveSlice(m, p) ==
            if p !in m.queue && p in m.holders then GiveBackSlice(Without(m, p)) else Without(m, p)
  {
    RemoveIs(m.queue, p);
    var m1 := Without(m, p);
    assert m.openers == m1.openers + {p};
    assert p !in m.holders ==> m1.holders == m.holders;
    assert |m1.holders| == if p in m.holders then |m.holders| - 1 else |m.holders|;
  }

  lemma LeaveLinks(m: Slice, ts: seq<Task>, k: nat, t: Task)
    requires LinkInv(m, ts) && TasksOk(ts) && k < |ts| && t == ts[k].(pc := Dead, done := t.done)
    requires t.pid in m.openers && m.openers != {t.pid}
    ensures LinkInv(LeaveSlice(m, t.pid), ts[k := t])
  {
    assert Linked(m, ts[k]);
    var m1 := Without(m, t.pid);
    WithoutOk(m, t.pid);
    MoveLinks(m, m1, ts, k, t);
    if t.pid !in m.queue && t.pid in m.holders { GiveBackLinks(m1, ts[k := t]); }
  }

  // ---------------------------------------------------------------- preservation

  lemma SemIsOk(s: System)
    requires SemInv(s.w)
    ensures SliceOk(TheSem(s)) && (CallerRuns(s.w) ==> s.w.view.cur.value !in TheSem(s).queue)
  {
    SliceIsOk(s.w, SEM_ID);
  }

  /** A task on the CPU waits in no queue, and has the semaphore open just while it is active. */
  lemma CallerIs(s: System, k: nat)
    requires Inv(s) && Enabled(s, TaskStep(k))
    ensures s.tasks[k].pid !in TheSem(s).queue && Linked(TheSem(s), s.tasks[k])
    ensures Active(s.tasks[k]) <==> Find(s.w, SEM_ID).Some? && Find(s.w, SEM_ID).value in Me(s.w).openedSems
  {
    SemIsOk(s);
  }

  lemma OutsideKeeps(s: System, step: Step)
    requires Inv(s) && Enabled(s, Outside(step))
    ensures Inv(After(s, Outside(step)))
  {
    ElsewhereEquation(s.w, step, SEM_ID);
  }

  /** Task k moved on to t, and the counter is what it was. */
  lemma Moved(s: System, s': System, k: nat, t: Task)
    requires Inv(s) && SemInv(s'.w) && k < |s.tasks| && LinkInv(TheSem(s'), s.tasks[k := t])
    requires s'.counter == s.counter && s'.tasks == s.tasks[k := t]
    requires Stores(t) == Stores(s.tasks[k]) && t.inc == s.tasks[k].inc && t.pid == s.tasks[k].pid
    requires !t.pc.Loaded? && TaskOk(t)
    ensures Inv(s')
  {
    DataUpdate(s, k, t);
  }

  /** The semaphore after the call the task makes. */
  lemma CallIs(s: System, k: nat)
    requires Inv(s) && Enabled(s, TaskStep(k)) && (s.tasks[k].pc.Top? || s.tasks[k].pc.Stored?)
    ensures var s' := Do(s, k);
            var t := s.tasks[k];
            && SemInv(s'.w) && SliceOk(TheSem(s'))
            && TheSem(s') == if t.pc.Stored? then PostSlice(TheSem(s), t.pid)
                             else if t.done < t.n then WaitSlice(TheSem(s), t.pid) else CloseSlice(TheSem(s), t.pid)
  {
    CallerIs(s, k);
    if s.tasks[k].pc.Stored? {
      PostEquation(s.w, SEM_ID);
    } else if s.tasks[k].done < s.tasks[k].n {
      WaitEquation(s.w, SEM_ID);
    } else {
      CloseEquation(s.w, SEM_ID);
    }
    SemIsOk(Do(s, k));
  }

  lemma StartKeeps(s: System, k: nat)
    requires Inv(s) && Enabled(s, TaskStep(k)) && s.tasks[k].pc.Start?
    ensures Inv(Do(s, k))
  {
    var t := s.tasks[k];
    var s' := Do(s, k);
    CallerIs(s, k);
    DataUpdate(s, k, s'.tasks[k]);
    if t.n != 0 && t.inc != 0 { OpenEquation(s.w, SEM_ID, 1); }
    if s'.tasks[k].pc.Top? {
      SemIsOk(s');
      OpenLinks(TheSem(s), s.tasks, k);
    } else {
      MoveLinks(TheSem(s), TheSem(s), s.tasks, k, s'.tasks[k]);
    }
  }

  /** The steps that make no system call. */
  lemma LocalKeeps(s: System, k: nat)
    requires Inv(s) && Enabled(s, TaskStep(k)) && (s.tasks[k].pc.Entered? || s.tasks[k].pc.Loaded?)
    ensures Inv(Do(s, k))
  {
    CallerIs(s, k);
    forall j | 0 <= j < |s.tasks| && s.tasks[j].pc.Loaded? ensures j == k {
      assert Linked(TheSem(s), s.tasks[j]);
      assert Critical(s, j) && Critical(s, k);
      MutualExclusion(s, j, k);
    }
    LocalData(s, k);
    MoveLinks(TheSem(s), TheSem(s), s.tasks, k, Do(s, k).tasks[k]);
  }

  lemma WaitKeepsInv(s: System, k: nat)
    requires Inv(s) && Enabled(s, TaskStep(k)) && s.tasks[k].pc.Top? && s.tasks[k].done < s.tasks[k].n
    ensures Inv(Do(s, k))
  {
    CallIs(s, k);
    assert TaskOk(s.tasks[k]);
    WaitLinks(TheSem(s), s.tasks, k);
    Moved(s, Do(s, k), k, s.tasks[k].(pc := Entered));
  }

  lemma PostMoves(s: System, s': System, k: nat)
    requires Inv(s) && SemInv(s'.w) && k < |s.tasks| && s.tasks[k].pc.Stored? && In(TheSem(s), s.tasks[k])
    requires TheSem(s') == PostSlice(TheSem(s), s.tasks[k].pid) && s'.counter == s.counter
    requires s'.tasks == s.tasks[k := s.tasks[k].(pc := Top, done := s.tasks[k].done + 1)]
    ensures Inv(s')
  {
    var t := s'.tasks[k];
    assert TaskOk(s.tasks[k]);
    PostLinks(TheSem(s), s.tasks, k, t);
    Moved(s, s', k, t);
  }

  lemma PostKeepsInv(s: System, k: nat)
    requires Inv(s) && Enabled(s, TaskStep(k)) && s.tasks[k].pc.Stored?
    ensures Inv(Do(s, k))
  {
    CallerIs(s, k);
    CallIs(s, k);
    PostMoves(s, Do(s, k), k);
  }

  lemma CloseKeepsInv(s: System, k: nat)
    requires Inv(s) && Enabled(s, TaskStep(k)) && s.tasks[k].pc.Top? && s.tasks[k].done == s.tasks[k].n
    ensures Inv(Do(s, k))
  {
    CallIs(s, k);
    CloseLinks(TheSem(s), s.tasks, k);
    Moved(s, Do(s, k), k, s.tasks[k].(pc := Done));
  }

  lemma KillKeepsInv(s: System, k: nat)
    requires Inv(s) && Enabled(s, KillTask(k))
    ensures Inv(After(s, KillTask(k)))
  {
    var t := Killed(s.tasks[k]);
    DieEquation(s.w, s.tasks[k].pid, SEM_ID);
    KillLinks(TheSem(s), s.tasks, k, t);
    assert TaskOk(s.tasks[k]);
    Moved(s, After(s, KillTask(k)), k, t);
  }

  /** Every step of every process, and every death, keeps the invariant. */
  lemma StepKeepsInv(s: System, e: Event)
    requires Inv(s) && Enabled(s, e)
    ensures Inv(After(s, e))
  {
    match e
    case Outside(step) => OutsideKeeps(s, step);
    case KillTask(k) => KillKeepsInv(s, k);
    case TaskStep(k) =>
      match s.tasks[k].pc
      case Start => StartKeeps(s, k);
      case Top =>
        assert TaskOk(s.tasks[k]);
        if s.tasks[k].done < s.tasks[k].n { WaitKeepsInv(s, k); } else { CloseKeepsInv(s, k); }
      case Entered => LocalKeeps(s, k);
      case Loaded(_) => LocalKeeps(s, k);
      case Stored => PostKeepsInv(s, k);
  }

  // ---------------------------------------------------------------- runs

  ghost predicate Runs(s: System, es: seq<Event>)
    decreases |es|
  {
    es == [] || (Enabled(s, es[0]) && Runs(After(s, es[0]), es[1..]))
  }

  ghost function End(s: System, es: seq<Event>): System
    requires Runs(s, es)
    decreases |es|
  {
    if es == [] then s else End(After(s, es[0]), es[1..])
  }

  /** The counter is zero, no process has begun, and the semaphore does not exist yet. */
  ghost predicate Initial(s: System) {
    && SemInv(s.w) && Find(s.w, SEM_ID).None? && s.counter == 0
    && (forall k :: 0 <= k < |s.tasks| ==> s.tasks[k].pc.Start? && s.tasks[k].done == 0)
    && forall j, k :: 0 <= j < k < |s.tasks| ==> s.tasks[j].pid != s.tasks[k].pid
  }

  lemma {:induction false} SumOfNothing(ts: seq<Task>)
    requires forall k :: 0 <= k < |ts| ==> ts[k].pc.Start? && ts[k].done == 0
    ensures Sum(ts) == 0
  {
    if ts != [] { SumOfNothing(ts[1..]); }
  }

  lemma {:induction false} RunKeepsInv(s: System, es: seq<Event>)
    requires Inv(s) && Runs(s, es)
    ensures Inv(End(s, es))
    decreases |es|
  {
    if es != [] {
      StepKeepsInv(s, es[0]);
      RunKeepsInv(After(s, es[0]), es[1..]);
    }
  }

  /** What a process has added in all: everything, or as much as it got to store before it was killed. */
  function Due(ts: seq<Task>): int {
    if ts == [] then 0
    else (if ts[0].pc.Done? then ts[0].n else if ts[0].pc.Dead? then ts[0].done else 0) * ts[0].inc + Due(ts[1..])
  }

  lemma {:induction false} SumWhenOver(ts: seq<Task>)
    requires forall k :: 0 <= k < |ts| ==> TaskOk(ts[k]) && Over(ts[k])
    ensures Sum(ts) == Due(ts)
  {
    if ts != [] {
      assert TaskOk(ts[0]) && Over(ts[0]);
      SumWhenOver(ts[1..]);
    }
  }

  /** From any start, under any interleaving and whoever is killed at whatever point: at most one process is inside, and
      when all are over the counter is the sum of n * inc over those that finished, and of what the others had
      stored. */
  lemma ExclusionAndFinalSum(s: System, es: seq<Event>)
    requires Initial(s) && Runs(s, es)
    ensures var e := End(s, es);
            && (forall j: nat, k: nat :: Critical(e, j) && Critical(e, k) ==> j == k)
            && ((forall k :: 0 <= k < |e.tasks| ==> Over(e.tasks[k])) ==> e.counter == Due(e.tasks))
  {
    SumOfNothing(s.tasks);
    assert TheSem(s) == Absent;
    assert forall k :: 0 <= k < |s.tasks| ==> s.tasks[k].pc.Start?;
    assert Inv(s);
    RunKeepsInv(s, es);
    var e := End(s, es);
    forall j: nat, k: nat | Critical(e, j) && Critical(e, k) ensures j == k { MutualExclusion(e, j, k); }
    if forall k :: 0 <= k < |e.tasks| ==> Over(e.tasks[k]) {
      SumWhenOver(e.tasks);
    }
  }
}
