/**
 mvar.c: any number of writers and readers of one MVar, a one-slot buffer on two semaphores, interleaved step by step
 with each other, with everything else in the kernel and with the death of participants. There is one token, and the
 values taken are the values put, in order.
 */
module MVar {
  import opened Processes
  import opened SemaphoreSpec
  import opened SemaphoreTheorems
  import opened SemaphoreFrames
  import opened SemaphoreSlices

  const UMVAR_NAME_LEN: nat := 28

  /** Before the first sem_open; past it; past a second one that failed; at the loop's head; past sem_wait; past
      the access to the slot; returned with an error; killed. */
  datatype Pc = Start | HasEmpty | MustClose | Idle | Waited | Touched | Failed | Dead

  datatype Part = Part(pid: nat, writer: bool, letter: char, pc: Pc)

  /** `puts` and `takes` record the accesses to the slot in their order. */
  datatype System = System(name: string, w: World, slot: char, parts: seq<Part>, puts: seq<char>, takes: seq<char>)

  datatype Event = PartStep(k: nat) | KillPart(k: nat) | Outside(s: Step)

  function Base(name: string): string {
    if |name| < UMVAR_NAME_LEN then name else name[..UMVAR_NAME_LEN - 1]
  }

  /** build_sem_names: both names fit a semaphore's, and they differ. */
  function EmptyName(name: string): string { Base(name) + "e" }

  function FullName(name: string): string { Base(name) + "f" }

  lemma NamesDiffer(name: string)
    ensures |EmptyName(name)| == |FullName(name)| < SEM_NAME_LEN && EmptyName(name) != FullName(name)
    ensures Base(name) <= name && |Base(name)| == if |name| < 28 then |name| else 27
  {
    assert EmptyName(name)[|Base(name)|] == 'e' && FullName(name)[|Base(name)|] == 'f';
  }

  /** The semaphore a participant waits on, and the one it posts. */
  function WaitName(s: System, t: Part): string { if t.writer then EmptyName(s.name) else FullName(s.name) }

  function PostName(s: System, t: Part): string { if t.writer then FullName(s.name) else EmptyName(s.name) }

  predicate HasBoth(t: Part) { t.pc.Idle? || t.pc.Waited? || t.pc.Touched? }

  predicate HasFirst(t: Part) { t.pc.HasEmpty? || t.pc.MustClose? || HasBoth(t) }

  /** One statement of a writer or a reader. */
  function Do(s: System, k: nat): System
    requires k < |s.parts|
  {
    var t := s.parts[k];
    match t.pc
    case Start =>
      var (w, r) := SemOpen(s.w, EmptyName(s.name), 1);
      s.(w := w, parts := s.parts[k := t.(pc := if r == 0 then Failed else HasEmpty)])
    case HasEmpty =>
      var (w, r) := SemOpen(s.w, FullName(s.name), 0);
      s.(w := w, parts := s.parts[k := t.(pc := if r == 0 then MustClose else Idle)])
    case MustClose => s.(w := SemClose(s.w, EmptyName(s.name)).0, parts := s.parts[k := t.(pc := Failed)])
    case Idle => s.(w := SemWait(s.w, WaitName(s, t)).0, parts := s.parts[k := t.(pc := Waited)])
    case Waited =>
      if t.writer then s.(slot := t.letter, puts := s.puts + [t.letter], parts := s.parts[k := t.(pc := Touched)])
      else s.(takes := s.takes + [s.slot], parts := s.parts[k := t.(pc := Touched)])
    case Touched => s.(w := SemPost(s.w, PostName(s, t)).0, parts := s.parts[k := t.(pc := Idle)])
    case Failed => s
    case Dead => s
  }

  function After(s: System, e: Event): System
    requires !e.Outside? ==> e.k < |s.parts|
  {
    match e
    case PartStep(k) => Do(s, k)
    case KillPart(k) => s.(w := Next(s.w, Die(s.parts[k].pid)), parts := s.parts[k := s.parts[k].(pc := Dead)])
    case Outside(step) => s.(w := Next(s.w, step))
  }

  predicate IsPart(ts: seq<Part>, pid: nat) {
    exists k :: 0 <= k < |ts| && ts[k].pid == pid
  }

  // ---------------------------------------------------------------- the two semaphores

  datatype Pair = Pair(empty: Slice, full: Slice)

  ghost function Sems(s: System): Pair {
    Pair(SliceOf(s.w, EmptyName(s.name)), SliceOf(s.w, FullName(s.name)))
  }

  function Mine(m: Pair, t: Part): Slice { if t.writer then m.empty else m.full }

  function Theirs(m: Pair, t: Part): Slice { if t.writer then m.full else m.empty }

  function Put(t: Part, mine: Slice, theirs: Slice): Pair {
    if t.writer then Pair(mine, theirs) else Pair(theirs, mine)
  }

  /** Past its wait and let in. */
  predicate Crit(m: Pair, t: Part) {
    (t.pc.Waited? || t.pc.Touched?) && t.pid !in Mine(m, t).queue
  }

  /** Killing it can cost or duplicate no token: it is not at its loop's head with a held bit left over from an
      operation it has finished. */
  predicate CleanToKill(m: Pair, t: Part) {
    t.pc.Idle? ==> t.pid !in Mine(m, t).holders
  }

  ghost predicate Enabled(s: System, e: Event) {
    match e
    case PartStep(k) =>
      k < |s.parts| && s.w.view.cur == Some(s.parts[k].pid) && CallerRuns(s.w) && !s.parts[k].pc.Failed?
        && !s.parts[k].pc.Dead?
    case KillPart(k) =>
      k < |s.parts| && s.parts[k].pid in s.w.view.procs && HasFirst(s.parts[k])
    case Outside(step) =>
      && Legal(s.w, step) && Elsewhere(s.w, step, EmptyName(s.name)) && Elsewhere(s.w, step, FullName(s.name))
      && (!step.Die? && !step.Other? ==> s.w.view.cur.Some? && !IsPart(s.parts, s.w.view.cur.value))
  }

  // ---------------------------------------------------------------- the invariant

  predicate Distinct(ts: seq<Part>) {
    forall j, k :: 0 <= j < k < |ts| ==> ts[j].pid != ts[k].pid
  }

  /** What the two semaphores know of participant t. */
  predicate Linked(m: Pair, t: Part) {
    && (t.pid in m.empty.openers <==> HasFirst(t)) && (t.pid in m.full.openers <==> HasBoth(t))
    && (t.pid in Mine(m, t).queue ==> t.pc.Waited?)
    && t.pid !in Theirs(m, t).queue && t.pid !in Theirs(m, t).holders
    && (Crit(m, t) ==> t.pid in Mine(m, t).holders) && (t.pid in Mine(m, t).holders ==> HasBoth(t))
  }

  predicate AllLinked(m: Pair, ts: seq<Part>) {
    forall k {:trigger ts[k]} :: 0 <= k < |ts| ==> Linked(m, ts[k])
  }

  /** Nobody else has the semaphores open. */
  ghost predicate Known(m: Pair, ts: seq<Part>) {
    forall p :: p in m.empty.openers || p in m.full.openers ==> IsPart(ts, p)
  }

  ghost function Crits(m: Pair, ts: seq<Part>): set<nat> {
    set k: nat | k < |ts| && Crit(m, ts[k])
  }

  function Positive(v: int): nat { if v > 0 then v else 0 }

  ghost function Tokens(m: Pair, ts: seq<Part>): nat {
    Positive(m.empty.value) + Positive(m.full.value) + |Crits(m, ts)|
  }

  ghost predicate PairOk(m: Pair, ts: seq<Part>) {
    SliceOk(m.empty) && SliceOk(m.full) && Distinct(ts) && AllLinked(m, ts) && Known(m, ts)
  }

  /** Inside, on the side of its access where the slot holds a value nobody has taken. */
  predicate Fullish(t: Part) { if t.writer then t.pc.Touched? else t.pc.Waited? }

  ghost predicate Full(m: Pair, ts: seq<Part>) {
    m.full.value > 0 || exists k {:trigger Fullish(ts[k])} :: k in Crits(m, ts) && Fullish(ts[k])
  }

  /** One token, whenever the semaphores exist. */
  ghost predicate OneToken(m: Pair, ts: seq<Part>) {
    m.empty.openers != {} ==> Tokens(m, ts) == 1
  }

  ghost predicate Inv(s: System) {
    SemInv(s.w) && PairOk(Sems(s), s.parts) && OneToken(Sems(s), s.parts)
  }

  // ---------------------------------------------------------------- one participant moves on

  ghost predicate OnlyForPair(m: Pair, m': Pair, p: nat) {
    OnlyFor(m.empty, m'.empty, p) && OnlyFor(m.full, m'.full, p)
  }

  lemma LinkedFrame(m: Pair, m': Pair, t: Part)
    requires Linked(m, t) && SameFor(m.empty, m'.empty, t.pid) && SameFor(m.full, m'.full, t.pid)
    ensures Linked(m', t) && (Crit(m', t) <==> Crit(m, t))
  {
  }

  lemma OthersLinked(m: Pair, m': Pair, ts: seq<Part>, k: nat, j: nat)
    requires Distinct(ts) && AllLinked(m, ts) && k < |ts| && j < |ts| && j != k && OnlyForPair(m, m', ts[k].pid)
    ensures Linked(m', ts[j]) && (Crit(m', ts[j]) <==> Crit(m, ts[j]))
  {
    assert ts[j].pid != ts[k].pid;
    assert SameFor(m.empty, m'.empty, ts[j].pid) && SameFor(m.full, m'.full, ts[j].pid);
    LinkedFrame(m, m', ts[j]);
  }

  lemma MoveLinked(m: Pair, m': Pair, ts: seq<Part>, k: nat, t: Part)
    requires Distinct(ts) && AllLinked(m, ts) && k < |ts| && t.pid == ts[k].pid && OnlyForPair(m, m', t.pid)
    requires Linked(m', t)
    ensures Distinct(ts[k := t]) && AllLinked(m', ts[k := t])
  {
    var ts' := ts[k := t];
    forall j | 0 <= j < |ts'| ensures Linked(m', ts'[j]) {
      if j != k { OthersLinked(m, m', ts, k, j); }
    }
  }

  lemma MoveKnown(m: Pair, m': Pair, ts: seq<Part>, k: nat, t: Part)
    requires Known(m, ts) && k < |ts| && t.pid == ts[k].pid && OnlyForPair(m, m', t.pid)
    ensures Known(m', ts[k := t])
  {
    forall p | p in m'.empty.openers || p in m'.full.openers ensures IsPart(ts[k := t], p) {
      if p == t.pid {
        assert ts[k := t][k].pid == p;
      } else {
        assert SameFor(m.empty, m'.empty, p) && SameFor(m.full, m'.full, p);
        var j :| 0 <= j < |ts| && ts[j].pid == p;
        assert ts[k := t][j].pid == p;
      }
    }
  }

  lemma MoveCrits(m: Pair, m': Pair, ts: seq<Part>, k: nat, t: Part)
    requires Distinct(ts) && AllLinked(m, ts) && k < |ts| && t.pid == ts[k].pid && OnlyForPair(m, m', t.pid)
    ensures Crits(m', ts[k := t]) == if Crit(m', t) then Crits(m, ts) + {k} else Crits(m, ts) - {k}
  {
    forall j: nat | j < |ts| && j != k ensures Crit(m', ts[j]) <==> Crit(m, ts[j]) {
      OthersLinked(m, m', ts, k, j);
    }
  }

  function One(b: bool): nat { if b then 1 else 0 }

  /** Participant k moves on to t, and nobody else's part in the semaphores changes. */
  lemma MoveOk(m: Pair, m': Pair, ts: seq<Part>, k: nat, t: Part)
    requires PairOk(m, ts) && k < |ts| && t.pid == ts[k].pid && SliceOk(m'.empty) && SliceOk(m'.full)
    requires OnlyForPair(m, m', t.pid) && Linked(m', t)
    ensures PairOk(m', ts[k := t])
    ensures |Crits(m', ts[k := t])| == |Crits(m, ts)| - One(Crit(m, ts[k])) + One(Crit(m', t))
  {
    MoveLinked(m, m', ts, k, t);
    MoveKnown(m, m', ts, k, t);
    MoveCrits(m, m', ts, k, t);
    assert k in Crits(m, ts) <==> Crit(m, ts[k]);
  }

  /** The slot stays full, or empty, while nothing about that changes for k. */
  lemma MoveFull(m: Pair, m': Pair, ts: seq<Part>, k: nat, t: Part)
    requires PairOk(m, ts) && k < |ts| && t.pid == ts[k].pid && OnlyForPair(m, m', t.pid)
    requires m'.full.value > 0 <==> m.full.value > 0
    requires Crit(m', t) && Fullish(t) <==> Crit(m, ts[k]) && Fullish(ts[k])
    ensures Full(m', ts[k := t]) <==> Full(m, ts)
  {
    MoveCrits(m, m', ts, k, t);
    var ts' := ts[k := t];
    assert k in Crits(m, ts) <==> Crit(m, ts[k]);
    assert forall j :: j in Crits(m, ts) && j != k ==> ts'[j] == ts[j];
    assert forall j :: j in Crits(m', ts') && j != k ==> ts'[j] == ts[j];
    if Full(m, ts) && m.full.value <= 0 {
      var j: nat :| j in Crits(m, ts) && Fullish(ts[j]);
      assert j in Crits(m', ts') && Fullish(ts'[j]);
    }
    if Full(m', ts') && m'.full.value <= 0 {
      var j: nat :| j in Crits(m', ts') && Fullish(ts'[j]);
      assert j in Crits(m, ts) && Fullish(ts[j]);
    }
  }

  /** The token is with participant k. */
  lemma TokenWith(m: Pair, ts: seq<Part>, k: nat)
    requires Tokens(m, ts) == 1 && k < |ts| && Crit(m, ts[k])
    ensures Full(m, ts) <==> Fullish(ts[k])
  {
    assert k in Crits(m, ts);
    var rest := Crits(m, ts) - {k};
    assert |rest| == |Crits(m, ts)| - 1;
    assert forall j: nat :: j in Crits(m, ts) ==> j == k || j in rest;
  }

  // ---------------------------------------------------------------- opening and closing

  /** Without the first semaphore nobody is active and the second is absent too. */
  lemma NobodyActive(m: Pair, ts: seq<Part>)
    requires PairOk(m, ts) && m.empty.openers == {}
    ensures Crits(m, ts) == {} && m.full == Absent
  {
    forall p ensures p !in m.full.openers {
      if IsPart(ts, p) {
        var k :| 0 <= k < |ts| && ts[k].pid == p;
        assert Linked(m, ts[k]);
      }
    }
    NobodyIn(m, ts);
  }

  /** Without the second semaphore nobody has got past both opens. */
  lemma NobodyIn(m: Pair, ts: seq<Part>)
    requires PairOk(m, ts) && m.full.openers == {}
    ensures Crits(m, ts) == {}
  {
    forall k: nat | k < |ts| ensures !Crit(m, ts[k]) { assert Linked(m, ts[k]); }
  }

  lemma OpenOnly(s: Slice, p: nat, initial: nat)
    requires SliceOk(s)
    ensures OnlyFor(s, OpenSlice(s, p, initial), p) && SliceOk(OpenSlice(s, p, initial))
  {
  }

  lemma FirstOpenKeeps(m: Pair, ts: seq<Part>, k: nat)
    requires PairOk(m, ts) && OneToken(m, ts) && k < |ts| && ts[k].pc.Start?
    ensures var m' := m.(empty := OpenSlice(m.empty, ts[k].pid, 1));
            var ts' := ts[k := ts[k].(pc := HasEmpty)];
            PairOk(m', ts') && OneToken(m', ts') && (Full(m', ts') <==> Full(m, ts))
  {
    var p := ts[k].pid;
    OpenOnly(m.empty, p, 1);
    if m.empty.openers == {} { NobodyActive(m, ts); }
    assert Linked(m, ts[k]);
    MoveOk(m, m.(empty := OpenSlice(m.empty, p, 1)), ts, k, ts[k].(pc := HasEmpty));
    MoveFull(m, m.(empty := OpenSlice(m.empty, p, 1)), ts, k, ts[k].(pc := HasEmpty));
  }

  lemma SecondOpenKeeps(m: Pair, ts: seq<Part>, k: nat)
    requires PairOk(m, ts) && OneToken(m, ts) && k < |ts| && ts[k].pc.HasEmpty?
    ensures var m' := m.(full := OpenSlice(m.full, ts[k].pid, 0));
            var ts' := ts[k := ts[k].(pc := Idle)];
            PairOk(m', ts') && OneToken(m', ts') && (Full(m', ts') <==> Full(m, ts))
  {
    var p := ts[k].pid;
    OpenOnly(m.full, p, 0);
    if m.full.openers == {} { NobodyIn(m, ts); }
    assert Linked(m, ts[k]);
    MoveOk(m, m.(full := OpenSlice(m.full, p, 0)), ts, k, ts[k].(pc := Idle));
    MoveFull(m, m.(full := OpenSlice(m.full, p, 0)), ts, k, ts[k].(pc := Idle));
  }

  lemma CloseFirstKeeps(m: Pair, ts: seq<Part>, k: nat)
    requires PairOk(m, ts) && OneToken(m, ts) && k < |ts| && ts[k].pc.MustClose?
    requires SliceOk(CloseSlice(m.empty, ts[k].pid))
    ensures var m' := m.(empty := CloseSlice(m.empty, ts[k].pid));
            var ts' := ts[k := ts[k].(pc := Failed)];
            PairOk(m', ts') && OneToken(m', ts') && (Full(m', ts') <==> Full(m, ts))
  {
    var p := ts[k].pid;
    assert Linked(m, ts[k]);
    assert OnlyFor(m.empty, CloseSlice(m.empty, p), p);
    MoveOk(m, m.(empty := CloseSlice(m.empty, p)), ts, k, ts[k].(pc := Failed));
    MoveFull(m, m.(empty := CloseSlice(m.empty, p)), ts, k, ts[k].(pc := Failed));
  }

  // ---------------------------------------------------------------- waiting and posting

  /** A change of state that no semaphore sees. */
  lemma QuietKeeps(m: Pair, ts: seq<Part>, k: nat, pc: Pc)
    requires PairOk(m, ts) && OneToken(m, ts) && k < |ts|
    requires HasFirst(ts[k].(pc := pc)) == HasFirst(ts[k]) && HasBoth(ts[k].(pc := pc)) == HasBoth(ts[k])
    requires Crit(m, ts[k].(pc := pc)) == Crit(m, ts[k]) && ts[k].pid !in Mine(m, ts[k]).queue
    ensures PairOk(m, ts[k := ts[k].(pc := pc)]) && OneToken(m, ts[k := ts[k].(pc := pc)])
  {
    assert Linked(m, ts[k]);
    MoveOk(m, m, ts, k, ts[k].(pc := pc));
  }

  ghost function AfterWait(m: Pair, t: Part): Pair {
    Put(t, WaitSlice(Mine(m, t), t.pid), Theirs(m, t))
  }

  lemma WaitKeepsPair(m: Pair, ts: seq<Part>, k: nat)
    requires PairOk(m, ts) && OneToken(m, ts) && k < |ts| && ts[k].pc.Idle?
    requires SliceOk(WaitSlice(Mine(m, ts[k]), ts[k].pid))
    ensures var m' := AfterWait(m, ts[k]);
            var ts' := ts[k := ts[k].(pc := Waited)];
            PairOk(m', ts') && OneToken(m', ts') && (Full(m', ts') <==> Full(m, ts))
  {
    var s := Mine(m, ts[k]);
    assert Linked(m, ts[k]);
    assert OnlyFor(s, WaitSlice(s, ts[k].pid), ts[k].pid);
    var ts' := ts[k := ts[k].(pc := Waited)];
    MoveOk(m, AfterWait(m, ts[k]), ts, k, ts'[k]);
    if s.value > 0 {
      TokenWith(AfterWait(m, ts[k]), ts', k);
      assert Crits(m, ts) == {};
    } else {
      MoveFull(m, AfterWait(m, ts[k]), ts, k, ts'[k]);
    }
  }

  /** The semaphore writers wait on, or the one readers wait on. */
  function Side(m: Pair, empty: bool): Slice { if empty then m.empty else m.full }

  function WithSide(m: Pair, empty: bool, s: Slice): Pair { if empty then m.(empty := s) else m.(full := s) }

  /** Whoever heads a queue is a participant of the side that waits there. */
  lemma HeadIsPart(m: Pair, ts: seq<Part>, empty: bool) returns (j: nat)
    requires PairOk(m, ts) && Side(m, empty).queue != []
    ensures j < |ts| && ts[j].pid == Side(m, empty).queue[0] && ts[j].writer == empty && ts[j].pc.Waited?
  {
    var q := Side(m, empty).queue;
    assert q[0] in q;
    j :| 0 <= j < |ts| && ts[j].pid == q[0];
    assert Linked(m, ts[j]);
  }

  lemma GiveBackOnly(s: Slice)
    requires SliceOk(s) && s.openers != {}
    ensures SliceOk(GiveBackSlice(s))
    ensures s.queue == [] ==> forall p :: OnlyFor(s, GiveBackSlice(s), p)
    ensures s.queue != [] ==> OnlyFor(s, GiveBackSlice(s), s.queue[0]) && s.queue[0] !in GiveBackSlice(s).queue
  {
    if s.queue != [] {
      HeadIsNew(s.queue);
      assert s.queue[0] in s.queue;
      assert forall p :: p in s.queue <==> p == s.queue[0] || p in s.queue[1..];
    }
  }

  /** A unit given back puts one token into circulation: in the value, or with the first one waiting. */
  lemma GiveBackAdds(m: Pair, ts: seq<Part>, empty: bool)
    requires PairOk(m, ts) && Side(m, empty).openers != {}
    ensures var m' := WithSide(m, empty, GiveBackSlice(Side(m, empty)));
            PairOk(m', ts) && Tokens(m', ts) == Tokens(m, ts) + 1 && (Tokens(m, ts) == 0 ==> (Full(m', ts) <==> !empty))
  {
    var s := Side(m, empty);
    var m' := WithSide(m, empty, GiveBackSlice(s));
    GiveBackOnly(s);
    if s.queue == [] {
      forall j | 0 <= j < |ts| ensures Linked(m', ts[j]) && (Crit(m', ts[j]) <==> Crit(m, ts[j])) {
        assert OnlyFor(s, GiveBackSlice(s), ts[j].pid + 1);
        LinkedFrame(m, m', ts[j]);
      }
      assert Crits(m', ts) == Crits(m, ts);
      assert PairOk(m', ts);
    } else {
      var j := HeadIsPart(m, ts, empty);
      assert Linked(m, ts[j]) && ts[j].pid in s.queue;
      assert ts[j := ts[j]] == ts;
      MoveOk(m, m', ts, j, ts[j]);
      if Tokens(m, ts) == 0 { TokenWith(m', ts, j); }
    }
  }

  ghost function AfterPost(m: Pair, t: Part): Pair {
    Put(t, Mine(m, t), PostSlice(Theirs(m, t), t.pid))
  }

  lemma PostKeepsPair(m: Pair, ts: seq<Part>, k: nat)
    requires PairOk(m, ts) && OneToken(m, ts) && k < |ts| && ts[k].pc.Touched?
    ensures var m' := AfterPost(m, ts[k]);
            var ts' := ts[k := ts[k].(pc := Idle)];
            PairOk(m', ts') && OneToken(m', ts') && (Full(m', ts') <==> Full(m, ts))
  {
    var t := ts[k];
    var s := Theirs(m, t);
    assert Linked(m, t);
    TokenWith(m, ts, k);
    assert s.(holders := s.holders - {t.pid}) == s;
    MoveOk(m, m, ts, k, t.(pc := Idle));
    GiveBackAdds(m, ts[k := t.(pc := Idle)], !t.writer);
  }

  // ---------------------------------------------------------------- death of a participant

  ghost function AfterKill(m: Pair, p: nat): Pair {
    Pair(DieSlice(m.empty, p), DieSlice(m.full, p))
  }

  /** The part of the death before anything is given back. */
  function Gone(s: Slice, p: nat): Slice {
    s.(openers := s.openers - {p}, holders := s.holders - {p},
       value := if p in s.queue then s.value + 1 else s.value, queue := Remove(s.queue, p))
  }

  lemma GoneOk(s: Slice, p: nat)
    requires SliceOk(s) && s.openers != {p}
    ensures SliceOk(Gone(s, p)) && OnlyFor(s, Gone(s, p), p) && p !in Gone(s, p).queue
    ensures Positive(Gone(s, p).value) == Positive(s.value)
    ensures DieSlice(s, p) == if p in s.holders && p !in s.queue then GiveBackSlice(Gone(s, p)) else Gone(s, p)
  {
    RemoveIs(s.queue, p);
    assert s.openers - {p} == {} ==> s.openers <= {p};
    assert p !in s.openers ==> Gone(s, p) == s;
  }

  lemma GoneMoves(m: Pair, ts: seq<Part>, k: nat)
    requires PairOk(m, ts) && k < |ts|
    requires ts[k].pid in m.empty.openers && m.empty.openers != {ts[k].pid} && m.full.openers != {ts[k].pid}
    ensures var gone := Pair(Gone(m.empty, ts[k].pid), Gone(m.full, ts[k].pid));
            var ts' := ts[k := ts[k].(pc := Dead)];
            PairOk(gone, ts') && Tokens(gone, ts') == Tokens(m, ts) - One(Crit(m, ts[k]))
            && (!Crit(m, ts[k]) ==> (Full(gone, ts') <==> Full(m, ts)))
  {
    var p := ts[k].pid;
    GoneOk(m.empty, p);
    GoneOk(m.full, p);
    if !Crit(m, ts[k]) { MoveFull(m, Pair(Gone(m.empty, p), Gone(m.full, p)), ts, k, ts[k].(pc := Dead)); }
    MoveOk(m, Pair(Gone(m.empty, p), Gone(m.full, p)), ts, k, ts[k].(pc := Dead));
  }

  /** What is given back is what the victim held of its own side. */
  lemma KillIs(m: Pair, t: Part)
    requires SliceOk(m.empty) && SliceOk(m.full) && Linked(m, t) && m.empty.openers != {t.pid}
    requires m.full.openers != {t.pid}
    ensures var gone := Pair(Gone(m.empty, t.pid), Gone(m.full, t.pid));
            AfterKill(m, t.pid) == if t.pid in Mine(m, t).holders && t.pid !in Mine(m, t).queue
                                   then WithSide(gone, t.writer, GiveBackSlice(Side(gone, t.writer))) else gone
  {
    GoneOk(m.empty, t.pid);
    GoneOk(m.full, t.pid);
  }

  /** The held bit of one's own side is set and the process not queued just when it is inside or not clean to kill. */
  lemma HeldIffDue(m: Pair, t: Part)
    requires Linked(m, t) && HasFirst(t)
    ensures t.pid in Mine(m, t).holders && t.pid !in Mine(m, t).queue <==> Crit(m, t) || !CleanToKill(m, t)
  {
  }

  /** Nobody but p has got past both opens. */
  ghost predicate IsLast(m: Pair, p: nat) {
    m.full.openers <= {p}
  }

  /** Killing it leaves one token: another has both semaphores open and it is clean to kill; or it is the last that has
      both open and goes with the first one too, or with the first one left at 1, the unit it gives back included. */
  ghost predicate Survivable(m: Pair, t: Part) {
    if IsLast(m, t.pid) then
      m.empty.openers == {t.pid}
        || Positive(m.empty.value) + One(t.pid in m.empty.holders && t.pid !in m.empty.queue) == 1
    else CleanToKill(m, t)
  }

  /** A participant dies while another has both semaphores open: the token stays one, unless the victim had finished
      an operation and so held a bit no longer its due; then there are two. */
  lemma KillKeepsPair(m: Pair, ts: seq<Part>, k: nat)
    requires PairOk(m, ts) && OneToken(m, ts) && k < |ts| && HasFirst(ts[k]) && !IsLast(m, ts[k].pid)
    ensures var m' := AfterKill(m, ts[k].pid);
            var ts' := ts[k := ts[k].(pc := Dead)];
            && PairOk(m', ts') && m'.empty.openers != {} && Tokens(m', ts') == (if CleanToKill(m, ts[k]) then 1 else 2)
            && (CleanToKill(m, ts[k]) ==> (Full(m', ts') <==> if ts[k].pc.Touched? then !Full(m, ts) else Full(m, ts)))
  {
    if Crit(m, ts[k]) { TokenWith(m, ts, k); }
    var other :| other in m.full.openers && other != ts[k].pid;
    var j :| 0 <= j < |ts| && ts[j].pid == other;
    assert Linked(m, ts[k]) && Linked(m, ts[j]);
    HeldIffDue(m, ts[k]);
    GoneMoves(m, ts, k);
    KillGives(m, ts, k, other);
  }

  /** While p is the last nobody else waits on the first semaphore. */
  lemma LastQueues(m: Pair, ts: seq<Part>, p: nat)
    requires PairOk(m, ts) && IsLast(m, p)
    ensures Remove(m.empty.queue, p) == [] && m.empty.value >= (if p in m.empty.queue then -1 else 0)
  {
    RemoveIs(m.empty.queue, p);
    forall x | x in m.empty.queue ensures x == p {
      assert x in m.empty.openers;
      var j :| 0 <= j < |ts| && ts[j].pid == x;
      assert Linked(m, ts[j]);
    }
    var q := m.empty.queue;
    forall i | 0 <= i < |q| ensures q[i] == p { assert q[i] in q; }
    assert |q| <= 1;
  }

  /** The last that has both semaphores open dies: the second is gone, and of the first its value is left and what the
      victim gives back. */
  lemma LastKilled(m: Pair, ts: seq<Part>, k: nat)
    requires PairOk(m, ts) && k < |ts| && HasFirst(ts[k]) && IsLast(m, ts[k].pid)
    ensures var m' := AfterKill(m, ts[k].pid);
            var ts' := ts[k := ts[k].(pc := Dead)];
            && PairOk(m', ts') && !Full(m', ts') && (m'.empty.openers == {} <==> m.empty.openers == {ts[k].pid})
            && (m'.empty.openers != {} ==>
                Tokens(m', ts') ==
                  Positive(m.empty.value) + One(ts[k].pid in m.empty.holders && ts[k].pid !in m.empty.queue))
  {
    var p := ts[k].pid;
    var m' := AfterKill(m, p);
    var ts' := ts[k := ts[k].(pc := Dead)];
    assert Linked(m, ts[k]);
    assert m.full.openers == {} || m.full.openers == {p};
    assert m'.full == Absent && OnlyFor(m.full, m'.full, p);
    LastQueues(m, ts, p);
    if m.empty.openers == {p} {
      assert OnlyFor(m.empty, m'.empty, p);
    } else {
      GoneOk(m.empty, p);
      GiveBackOnly(Gone(m.empty, p));
      assert OnlyFor(m.empty, m'.empty, p);
    }
    MoveOk(m, m', ts, k, ts'[k]);
    NobodyIn(m', ts');
  }

  lemma KillGives(m: Pair, ts: seq<Part>, k: nat, other: nat)
    requires k < |ts| && Linked(m, ts[k]) && SliceOk(m.empty) && SliceOk(m.full)
    requires other != ts[k].pid && other in m.empty.openers && other in m.full.openers
    requires PairOk(Pair(Gone(m.empty, ts[k].pid), Gone(m.full, ts[k].pid)), ts[k := ts[k].(pc := Dead)])
    ensures var t := ts[k];
            var ts' := ts[k := t.(pc := Dead)];
            var m' := AfterKill(m, t.pid);
            && PairOk(m', ts') && m'.empty.openers != {}
            && Tokens(m', ts') == Tokens(Pair(Gone(m.empty, t.pid), Gone(m.full, t.pid)), ts')
                                  + One(t.pid in Mine(m, t).holders && t.pid !in Mine(m, t).queue)
            && (if t.pid in Mine(m, t).holders && t.pid !in Mine(m, t).queue
                then Tokens(m', ts') == 1 ==> (Full(m', ts') <==> !t.writer)
                else m' == Pair(Gone(m.empty, t.pid), Gone(m.full, t.pid)))
  {
    var t := ts[k];
    KillIs(m, t);
    var gone := Pair(Gone(m.empty, t.pid), Gone(m.full, t.pid));
    assert other in gone.empty.openers && other in gone.full.openers;
    if t.pid in Mine(m, t).holders && t.pid !in Mine(m, t).queue {
      GiveBackAdds(gone, ts[k := t.(pc := Dead)], t.writer);
    }
  }

  // ---------------------------------------------------------------- one step

  /** What moving on to pc does to the two semaphores. */
  ghost function Moved(m: Pair, t: Part, pc: Pc): Pair {
    match t.pc
    case Start => if pc.HasEmpty? then m.(empty := OpenSlice(m.empty, t.pid, 1)) else m
    case HasEmpty => if pc.Idle? then m.(full := OpenSlice(m.full, t.pid, 0)) else m
    case MustClose => m.(empty := CloseSlice(m.empty, t.pid))
    case Idle => AfterWait(m, t)
    case Touched => AfterPost(m, t)
    case _ => m
  }

  /** Where a statement may take a participant. */
  predicate GoesTo(from: Pc, to: Pc) {
    match from
    case Start => to.HasEmpty? || to.Failed?
    case HasEmpty => to.Idle? || to.MustClose?
    case MustClose => to.Failed?
    case Idle => to.Waited?
    case Waited => to.Touched?
    case Touched => to.Idle?
    case _ => false
  }

  lemma PairStep(m: Pair, ts: seq<Part>, k: nat, pc: Pc)
    requires PairOk(m, ts) && OneToken(m, ts) && k < |ts| && ts[k].pid !in m.empty.queue && ts[k].pid !in m.full.queue
    requires GoesTo(ts[k].pc, pc)
    requires SliceOk(Moved(m, ts[k], pc).empty) && SliceOk(Moved(m, ts[k], pc).full)
    ensures var m' := Moved(m, ts[k], pc);
            var ts' := ts[k := ts[k].(pc := pc)];
            && PairOk(m', ts') && OneToken(m', ts')
            && (if ts[k].pc.Waited? then (Full(m, ts) <==> !ts[k].writer) && (Full(m', ts') <==> ts[k].writer)
                else Full(m', ts') <==> Full(m, ts))
  {
    assert Linked(m, ts[k]);
    match ts[k].pc
    case Start => if pc.HasEmpty? { FirstOpenKeeps(m, ts, k); } else { QuietFull(m, ts, k, pc); }
    case HasEmpty => if pc.Idle? { SecondOpenKeeps(m, ts, k); } else { QuietFull(m, ts, k, pc); }
    case MustClose => CloseFirstKeeps(m, ts, k);
    case Idle => WaitKeepsPair(m, ts, k);
    case Waited =>
      QuietKeeps(m, ts, k, pc);
      TokenWith(m, ts, k);
      TokenWith(m, ts[k := ts[k].(pc := pc)], k);
    case Touched => PostKeepsPair(m, ts, k);
  }

  lemma QuietFull(m: Pair, ts: seq<Part>, k: nat, pc: Pc)
    requires PairOk(m, ts) && OneToken(m, ts) && k < |ts|
    requires ((ts[k].pc.Start? && pc.Failed?) || (ts[k].pc.HasEmpty? && pc.MustClose?))
    ensures var ts' := ts[k := ts[k].(pc := pc)];
            PairOk(m, ts') && OneToken(m, ts') && (Full(m, ts') <==> Full(m, ts))
  {
    assert Linked(m, ts[k]);
    QuietKeeps(m, ts, k, pc);
    MoveFull(m, m, ts, k, ts[k].(pc := pc));
  }

  /** The caller has a semaphore open just when it is among the openers of its slice. */
  lemma OpenerBits(w: World, name: string)
    requires SemInv(w) && CallerRuns(w)
    ensures w.view.cur.value in SliceOf(w, name).openers <==>
            Find(w, name).Some? && Find(w, name).value in Me(w).openedSems
  {
  }

  lemma WaitBoth(s: System, name: string, other: string)
    requires SemInv(s.w) && CallerRuns(s.w) && s.w.view.cur.value in SliceOf(s.w, name).openers && name != other
    ensures var w' := SemWait(s.w, name).0;
            SemInv(w') && SliceOf(w', name) == WaitSlice(SliceOf(s.w, name), s.w.view.cur.value)
              && SliceOf(w', other) == SliceOf(s.w, other)
  {
    OpenerBits(s.w, name);
    WaitEquation(s.w, name);
    ElsewhereEquation(s.w, Wait(name), other);
  }

  lemma PostBoth(s: System, name: string, other: string)
    requires SemInv(s.w) && CallerRuns(s.w) && s.w.view.cur.value in SliceOf(s.w, name).openers && name != other
    ensures var w' := SemPost(s.w, name).0;
            SemInv(w') && SliceOf(w', name) == PostSlice(SliceOf(s.w, name), s.w.view.cur.value)
              && SliceOf(w', other) == SliceOf(s.w, other)
  {
    OpenerBits(s.w, name);
    PostEquation(s.w, name);
    ElsewhereEquation(s.w, Post(name), other);
  }

  lemma OpenBoth(s: System, name: string, initial: nat, other: string)
    requires SemInv(s.w) && CallerRuns(s.w) && s.w.view.cur.value !in SliceOf(s.w, name).openers && name != other
    requires |name| < SEM_NAME_LEN && initial <= 1
    ensures var (w', r) := SemOpen(s.w, name, initial);
            && SemInv(w') && SliceOf(w', other) == SliceOf(s.w, other)
            && SliceOf(w', name) == if r == 0 then SliceOf(s.w, name)
                                    else OpenSlice(SliceOf(s.w, name), s.w.view.cur.value, initial)
  {
    OpenerBits(s.w, name);
    OpenEquation(s.w, name, initial);
    ElsewhereEquation(s.w, Open(name, initial), other);
  }

  lemma CloseBoth(s: System, name: string, other: string)
    requires SemInv(s.w) && CallerRuns(s.w) && s.w.view.cur.value in SliceOf(s.w, name).openers && name != other
    ensures var w' := SemClose(s.w, name).0;
            SemInv(w') && SliceOf(w', name) == CloseSlice(SliceOf(s.w, name), s.w.view.cur.value)
              && SliceOf(w', other) == SliceOf(s.w, other)
  {
    OpenerBits(s.w, name);
    CloseEquation(s.w, name);
    ElsewhereEquation(s.w, Close(name), other);
  }

  /** The step of a participant, seen on its two semaphores. */
  lemma StepOnSems(s: System, k: nat)
    requires Inv(s) && Enabled(s, PartStep(k))
    ensures SemInv(Do(s, k).w) && Sems(Do(s, k)) == Moved(Sems(s), s.parts[k], Do(s, k).parts[k].pc)
  {
    var t := s.parts[k];
    var (e, f) := (EmptyName(s.name), FullName(s.name));
    NamesDiffer(s.name);
    assert Linked(Sems(s), t);
    match t.pc
    case Start => OpenBoth(s, e, 1, f);
    case HasEmpty => OpenBoth(s, f, 0, e);
    case MustClose => CloseBoth(s, e, f);
    case Idle => WaitBoth(s, WaitName(s, t), PostName(s, t));
    case Touched => PostBoth(s, PostName(s, t), WaitName(s, t));
    case Waited =>
  }

  predicate Stream(full: bool, slot: char, puts: seq<char>, takes: seq<char>) {
    && |puts| == |takes| + One(full)
    && takes == puts[..|takes|]
    && (full ==> slot == puts[|takes|])
  }

  /** Values are taken in the order they were put, each once; one may be in the slot. */
  ghost predicate StreamOk(s: System) {
    Stream(Full(Sems(s), s.parts), s.slot, s.puts, s.takes)
  }

  lemma SemsOk(s: System)
    requires SemInv(s.w)
    ensures SliceOk(Sems(s).empty) && SliceOk(Sems(s).full)
    ensures CallerRuns(s.w) ==> s.w.view.cur.value !in Sems(s).empty.queue && s.w.view.cur.value !in Sems(s).full.queue
  {
    SliceIsOk(s.w, EmptyName(s.name));
    SliceIsOk(s.w, FullName(s.name));
  }

  /** The slot is filled by the access of a writer, which finds it empty, and emptied by that of a reader. */
  predicate Turns(was: bool, now: bool, t: Part) {
    if t.pc.Waited? then was == !t.writer && now == t.writer else now == was
  }

  lemma PartKeepsInv(s: System, k: nat)
    requires Inv(s) && Enabled(s, PartStep(k))
    ensures Inv(Do(s, k)) && Turns(Full(Sems(s), s.parts), Full(Sems(Do(s, k)), Do(s, k).parts), s.parts[k])
  {
    var s' := Do(s, k);
    StepOnSems(s, k);
    SemsOk(s);
    SemsOk(s');
    PairStep(Sems(s), s.parts, k, s'.parts[k].pc);
  }

  lemma AccessKeepsStream(s: System, k: nat)
    requires k < |s.parts| && s.parts[k].pc.Waited? && Stream(!s.parts[k].writer, s.slot, s.puts, s.takes)
    ensures var s' := Do(s, k); Stream(s.parts[k].writer, s'.slot, s'.puts, s'.takes)
  {
  }

  lemma PartKeeps(s: System, k: nat)
    requires Inv(s) && Enabled(s, PartStep(k))
    ensures Inv(Do(s, k)) && (StreamOk(s) ==> StreamOk(Do(s, k)))
  {
    PartKeepsInv(s, k);
    if StreamOk(s) { PartKeepsStream(s, k); }
  }

  lemma PartKeepsStream(s: System, k: nat)
    requires k < |s.parts| && StreamOk(s)
    requires Turns(Full(Sems(s), s.parts), Full(Sems(Do(s, k)), Do(s, k).parts), s.parts[k])
    ensures StreamOk(Do(s, k))
  {
    if s.parts[k].pc.Waited? { AccessKeepsStream(s, k); }
  }

  lemma OutsideKeeps(s: System, step: Step)
    requires Inv(s) && Enabled(s, Outside(step))
    ensures Inv(After(s, Outside(step))) && Sems(After(s, Outside(step))) == Sems(s)
  {
    ElsewhereEquation(s.w, step, EmptyName(s.name));
    ElsewhereEquation(s.w, step, FullName(s.name));
  }

  lemma KillOnSems(s: System, k: nat)
    requires Inv(s) && Enabled(s, KillPart(k))
    ensures var s' := After(s, KillPart(k)); SemInv(s'.w) && Sems(s') == AfterKill(Sems(s), s.parts[k].pid)
  {
    var p := s.parts[k].pid;
    DieEquation(s.w, p, EmptyName(s.name));
    DieEquation(s.w, p, FullName(s.name));
  }

  /** A participant dies. If another has both semaphores open, the token law holds afterwards if and only if the victim
      was not past an operation it had finished; otherwise there are two tokens. If it was the last of them, the law
      holds if and only if the first semaphore goes too or is left with one unit; otherwise there are none or two. */
  lemma KillKeepsToken(s: System, k: nat)
    requires Inv(s) && Enabled(s, KillPart(k))
    ensures var (s', m, t) := (After(s, KillPart(k)), Sems(s), s.parts[k]);
            && (Inv(s') <==> Survivable(m, t))
            && (!IsLast(m, t.pid) && !CleanToKill(m, t) ==> Tokens(Sems(s'), s'.parts) == 2)
            && (IsLast(m, t.pid) && m.empty.openers != {t.pid} ==>
                Tokens(Sems(s'), s'.parts) ==
                  Positive(m.empty.value) + One(t.pid in m.empty.holders && t.pid !in m.empty.queue))
            && (Survivable(m, t) ==>
                (Full(Sems(s'), s'.parts) <==>
                 if IsLast(m, t.pid) then false else if t.pc.Touched? then !Full(m, s.parts) else Full(m, s.parts)))
  {
    KillOnSems(s, k);
    if IsLast(Sems(s), s.parts[k].pid) { LastKilled(Sems(s), s.parts, k); } else { KillKeepsPair(Sems(s), s.parts, k); }
  }

  /** A kill that the stream survives: of one that is not between its access and its post, while another has both
      semaphores open, or of the last of them while the slot holds nothing untaken. */
  ghost predicate Harmless(s: System, k: nat)
    requires k < |s.parts|
  {
    if IsLast(Sems(s), s.parts[k].pid) then !Full(Sems(s), s.parts) else !s.parts[k].pc.Touched?
  }

  lemma KillKeepsStream(s: System, k: nat)
    requires Inv(s) && Enabled(s, KillPart(k)) && StreamOk(s) && Survivable(Sems(s), s.parts[k])
    ensures StreamOk(After(s, KillPart(k))) <==> Harmless(s, k)
  {
    KillKeepsToken(s, k);
  }

  // ---------------------------------------------------------------- runs

  /** Kills only at points where the token survives. */
  ghost predicate Allowed(s: System, e: Event) {
    Enabled(s, e) && (e.KillPart? ==> Survivable(Sems(s), s.parts[e.k]))
  }

  /** ... and the stream too. */
  ghost predicate Undisturbed(s: System, e: Event) {
    e.KillPart? && e.k < |s.parts| ==> Harmless(s, e.k)
  }

  ghost predicate Runs(s: System, es: seq<Event>)
    decreases |es|
  {
    es == [] || (Allowed(s, es[0]) && Runs(After(s, es[0]), es[1..]))
  }

  ghost predicate UndisturbedRun(s: System, es: seq<Event>)
    requires Runs(s, es)
    decreases |es|
  {
    es == [] || (Undisturbed(s, es[0]) && UndisturbedRun(After(s, es[0]), es[1..]))
  }

  ghost function End(s: System, es: seq<Event>): System
    requires Runs(s, es)
    decreases |es|
  {
    if es == [] then s else End(After(s, es[0]), es[1..])
  }

  /** The two semaphores do not exist yet, and no participant has begun. */
  ghost predicate Initial(s: System) {
    && SemInv(s.w) && Find(s.w, EmptyName(s.name)).None? && Find(s.w, FullName(s.name)).None?
    && Distinct(s.parts) && (forall k :: 0 <= k < |s.parts| ==> s.parts[k].pc.Start?)
    && s.puts == [] && s.takes == []
  }

  lemma InitialInv(s: System)
    requires Initial(s)
    ensures Inv(s) && StreamOk(s)
  {
    assert Sems(s) == Pair(Absent, Absent);
    forall k | 0 <= k < |s.parts| ensures Linked(Sems(s), s.parts[k]) {
      assert s.parts[k].pc.Start?;
    }
    assert AllLinked(Sems(s), s.parts);
    NobodyIn(Sems(s), s.parts);
  }

  lemma StepKeepsInv(s: System, e: Event)
    requires Inv(s) && Allowed(s, e)
    ensures Inv(After(s, e)) && (StreamOk(s) && Undisturbed(s, e) ==> StreamOk(After(s, e)))
  {
    match e
    case PartStep(k) => PartKeeps(s, k);
    case KillPart(k) =>
      KillKeepsToken(s, k);
      if StreamOk(s) { KillKeepsStream(s, k); }
    case Outside(step) => OutsideKeeps(s, step);
  }

  lemma {:induction false} RunKeepsInv(s: System, es: seq<Event>)
    requires Inv(s) && Runs(s, es)
    ensures Inv(End(s, es)) && (StreamOk(s) && UndisturbedRun(s, es) ==> StreamOk(End(s, es)))
    decreases |es|
  {
    if es != [] {
      StepKeepsInv(s, es[0]);
      RunKeepsInv(After(s, es[0]), es[1..]);
    }
  }

  /** From any start and under any interleaving: one token while the semaphores exist, at most one participant inside,
      and, unless somebody was killed between its access and its post or the last one with a value in the slot, the
      values taken are a prefix of those put, at most one behind. */
  lemma OneTokenOneStream(s: System, es: seq<Event>)
    requires Initial(s) && Runs(s, es)
    ensures var e := End(s, es);
            && OneToken(Sems(e), e.parts) && |Crits(Sems(e), e.parts)| <= 1
            && (UndisturbedRun(s, es) ==> |e.takes| <= |e.puts| <= |e.takes| + 1 && e.takes == e.puts[..|e.takes|])
  {
    InitialInv(s);
    RunKeepsInv(s, es);
    var e := End(s, es);
    if Sems(e).empty.openers == {} { NobodyActive(Sems(e), e.parts); }
  }
}
