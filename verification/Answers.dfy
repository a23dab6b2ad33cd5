/**
 What the calls on semaphores, pipes and FDs answer, and that the answer is what their caller finds, and nobody else.
 */
module Answers {
  import opened Processes
  import opened KernelSpec
  import K = KernelTheorems
  import CallResults
  import Sems = SemaphoreSpec
  import ST = SemaphoreTheorems
  import Pipe = PipeSpec
  import PS = PipeStreams
  import opened System
  import opened Boost

  predicate SlotKept(v: View, v': View, p: nat)
    requires p in v.procs && p in v'.procs
  {
    v'.procs[p].savedRax == v.procs[p].savedRax
  }

  lemma FinishSlots(k: Kernel, r: int)
    requires K.Mid(k)
    ensures forall p :: p in Tab(k) && p in Tab(Finish(k, r)) ==>
              Tab(Finish(k, r))[p].savedRax == if Cur(k) == Some(p) then r else Tab(k)[p].savedRax
  {
    K.SaveRaxKeeps(k, r);
    K.LeaveKeeps(SaveRax(k, r));
    forall p | p in Tab(k) && p in Tab(Finish(k, r))
      ensures Tab(Finish(k, r))[p].savedRax == if Cur(k) == Some(p) then r else Tab(k)[p].savedRax
    {
      CallResults.LeaveSlot(SaveRax(k, r), p);
    }
  }

  /** The code of such a call stores nothing in anybody's slot. */
  lemma InnerSlots(s: System, e: Event, p: nat)
    requires Inv(s) && Legal(s, e) && MayWake(e) && p in Tab(s.k)
    ensures p in Inner(s, e).procs && SlotKept(s.k.view, Inner(s, e), p)
  {
    match e
    case SemCall(op) =>
      SemParts(s, op);
      CallResults.SoftSlot(s.k.view, Inner(s, e), p);
    case PipeCall(io) =>
      PipeParts(s, io);
      CallResults.SoftSlot(s.k.view, Inner(s, e), p);
    case _ =>
  }

  /** A call on semaphores, pipes or FDs leaves its answer in its caller's saved RAX slot, and everybody else's slot as
      it was. */
  lemma AnswerReaches(s: System, e: Event)
    requires Inv(s) && Legal(s, e) && MayWake(e)
    ensures var s' := After(s, e);
            && Cur(s.k).Some? && Tab(s'.k).Keys >= Tab(s.k).Keys
            && forall p :: p in Tab(s.k) ==>
                 Tab(s'.k)[p].savedRax == if Cur(s.k) == Some(p) then Answer(s, e) else Tab(s.k)[p].savedRax
  {
    CallerFacts(s);
    AfterIs(s, e);
    ForceIff(s, e);
    var k1 := s.k.(view := Inner(s, e));
    var k' := Finish(k1, Answer(s, e));
    FinishSlots(k1, Answer(s, e));
    forall p | p in Tab(s.k)
      ensures p in Tab(k')
      ensures Tab(k')[p].savedRax == if Cur(s.k) == Some(p) then Answer(s, e) else Tab(s.k)[p].savedRax
    {
      InnerSlots(s, e, p);
      Lives(s, e, p);
    }
  }

  /** Nobody dies of such a call. */
  lemma Lives(s: System, e: Event, p: nat)
    requires Inv(s) && Legal(s, e) && MayWake(e) && p in Tab(s.k)
    ensures p in Tab(After(s, e).k)
  {
    var k1 := s.k.(view := Inner(s, e));
    AfterIs(s, e);
    InnerSlots(s, e, p);
    K.OneRuns(s.k);
    NoZombie(s, e);
    FinishRests(k1, Answer(s, e), {});
  }

  lemma NoZombie(s: System, e: Event)
    requires Inv(s) && Legal(s, e) && MayWake(e)
    ensures !CurIs(s.k.(view := Inner(s, e)), Zombie)
  {
    CallerFacts(s);
    var c := Cur(s.k).value;
    match e
    case SemCall(op) =>
      SemParts(s, op);
      assert K.SoftAt(s.k.view, Inner(s, e), c);
    case PipeCall(io) =>
      PipeParts(s, io);
      assert K.SoftAt(s.k.view, Inner(s, e), c);
    case _ =>
  }

  // ---------------------------------------------------------------- the answers

  /** Of a semaphore that does not exist, waits, posts and closes answer -1, of one that does 0; an opening fails, with
      0, only if there is none of that name and no entry is free. */
  lemma SemAnswers(w: Sems.World, op: ST.Step)
    requires IsSemCall(op) && w.view.cur.Some?
    ensures match op
            case Open(name, _) =>
              SemResult(w, op) ==
                if Sems.Find(w, name).None? && (forall i :: 0 <= i < |w.sems| ==> w.sems[i].opens != 0)
                                  then 0 else 1
            case Wait(name) => SemResult(w, op) == if Sems.Find(w, name).Some? then 0 else -1
            case Post(name) => SemResult(w, op) == if Sems.Find(w, name).Some? then 0 else -1
            case Close(name) => SemResult(w, op) == if Sems.Find(w, name).Some? then 0 else -1
            case _ => true
  {
  }

  /** A name too long is cut to fit, and an initial value is taken for a signed number of 64 bits. */
  lemma StoredIs(name: string, v: nat)
    requires v < 0x1_0000_0000_0000_0000
    ensures Sems.Stored(name) <= name && |Sems.Stored(name)| == if |name| < 32 then |name| else 31
    ensures -0x8000_0000_0000_0000 <= Sems.ToSigned(v) < 0x8000_0000_0000_0000
    ensures Sems.ToSigned(v) == v || Sems.ToSigned(v) == v - 0x1_0000_0000_0000_0000
  {
  }

  /** A new semaphore is the first free entry, with the name and value as stored, open once, and nobody waiting. */
  lemma NewSemIs(w: Sems.World, name: string, initial: nat)
    requires Sems.Find(w, name).None? && Sems.SemOpen(w, name, initial).1 != 0
    ensures var w' := Sems.SemOpen(w, name, initial).0;
            exists i: nat ::
              && i < |w.sems| && w.sems[i].opens == 0 && (forall j :: 0 <= j < i ==> w.sems[j].opens != 0)
              && w'.sems == w.sems[i := Sems.Sem(Sems.Stored(name), Sems.ToSigned(initial), [], 1)]
  {
    var i := Sems.FreeFrom(w.sems, 0).value;
    assert w.sems[i].opens == 0;
  }

  /** Reads and writes answer what they transfer, sys_pipe 0 or -1, and the closing and setting up of FDs 0. */
  lemma PipeAnswers(s: Pipe.Pipes, io: PS.Event)
    ensures match io
            case Open(name) => PipeResult(s, io) == if Pipe.SysPipe(s, name).1.Some? then 0 else -1
            case Read(n, count, typed) => PipeResult(s, io) == Pipe.SysRead(s, n, count, typed).1
            case Write(n, data) => PipeResult(s, io) == Pipe.SysWrite(s, n, data).1
            case Dup(oldFd, newFd) => PipeResult(s, io) == Pipe.Dup2(s, oldFd, newFd).1
            case _ => PipeResult(s, io) == 0
  {
  }
}
