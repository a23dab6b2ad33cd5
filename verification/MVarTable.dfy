/**
 mvar.c's table of MVars: looking one up by its name, creating one, in place of an old one when the table is full, and
 destroying one. An MVar can be found exactly until the sixteenth creation after its own.
 */
module MVarTable {
  import opened Processes
  import MVar
  import Sems = SemaphoreSpec
  import ST = SemaphoreTheorems
  import Slices = SemaphoreSlices
  import opened SemaphoreStrangers

  const MAX_USER_MVARS: nat := 16

  datatype Entry = Entry(name: string, value: char, inUse: bool)

  const Unused: Entry := Entry("", '\0', false)

  /** `reclaim` is the entry the next creation takes when all are in use. */
  datatype Table = Table(entries: seq<Entry>, reclaim: nat)

  ghost predicate TableOk(t: Table) { |t.entries| == MAX_USER_MVARS && t.reclaim < MAX_USER_MVARS }

  predicate Holds(e: Entry, name: string) { e.inUse && e.name == name }

  /** find_umvar, from entry i on. */
  function Find(es: seq<Entry>, name: string, i: nat): (r: Option<nat>)
    requires i <= |es|
    ensures r.Some? ==> i <= r.value < |es| && Holds(es[r.value], name)
    ensures r.None? ==> forall j :: i <= j < |es| ==> !Holds(es[j], name)
    decreases |es| - i
  {
    if i == |es| then None else if Holds(es[i], name) then Some(i) else Find(es, name, i + 1)
  }

  function FreeFrom(es: seq<Entry>, i: nat): (r: Option<nat>)
    requires i <= |es|
    ensures r.Some? ==> i <= r.value < |es| && !es[r.value].inUse && forall j :: i <= j < r.value ==> es[j].inUse
    ensures r.None? ==> forall j :: i <= j < |es| ==> es[j].inUse
    decreases |es| - i
  {
    if i == |es| then None else if !es[i].inUse then Some(i) else FreeFrom(es, i + 1)
  }

  /** What a name is stored as. */
  function Fresh(name: string): Entry { Entry(MVar.Base(name), '\0', true) }

  /** user_mvar_create; besides the result, the MVar whose semaphores it closes. */
  function Create(t: Table, name: string): (Table, int, Option<string>)
    requires TableOk(t)
  {
    if Find(t.entries, name, 0).Some? then (t, 0, None)
    else
      match FreeFrom(t.entries, 0)
      case Some(i) => (t.(entries := t.entries[i := Fresh(name)]), 1, None)
      case None =>
        (Table(t.entries[t.reclaim := Fresh(name)], (t.reclaim + 1) % MAX_USER_MVARS), 1,
         Some(t.entries[t.reclaim].name))
  }

  /** user_mvar_destroy. */
  function Destroy(t: Table, name: string): (Table, Option<string>) {
    match Find(t.entries, name, 0)
    case None => (t, None)
    case Some(i) => (t.(entries := t.entries[i := t.entries[i].(name := "", inUse := false)]), Some(name))
  }

  // ---------------------------------------------------------------- in place

  class MVars {
    const entries: array<Entry>
    var reclaim: nat

    ghost predicate Valid()
      reads this
    {
      entries.Length == MAX_USER_MVARS && reclaim < MAX_USER_MVARS
    }

    ghost function Value(): (t: Table)
      reads this, entries
      requires Valid()
      ensures TableOk(t)
    {
      Table(entries[..], reclaim)
    }

    constructor ()
      ensures Valid() && fresh(entries) && Value() == Table(seq(MAX_USER_MVARS, i => Unused), 0)
    {
      entries := new Entry[MAX_USER_MVARS](i => Unused);
      reclaim := 0;
    }

    method FindMVar(name: string) returns (r: Option<nat>)
      requires Valid()
      ensures r == Find(entries[..], name, 0)
    {
      var i := 0;
      while i < MAX_USER_MVARS
        invariant i <= MAX_USER_MVARS && Find(entries[..], name, 0) == Find(entries[..], name, i)
      {
        if entries[i].inUse && entries[i].name == name {
          return Some(i);
        }
        i := i + 1;
      }
      return None;
    }

    method FindUnused() returns (r: Option<nat>)
      requires Valid()
      ensures r == FreeFrom(entries[..], 0)
    {
      var i := 0;
      while i < MAX_USER_MVARS
        invariant i <= MAX_USER_MVARS && FreeFrom(entries[..], 0) == FreeFrom(entries[..], i)
      {
        if !entries[i].inUse {
          return Some(i);
        }
        i := i + 1;
      }
      return None;
    }

    /** A null name is refused; `closed` names the MVar whose semaphores are closed. */
    method CreateMVar(name: Option<string>) returns (r: int, closed: Option<string>)
      requires Valid()
      modifies this`reclaim, entries
      ensures Valid()
      ensures name.None? ==> r == 0 && closed == None && Value() == old(Value())
      ensures name.Some? ==> (Value(), r, closed) == Create(old(Value()), name.value)
    {
      closed := None;
      if name.None? {
        return 0, closed;
      }
      var found := FindMVar(name.value);
      if found.Some? {
        return 0, closed;
      }
      var slot := FindUnused();
      var i := reclaim;
      if slot.Some? {
        i := slot.value;
      } else {
        reclaim := (reclaim + 1) % MAX_USER_MVARS;
        closed := Some(entries[i].name);
      }
      entries[i] := Entry(MVar.Base(name.value), '\0', true);
      return 1, closed;
    }

    method DestroyMVar(name: string) returns (closed: Option<string>)
      requires Valid()
      modifies entries
      ensures Valid() && (Value(), closed) == Destroy(old(Value()), name)
    {
      var found := FindMVar(name);
      if found.None? {
        return None;
      }
      entries[found.value] := entries[found.value].(name := "", inUse := false);
      return Some(name);
    }
  }

  // ---------------------------------------------------------------- how long an MVar can be found

  /** The command creates one MVar after another and destroys none. */
  function Created(names: seq<string>): (t: Table)
    ensures TableOk(t)
  {
    if names == [] then Table(seq(MAX_USER_MVARS, i => Unused), 0)
    else
      Create(Created(names[..|names| - 1]), names[|names| - 1]).0
  }

  /** Names as the command makes them from pids: short enough, and no two the same. */
  ghost predicate NamesOk(names: seq<string>) {
    && (forall j :: 0 <= j < |names| ==> |names[j]| < MVar.UMVAR_NAME_LEN)
    && forall j, k :: 0 <= j < k < |names| ==> names[j] != names[k]
  }

  /** What entry i holds after the creations: the last of those that came to it. */
  predicate Kept(names: seq<string>, e: Entry, i: nat)
    requires i < MAX_USER_MVARS
  {
    if i >= |names| then e == Unused
    else
      e == Entry(names[LastAt(|names|, i)], '\0', true)
  }

  /** The last creation before the n-th that went to entry i. */
  function LastAt(n: nat, i: nat): (r: nat)
    requires i < MAX_USER_MVARS && i < n
    ensures n <= r + MAX_USER_MVARS && r < n && r % MAX_USER_MVARS == i
  {
    n - 1 - (n - 1 - i) % MAX_USER_MVARS
  }

  ghost predicate AllKept(names: seq<string>, t: Table) {
    && |t.entries| == MAX_USER_MVARS
    && (forall i {:trigger t.entries[i]} :: 0 <= i < MAX_USER_MVARS ==> Kept(names, t.entries[i], i))
    && t.reclaim == if |names| <= MAX_USER_MVARS then 0 else |names| % MAX_USER_MVARS
  }

  /** One creation more: the entry it goes to changes hands, the others keep what they have. */
  lemma LastMoves(n: nat, i: nat)
    requires i < MAX_USER_MVARS
    ensures n % MAX_USER_MVARS == i ==> LastAt(n + 1, i) == n
    ensures n % MAX_USER_MVARS != i && i < n ==> LastAt(n + 1, i) == LastAt(n, i)
  {
  }

  /** A name that is not among those created is not found. */
  lemma NotFound(names: seq<string>, t: Table, name: string)
    requires AllKept(names, t) && name !in names
    ensures Find(t.entries, name, 0).None?
  {
    forall i | 0 <= i < MAX_USER_MVARS ensures !Holds(t.entries[i], name) { assert Kept(names, t.entries[i], i); }
  }

  lemma NextEntry(names: seq<string>, t: Table, name: string)
    requires AllKept(names, t) && name !in names && |name| < MVar.UMVAR_NAME_LEN && TableOk(t)
    ensures var (t', r, closed) := Create(t, name);
            var n := |names|;
            && r == 1 && t'.entries == t.entries[n % MAX_USER_MVARS := Fresh(name)]
            && t'.reclaim == (if n + 1 <= MAX_USER_MVARS then 0 else (n + 1) % MAX_USER_MVARS)
            && closed == if n < MAX_USER_MVARS then None else Some(names[n - MAX_USER_MVARS])
  {
    var n := |names|;
    NotFound(names, t, name);
    forall i | 0 <= i < MAX_USER_MVARS ensures t.entries[i].inUse <==> i < n { assert Kept(names, t.entries[i], i); }
    if n >= MAX_USER_MVARS {
      assert Kept(names, t.entries[n % MAX_USER_MVARS], n % MAX_USER_MVARS);
      OldestIs(n);
      assert FreeFrom(t.entries, 0).None? && t.reclaim == n % MAX_USER_MVARS;
    } else {
      assert !t.entries[n].inUse;
      assert FreeFrom(t.entries, 0) == Some(n) && n % MAX_USER_MVARS == n;
    }
  }

  lemma OldestIs(n: nat)
    requires n >= MAX_USER_MVARS
    ensures LastAt(n, n % MAX_USER_MVARS) == n - MAX_USER_MVARS
    ensures (n % MAX_USER_MVARS + 1) % MAX_USER_MVARS == (n + 1) % MAX_USER_MVARS
  {
  }

  lemma {:induction false} CreatedKeeps(names: seq<string>)
    requires NamesOk(names)
    ensures AllKept(names, Created(names))
    decreases |names|
  {
    if names != [] {
      var n := |names| - 1;
      var before := names[..n];
      CreatedKeeps(before);
      NextEntry(before, Created(before), names[n]);
      forall i {:trigger Created(names).entries[i]} | 0 <= i < MAX_USER_MVARS
        ensures Kept(names, Created(names).entries[i], i)
      {
        assert Kept(before, Created(before).entries[i], i);
        LastMoves(n, i);
      }
    }
  }

  lemma LastIs(n: nat, j: nat)
    requires j < n
    ensures j % MAX_USER_MVARS < n && (LastAt(n, j % MAX_USER_MVARS) == j <==> n <= j + MAX_USER_MVARS)
  {
  }

  /** An entry that holds the j-th name belongs to one of the last sixteen. */
  lemma HeldIsRecent(names: seq<string>, t: Table, i: nat, j: nat)
    requires NamesOk(names) && AllKept(names, t) && i < MAX_USER_MVARS && j < |names| && Holds(t.entries[i], names[j])
    ensures |names| <= j + MAX_USER_MVARS
  {
    assert Kept(names, t.entries[i], i);
    var k := LastAt(|names|, i);
    assert names[k] == names[j];
    assert k == j;
  }

  /** Only the last sixteen MVars can be found: put and take on an older one fail, whether or not its writers and
      readers are still there. */
  lemma LastSixteen(names: seq<string>, j: nat)
    requires NamesOk(names) && j < |names|
    ensures Find(Created(names).entries, names[j], 0).Some? <==> |names| <= j + MAX_USER_MVARS
  {
    var t := Created(names);
    CreatedKeeps(names);
    LastIs(|names|, j);
    assert Kept(names, t.entries[j % MAX_USER_MVARS], j % MAX_USER_MVARS);
    var r := Find(t.entries, names[j], 0);
    if r.Some? { HeldIsRecent(names, t, r.value, j); }
  }

  /** The creation that takes an entry in use closes the semaphores of the MVar it was for, the sixteenth before it. */
  lemma ClosesOldest(names: seq<string>, name: string)
    requires NamesOk(names + [name])
    ensures var (t, r, closed) := Create(Created(names), name);
            r == 1 && closed == if |names| < MAX_USER_MVARS then None else Some(names[|names| - MAX_USER_MVARS])
  {
    var all := names + [name];
    assert forall j :: 0 <= j < |names| ==> all[j] == names[j];
    CreatedKeeps(names);
    assert all[|names|] == name;
    NextEntry(names, Created(names), name);
  }

  /** A new MVar is found under its name cut at 27 characters, thus under its own if that is shorter than 28. */
  lemma FoundAsStored(t: Table, name: string)
    requires TableOk(t) && Find(t.entries, name, 0).None?
    ensures var (t', r, _) := Create(t, name);
            && r == 1 && (Find(t'.entries, name, 0).Some? <==> |name| < 28)
            && Find(t'.entries, name[..if |name| < 28 then |name| else 27], 0).Some?
  {
    MVar.NamesDiffer(name);
    var stored := name[..if |name| < 28 then |name| else 27];
    assert MVar.Base(name) == stored;
    var t' := Create(t, name).0;
    var i := if FreeFrom(t.entries, 0).Some? then FreeFrom(t.entries, 0).value else t.reclaim;
    assert t'.entries == t.entries[i := Fresh(name)];
    assert Holds(t'.entries[i], stored);
    if |name| >= 28 {
      forall j | 0 <= j < |t'.entries| ensures !Holds(t'.entries[j], name) { }
    }
  }

  // ---------------------------------------------------------------- destroying

  /** No two entries in use have the same name. */
  predicate NoTwins(es: seq<Entry>) {
    forall i, j :: 0 <= i < j < |es| && es[i].inUse && es[j].inUse ==> es[i].name != es[j].name
  }

  /** What is destroyed is found no more, its entry is unused and its semaphores are closed; every other MVar stays. */
  lemma DestroyForgets(t: Table, name: string)
    requires NoTwins(t.entries)
    ensures var (t', closed) := Destroy(t, name);
            var r := Find(t.entries, name, 0);
            && NoTwins(t'.entries) && Find(t'.entries, name, 0).None? && t'.reclaim == t.reclaim
            && |t'.entries| == |t.entries|
            && (if r.Some? then closed == Some(name) && !t'.entries[r.value].inUse else closed == None)
            && forall i :: 0 <= i < |t.entries| && Some(i) != r ==> t'.entries[i] == t.entries[i]
  {
  }

  // ---------------------------------------------------------------- what the reclaiming does to live participants

  /** user_mvar_close_sems. */
  function CloseSems(w: Sems.World, name: string): Sems.World {
    Sems.SemClose(Sems.SemClose(w, MVar.EmptyName(name)).0, MVar.FullName(name)).0
  }

  /** The second close does not mend what the first one did to another entry. */
  lemma StillUndercounted(w: Sems.World, name: string, i: nat)
    requires Undercounted(w, i) && Sems.Find(w, name) != Some(i)
    ensures Undercounted(Sems.SemClose(w, name).0, i)
  {
    var w' := Sems.SemClose(w, name).0;
    forall p ensures p in ST.Openers(w'.view.procs, i) <==> p in ST.Openers(w.view.procs, i) { }
    assert ST.Openers(w'.view.procs, i) == ST.Openers(w.view.procs, i);
  }

  /** A process that is no participant closes an MVar's semaphores, as the creation of another one does: the table of
      semaphores stays consistent if and only if no participant is left. Otherwise the count of the first one falls
      below the number of participants that have it open, and if that is a single one, it loses the semaphore. */
  lemma ReclaimBreaksIff(s: MVar.System)
    requires MVar.Inv(s) && ST.CallerRuns(s.w) && !MVar.IsPart(s.parts, s.w.view.cur.value)
    ensures var openers := MVar.Sems(s).empty.openers;
            var w' := CloseSems(s.w, s.name);
            && (ST.SemInv(w') <==> openers == {})
            && (openers != {} ==>
                && Sems.Find(s.w, MVar.EmptyName(s.name)).Some?
                && Undercounted(w', Sems.Find(s.w, MVar.EmptyName(s.name)).value)
                && (|openers| == 1 ==> Sems.Find(w', MVar.EmptyName(s.name)).None?))
  {
    var (e, f) := (MVar.EmptyName(s.name), MVar.FullName(s.name));
    MVar.NamesDiffer(s.name);
    MVar.SemsOk(s);
    Slices.SliceIsOk(s.w, e);
    Slices.SliceIsOk(s.w, f);
    if MVar.Sems(s).empty.openers == {} {
      MVar.NobodyActive(MVar.Sems(s), s.parts);
    } else {
      var i := Sems.Find(s.w, e).value;
      var w1 := Sems.SemClose(s.w, e).0;
      StrangerCloses(s.w, e, i);
      StillUndercounted(w1, f, i);
      UndercountedBreaks(CloseSems(s.w, s.name), i);
      GoneStaysGone(w1, f, e);
    }
  }

  lemma GoneStaysGone(w: Sems.World, f: string, e: string)
    requires f != "" && e != ""
    ensures Sems.Find(w, e).None? ==> Sems.Find(Sems.SemClose(w, f).0, e).None?
  {
  }
}
