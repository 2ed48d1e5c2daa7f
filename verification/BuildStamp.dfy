/**
 The stamp that tells which flags a core's objects were compiled with (build.rs), across builds
 with changing flags that may stop between any two steps.
 */
module BuildStamp {
  import opened Common

  type Flags = string

  type Path = string

  /** Where the build script is: what it has left to delete, then the archive, the stamp, and make. */
  datatype Pc =
    | Idle
    | Deleting(flags: Flags, todo: set<Path>)
    | Unarchiving(flags: Flags)
    | Stamping(flags: Flags)
    | Making(flags: Flags)

  /** `objects` and `archive` hold the flags their contents were compiled with: history. */
  datatype State = State(stamp: Option<Flags>, objects: map<Path, Flags>, archive: Option<set<Flags>>, pc: Pc)

  datatype Event =
    | Build(flags: Flags)
    | Delete(path: Path, ok: bool)
    | Walked
    | Unarchive(ok: bool)
    | Write
    | TornWrite(text: string)
    | Compile(path: Path)
    | Archive
    | Stop

  predicate Enabled(st: State, ev: Event)
  {
    match ev
    case Build(_) => st.pc.Idle?
    case Delete(path, _) => st.pc.Deleting? && path in st.pc.todo
    case Walked => st.pc.Deleting? && st.pc.todo == {}
    case Unarchive(_) => st.pc.Unarchiving?
    case Write => st.pc.Stamping?
    case TornWrite(text) => st.pc.Stamping? && text < st.pc.flags
    case Compile(_) => st.pc.Making?
    case Archive => st.pc.Making?
    case Stop => true
  }

  function FlagsIn(objects: map<Path, Flags>): set<Flags>
  {
    set p | p in objects :: objects[p]
  }

  function Step(st: State, ev: Event): State
    requires Enabled(st, ev)
  {
    match ev
    case Build(flags) =>
      if st.stamp == Some(flags) then st.(pc := Making(flags)) else st.(pc := Deleting(flags, st.objects.Keys))
    case Delete(path, ok) =>
      st.(objects := if ok then st.objects - {path} else st.objects,
          pc := Deleting(st.pc.flags, st.pc.todo - {path}))
    case Walked => st.(pc := Unarchiving(st.pc.flags))
    case Unarchive(ok) => st.(archive := if ok then None else st.archive, pc := Stamping(st.pc.flags))
    case Write => st.(stamp := Some(st.pc.flags), pc := Making(st.pc.flags))
    case TornWrite(text) => st.(stamp := Some(text), pc := Idle)
    case Compile(path) => st.(objects := st.objects[path := st.pc.flags])
    case Archive => st.(archive := Some(FlagsIn(st.objects)))
    case Stop => st.(pc := Idle)
  }

  /** Everything compiled that is there was compiled with `flags`. */
  predicate All(st: State, flags: Flags)
  {
    && (forall p :: p in st.objects ==> st.objects[p] == flags)
    && (st.archive.Some? ==> st.archive.value <= {flags})
  }

  /** The stamp, if there is one, tells the truth. */
  predicate Truthful(st: State)
  {
    st.stamp.Some? ==> All(st, st.stamp.value)
  }

  /** Make runs only under its own stamp. */
  predicate Stamped(st: State)
  {
    st.pc.Making? ==> st.stamp == Some(st.pc.flags)
  }

  predicate IsRun(st: State, evs: seq<Event>)
    decreases |evs|
  {
    evs == [] || (Enabled(st, evs[0]) && IsRun(Step(st, evs[0]), evs[1..]))
  }

  /** The stamp tells the truth at every moment of the run. */
  predicate AlwaysTruthful(st: State, evs: seq<Event>)
    requires IsRun(st, evs)
    decreases |evs|
  {
    Truthful(st) && (evs == [] || AlwaysTruthful(Step(st, evs[0]), evs[1..]))
  }

  // ---- which deletions failed ----

  /** What the failed deletions of the current build hit: objects and archive, with their flags. */
  datatype Failures = Failures(objects: map<Path, Flags>, archive: Option<set<Flags>>)

  const NONE := Failures(map[], None)

  function Noting(f: Failures, st: State, ev: Event): Failures
    requires Enabled(st, ev)
  {
    match ev
    case Build(_) => NONE
    case Delete(path, ok) =>
      if !ok && path in st.objects then f.(objects := f.objects[path := st.objects[path]]) else f
    case Unarchive(ok) => if !ok then f.(archive := st.archive) else f
    case _ => f
  }

  /** Everything the failures hit had been compiled with `flags` anyway. */
  predicate Harmless(f: Failures, flags: Flags)
  {
    && (forall p :: p in f.objects ==> f.objects[p] == flags)
    && (f.archive.Some? ==> f.archive.value <= {flags})
  }

  /** Whenever the run writes a stamp, whole or torn, the build's failed deletions were harmless to it. */
  predicate HarmlessRun(st: State, f: Failures, evs: seq<Event>)
    requires IsRun(st, evs)
    decreases |evs|
  {
    evs != [] ==>
      && (evs[0].Write? ==> Harmless(f, st.pc.flags))
      && (evs[0].TornWrite? ==> Harmless(f, evs[0].text))
      && HarmlessRun(Step(st, evs[0]), Noting(f, st, evs[0]), evs[1..])
  }

  /** What is left of a build's objects is what it has yet to delete and what it failed to delete. */
  predicate Surviving(st: State, f: Failures)
  {
    match st.pc
    case Deleting(_, todo) =>
      && st.objects.Keys == todo + f.objects.Keys && f.archive.None?
      && forall p :: p in f.objects ==> st.objects[p] == f.objects[p]
    case Unarchiving(_) => st.objects == f.objects && f.archive.None?
    case Stamping(_) => st.objects == f.objects && st.archive == f.archive
    case _ => true
  }

  lemma SurvivingStep(st: State, f: Failures, ev: Event)
    requires Surviving(st, f) && Enabled(st, ev)
    requires st.pc.Deleting? ==> st.pc.todo !! f.objects.Keys
    ensures Surviving(Step(st, ev), Noting(f, st, ev))
    ensures Step(st, ev).pc.Deleting? ==> Step(st, ev).pc.todo !! Noting(f, st, ev).objects.Keys
  {
    if ev.Walked? { assert st.objects.Keys == f.objects.Keys; }
  }

  /** A step keeps the truth unless it is a write after a harmful failure. */
  lemma TruthStep(st: State, f: Failures, ev: Event)
    requires Truthful(st) && Stamped(st) && Surviving(st, f) && Enabled(st, ev)
    ensures Stamped(Step(st, ev))
    ensures Truthful(Step(st, ev)) <==>
            (ev.Write? ==> Harmless(f, st.pc.flags)) && (ev.TornWrite? ==> Harmless(f, ev.text))
  {}

  lemma {:induction false} TruthFrom(st: State, f: Failures, evs: seq<Event>)
    requires IsRun(st, evs) && Truthful(st) && Stamped(st) && Surviving(st, f)
    requires st.pc.Deleting? ==> st.pc.todo !! f.objects.Keys
    ensures AlwaysTruthful(st, evs) <==> HarmlessRun(st, f, evs)
    decreases |evs|
  {
    if evs != [] {
      TruthStep(st, f, evs[0]);
      SurvivingStep(st, f, evs[0]);
      if Truthful(Step(st, evs[0])) { TruthFrom(Step(st, evs[0]), Noting(f, st, evs[0]), evs[1..]); }
    }
  }

  /**
   Over builds with any flags and stops anywhere, the stamp tells the truth throughout exactly if,
   within each build that came to write a stamp, every deletion that failed hit something already
   compiled with what was written.
   */
  lemma TruthExactly(st: State, evs: seq<Event>)
    requires IsRun(st, evs) && Truthful(st) && st.pc.Idle?
    ensures AlwaysTruthful(st, evs) <==> HarmlessRun(st, NONE, evs)
  {
    TruthFrom(st, NONE, evs);
  }

  // ---- builds that find a stamp ----

  /** Some deletion failed on something that was there. */
  predicate Failed(f: Failures)
  {
    f.objects != map[] || (f.archive.Some? && f.archive.value != {})
  }

  /** A build past its check has another stamp than the one it found, and its failures hit what that one tells of. */
  predicate Restamping(st: State, f: Failures)
  {
    (st.pc.Deleting? || st.pc.Unarchiving? || st.pc.Stamping?) && st.stamp.Some? ==>
      st.stamp.value != st.pc.flags && Harmless(f, st.stamp.value)
  }

  lemma RestampingStep(st: State, f: Failures, ev: Event)
    requires Restamping(st, f) && Truthful(st) && Enabled(st, ev)
    ensures Restamping(Step(st, ev), Noting(f, st, ev))
  {}

  function NotedAfter(st: State, f: Failures, evs: seq<Event>): (r: (State, Failures))
    requires IsRun(st, evs)
    decreases |evs|
  {
    if evs == [] then (st, f) else NotedAfter(Step(st, evs[0]), Noting(f, st, evs[0]), evs[1..])
  }

  lemma {:induction false} RestampingRun(st: State, f: Failures, evs: seq<Event>)
    requires IsRun(st, evs) && AlwaysTruthful(st, evs) && Restamping(st, f)
    ensures var (last, failed) := NotedAfter(st, f, evs); Truthful(last) && Restamping(last, failed)
    decreases |evs|
  {
    if evs != [] {
      RestampingStep(st, f, evs[0]);
      RestampingRun(Step(st, evs[0]), Noting(f, st, evs[0]), evs[1..]);
    }
  }

  /**
   Where the tree had a stamp, and all was truthful so far, a build's whole new stamp is truthful if and
   only if none of its deletions failed on anything at all: whatever survives bears the old flags.
   */
  lemma AnyFailureLies(st: State, evs: seq<Event>)
    requires IsRun(st, evs) && AlwaysTruthful(st, evs) && st.pc.Idle?
    ensures var (last, failed) := NotedAfter(st, NONE, evs);
      last.pc.Stamping? && last.stamp.Some? ==> (Truthful(Step(last, Write)) <==> !Failed(failed))
  {
    SurvivingRun(st, NONE, evs);
    RestampingRun(st, NONE, evs);
  }

  lemma {:induction false} SurvivingRun(st: State, f: Failures, evs: seq<Event>)
    requires IsRun(st, evs) && Surviving(st, f)
    requires st.pc.Deleting? ==> st.pc.todo !! f.objects.Keys
    ensures var (last, failed) := NotedAfter(st, f, evs); Surviving(last, failed)
    decreases |evs|
  {
    if evs != [] {
      SurvivingStep(st, f, evs[0]);
      SurvivingRun(Step(st, evs[0]), Noting(f, st, evs[0]), evs[1..]);
    }
  }

  // ---- deletions that succeed ----

  predicate Succeeds(ev: Event)
  {
    (ev.Delete? ==> ev.ok) && (ev.Unarchive? ==> ev.ok)
  }

  lemma {:induction false} NoneFailed(st: State, evs: seq<Event>)
    requires IsRun(st, evs) && forall i :: 0 <= i < |evs| ==> Succeeds(evs[i])
    ensures HarmlessRun(st, NONE, evs)
    decreases |evs|
  {
    if evs != [] {
      assert Succeeds(evs[0]);
      assert forall i :: 0 <= i < |evs| - 1 ==> evs[1..][i] == evs[i + 1];
      assert Noting(NONE, st, evs[0]) == NONE;
      NoneFailed(Step(st, evs[0]), evs[1..]);
    }
  }

  /**
   When no deletion fails, the stamp tells the truth throughout, whatever the builds and wherever
   they stop: between two deletions, in the middle of writing the stamp, between two compilations.
   */
  lemma StampTellsTheTruth(st: State, evs: seq<Event>)
    requires IsRun(st, evs) && Truthful(st) && st.pc.Idle?
    requires forall i :: 0 <= i < |evs| ==> Succeeds(evs[i])
    ensures AlwaysTruthful(st, evs)
  {
    NoneFailed(st, evs);
    TruthExactly(st, evs);
  }

  /** So what make archives under a truthful stamp, the flags of all objects, is one set of flags. */
  lemma NoMixedArchive(st: State)
    requires Truthful(st) && Stamped(st) && st.pc.Making?
    ensures var archived := Step(st, Archive).archive;
      && archived.Some? && archived.value <= {st.pc.flags}
      && forall p :: p in st.objects ==> st.objects[p] in archived.value
  {}

  /** A build goes straight to make under its own stamp, and otherwise has every object to delete first. */
  lemma BuildBegins(st: State, flags: Flags)
    requires Enabled(st, Build(flags))
    ensures Step(st, Build(flags)) ==
            st.(pc := if st.stamp == Some(flags) then Making(flags) else Deleting(flags, st.objects.Keys))
  {}

  /** An object that cannot be deleted is passed off as compiled with the new flags. */
  lemma StuckObject(was: Flags, now: Flags)
    requires was != now
    ensures var st0 := State(Some(was), map["mem/heap.o" := was], None, Idle);
      && Truthful(st0)
      && var walked := Step(Step(Step(st0, Build(now)), Delete("mem/heap.o", false)), Walked);
         var st := Step(Step(walked, Unarchive(true)), Write);
         st.stamp == Some(now) && st.objects["mem/heap.o"] == was && !Truthful(st)
  {
    var st0 := State(Some(was), map["mem/heap.o" := was], None, Idle);
    var st1 := Step(st0, Build(now));
    assert st1.pc == Deleting(now, {"mem/heap.o"});
    var st2 := Step(st1, Delete("mem/heap.o", false));
    assert st2.pc.todo == {};
  }

  // ---- the script ----

  /** What is on disk: the stamp file, the objects and the archive. */
  class Tree {
    var stamp: Option<Flags>
    var objects: map<Path, Flags>
    var archive: Option<set<Flags>>

    constructor (stamp: Option<Flags>, objects: map<Path, Flags>, archive: Option<set<Flags>>)
      ensures this.stamp == stamp && this.objects == objects && this.archive == archive
    {
      this.stamp, this.objects, this.archive := stamp, objects, archive;
    }

    /** `invalidate_on_stamp_change`; `stuck` holds the objects that cannot be deleted. */
    method Invalidate(flags: Flags, stuck: set<Path>, archiveStuck: bool)
      modifies this
      ensures stamp == Some(flags)
      ensures old(stamp) == Some(flags) ==> objects == old(objects) && archive == old(archive)
      ensures old(stamp) != Some(flags) ==>
        && objects == (map p | p in old(objects) && p in stuck :: old(objects)[p])
        && archive == if archiveStuck then old(archive) else None
    {
      if stamp == Some(flags) { return; }
      var todo := objects.Keys;
      ghost var was := objects;
      while todo != {}
        invariant todo <= was.Keys
        invariant objects == map p | p in was && (p in todo || p in stuck) :: was[p]
        invariant stamp == old(stamp) && archive == old(archive)
        decreases |todo|
      {
        var p :| p in todo;
        todo := todo - {p};
        if p !in stuck { objects := objects - {p}; }
      }
      if !archiveStuck { archive := None; }
      stamp := Some(flags);
    }
  }
}
