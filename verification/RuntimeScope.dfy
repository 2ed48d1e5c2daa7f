/**
 One runtime per process, pinned to a thread (runtime.rs): any number of threads enter, nest, fail
 and leave scopes, interleaved between their atomic accesses.

 The engine does nothing to refuse a second runtime or a call from the wrong thread. What it is
 asked to do is logged, and the log is judged by an engine that does mind.
 */
module RuntimeScope {
  import opened Common

  /** Where a thread is inside `Runtime::new`, the scope's body, or `Drop for Runtime`. */
  datatype Pc =
    | Claimed
    | CreateFailed
    | Created(rt: nat)
    | Body(rt: nat)
    | PollTaken(rt: nat, poll: bool)
    | PollGone(rt: nat)
    | HeapGone
    | Disowned

  /** What the engine is asked, and by whom. */
  datatype Ask =
    | MakeRuntime(rt: nat, thread: nat)
    | MakePoll(rt: nat)
    | DestroyPoll(rt: nat)
    | DestroyRuntime(rt: nat)
    | Evaluate(rt: nat, thread: nat)

  datatype Refusal = Nested | Elsewhere | CreationFailed

  datatype Panic = OffThread | NoRuntime

  /** `busy` holds the threads between a successful exchange of LIVE and its release. */
  datatype State = State(live: bool, owns: set<nat>, busy: map<nat, Pc>, current: Option<nat>, poll: bool,
                         made: nat, log: seq<Ask>)

  datatype Event =
    | Enter(t: nat)
    | Create(t: nat, ok: bool)
    | Own(t: nat)
    | GiveUp(t: nat)
    | Call(t: nat)
    | InstallPoll(t: nat)
    | Leave(t: nat)
    | KillPoll(t: nat)
    | KillHeap(t: nat)
    | Disown(t: nat)
    | Release(t: nat)

  const INITIAL := State(false, {}, map[], None, false, 0, [])

  predicate At(st: State, t: nat, pc: Pc)
  {
    t in st.busy && st.busy[t] == pc
  }

  /** The thread runs the program's own code: outside any scope, or in a scope's body. */
  predicate InUserCode(st: State, t: nat)
  {
    t !in st.busy || st.busy[t].Body?
  }

  predicate Enabled(st: State, ev: Event)
  {
    match ev
    case Enter(t) => InUserCode(st, t)
    case Create(t, _) => At(st, t, Claimed)
    case Own(t) => t in st.busy && st.busy[t].Created?
    case GiveUp(t) => At(st, t, CreateFailed)
    case Call(t) => InUserCode(st, t)
    case InstallPoll(t) => InUserCode(st, t)
    case Leave(t) => t in st.busy && st.busy[t].Body?
    case KillPoll(t) => t in st.busy && st.busy[t].PollTaken?
    case KillHeap(t) => t in st.busy && st.busy[t].PollGone?
    case Disown(t) => At(st, t, HeapGone)
    case Release(t) => At(st, t, Disowned)
  }

  /** The message a refused scope is given. */
  function RefusalOf(st: State, t: nat): Refusal
  {
    if t in st.owns then Nested else Elsewhere
  }

  /** `assert_on_runtime_thread`: none when it returns. */
  function PanicOf(st: State, t: nat): Option<Panic>
  {
    if t in st.owns then None else if st.live then Some(OffThread) else Some(NoRuntime)
  }

  function Asked(st: State, a: Ask): State
  {
    st.(log := st.log + [a])
  }

  /** The runtime a request goes to: whatever the engine's one global holds. */
  function Global(st: State): nat
  {
    if st.current.Some? then st.current.value else 0
  }

  function Step(st: State, ev: Event): State
    requires Enabled(st, ev)
  {
    match ev
    case Enter(t) => if st.live then st else st.(live := true, busy := st.busy[t := Claimed])
    case Create(t, ok) =>
      if ok then
        Asked(st, MakeRuntime(st.made, t))
          .(busy := st.busy[t := Created(st.made)], current := Some(st.made), made := st.made + 1)
      else st.(busy := st.busy[t := CreateFailed])
    case Own(t) => st.(owns := st.owns + {t}, busy := st.busy[t := Body(st.busy[t].rt)])
    case GiveUp(t) => st.(live := false, busy := st.busy - {t})
    case Call(t) => if PanicOf(st, t).Some? then st else Asked(st, Evaluate(Global(st), t))
    case InstallPoll(t) =>
      if t !in st.owns || st.poll then st else Asked(st, MakePoll(Global(st))).(poll := true)
    case Leave(t) => st.(busy := st.busy[t := PollTaken(st.busy[t].rt, st.poll)], poll := false)
    case KillPoll(t) =>
      var gone := st.(busy := st.busy[t := PollGone(st.busy[t].rt)]);
      if st.busy[t].poll then Asked(gone, DestroyPoll(Global(st))) else gone
    case KillHeap(t) =>
      Asked(st, DestroyRuntime(st.busy[t].rt)).(busy := st.busy[t := HeapGone], current := None)
    case Disown(t) => st.(owns := st.owns - {t}, busy := st.busy[t := Disowned])
    case Release(t) => st.(live := false, busy := st.busy - {t})
  }

  // ---- an engine that minds ----

  /** The runtime that exists, the thread it is pinned to, and whether it has a poll. */
  datatype Engine = Engine(rt: Option<nat>, pinned: nat, poll: bool)

  /**
   What each request needs: no runtime to make one; the runtime there, and without a poll, to destroy
   it; the runtime's own thread to evaluate.
   */
  function Obey(e: Engine, a: Ask): Option<Engine>
  {
    match a
    case MakeRuntime(rt, t) => if e.rt.None? && !e.poll then Some(Engine(Some(rt), t, false)) else None
    case MakePoll(rt) => if e.rt == Some(rt) && !e.poll then Some(e.(poll := true)) else None
    case DestroyPoll(rt) => if e.rt == Some(rt) && e.poll then Some(e.(poll := false)) else None
    case DestroyRuntime(rt) => if e.rt == Some(rt) && !e.poll then Some(e.(rt := None)) else None
    case Evaluate(rt, t) => if e.rt == Some(rt) && e.pinned == t then Some(e) else None
  }

  function Replay(log: seq<Ask>): Option<Engine>
  {
    if log == [] then Some(Engine(None, 0, false))
    else
      var before := Replay(log[..|log| - 1]);
      if before.None? then None else Obey(before.value, log[|log| - 1])
  }

  lemma ReplayMore(log: seq<Ask>, a: Ask)
    ensures Replay(log + [a]) == if Replay(log).None? then None else Obey(Replay(log).value, a)
  {
    assert (log + [a])[..|log|] == log;
  }

  // ---- what every step keeps ----

  predicate Owning(pc: Pc)
  {
    pc.Body? || pc.PollTaken? || pc.PollGone? || pc.HeapGone?
  }

  predicate HasRuntime(pc: Pc)
  {
    pc.Created? || pc.Body? || pc.PollTaken? || pc.PollGone?
  }

  predicate Exclusive(st: State)
  {
    && (st.live <==> st.busy != map[])
    && (forall t, u :: t in st.busy && u in st.busy ==> t == u)
    && (forall t :: t in st.owns ==> t in st.busy)
    && (forall t :: t in st.busy ==>
          && (t in st.owns <==> Owning(st.busy[t]))
          && (st.current == if HasRuntime(st.busy[t]) then Some(st.busy[t].rt) else None)
          && (st.poll ==> st.busy[t].Body?))
    && (st.busy == map[] ==> st.current == None && !st.poll)
  }

  /** The engine that minds has obeyed all of it, and is where the program takes it to be. */
  predicate Obeyed(st: State)
  {
    && Replay(st.log).Some?
    && var e := Replay(st.log).value;
       && e.rt == st.current
       && (forall t :: t in st.busy ==>
             && (HasRuntime(st.busy[t]) ==> e.pinned == t)
             && (e.poll <==> st.poll || (st.busy[t].PollTaken? && st.busy[t].poll)))
       && (st.busy == map[] ==> !e.poll)
  }

  predicate Sound(st: State)
  {
    Exclusive(st) && Obeyed(st)
  }

  lemma ExclusiveStep(st: State, ev: Event)
    requires Exclusive(st) && Enabled(st, ev)
    ensures Exclusive(Step(st, ev))
  {
    assert st.live ==> exists t :: t in st.busy;
    var st' := Step(st, ev);
    if ev.GiveUp? || ev.Release? {
      assert forall u :: u in st.busy ==> u == ev.t;
      assert st'.busy == map[];
    } else if t :| t in st'.busy {
      assert st'.busy != map[];
    }
  }

  /** What the step asks of the engine. */
  function AskOf(st: State, ev: Event): Option<Ask>
    requires Enabled(st, ev)
  {
    match ev
    case Create(t, ok) => if ok then Some(MakeRuntime(st.made, t)) else None
    case Call(t) => if PanicOf(st, t).Some? then None else Some(Evaluate(Global(st), t))
    case InstallPoll(t) => if t !in st.owns || st.poll then None else Some(MakePoll(Global(st)))
    case KillPoll(t) => if st.busy[t].poll then Some(DestroyPoll(Global(st))) else None
    case KillHeap(t) => Some(DestroyRuntime(st.busy[t].rt))
    case _ => None
  }

  lemma LogStep(st: State, ev: Event)
    requires Enabled(st, ev)
    ensures Step(st, ev).log == if AskOf(st, ev).Some? then st.log + [AskOf(st, ev).value] else st.log
  {}

  lemma QuietObeyed(st: State, ev: Event)
    requires Sound(st) && Enabled(st, ev) && Exclusive(Step(st, ev)) && AskOf(st, ev).None?
    ensures Obeyed(Step(st, ev))
  {
    LogStep(st, ev);
    assert st.live ==> exists t :: t in st.busy;
  }

  /** The engine that minds obeys what the step asks. */
  lemma AskObeyed(st: State, ev: Event)
    requires Sound(st) && Enabled(st, ev) && AskOf(st, ev).Some?
    ensures Obey(Replay(st.log).value, AskOf(st, ev).value).Some?
  {}

  lemma AskedObeyed(st: State, ev: Event)
    requires Sound(st) && Enabled(st, ev) && Exclusive(Step(st, ev)) && AskOf(st, ev).Some?
    ensures Obeyed(Step(st, ev))
  {
    LogStep(st, ev);
    AskObeyed(st, ev);
    ReplayMore(st.log, AskOf(st, ev).value);
  }

  lemma ObeyedStep(st: State, ev: Event)
    requires Sound(st) && Enabled(st, ev) && Exclusive(Step(st, ev))
    ensures Obeyed(Step(st, ev))
  {
    if AskOf(st, ev).Some? { AskedObeyed(st, ev); } else { QuietObeyed(st, ev); }
  }

  lemma SoundStep(st: State, ev: Event)
    requires Sound(st) && Enabled(st, ev)
    ensures Sound(Step(st, ev))
  {
    ExclusiveStep(st, ev);
    ObeyedStep(st, ev);
  }

  // ---- whole runs ----

  predicate IsRun(st: State, evs: seq<Event>)
    decreases |evs|
  {
    evs == [] || (Enabled(st, evs[0]) && IsRun(Step(st, evs[0]), evs[1..]))
  }

  function After(st: State, evs: seq<Event>): State
    requires IsRun(st, evs)
    decreases |evs|
  {
    if evs == [] then st else After(Step(st, evs[0]), evs[1..])
  }

  lemma {:induction false} RunSound(st: State, evs: seq<Event>)
    requires Sound(st) && IsRun(st, evs)
    ensures Sound(After(st, evs))
    decreases |evs|
  {
    if evs != [] {
      SoundStep(st, evs[0]);
      RunSound(Step(st, evs[0]), evs[1..]);
    }
  }

  /**
   However the threads interleave, the engine that minds obeys every request: no runtime is made over
   another, none is evaluated on from another thread or after it is gone, and each loses its poll
   before its heap. With no thread in a scope there is no runtime and no poll.
   */
  lemma EngineObeys(evs: seq<Event>)
    requires IsRun(INITIAL, evs)
    ensures Replay(After(INITIAL, evs).log).Some?
    ensures After(INITIAL, evs).busy == map[] ==>
      Replay(After(INITIAL, evs).log).value.rt.None? && !Replay(After(INITIAL, evs).log).value.poll
  {
    RunSound(INITIAL, evs);
  }

  /**
   The check at every entry point passes exactly in the body of a scope of the calling thread, where
   its runtime is the one the engine has; and the two panics tell a scope elsewhere from none at all.
   */
  lemma CheckIsExact(evs: seq<Event>, t: nat)
    requires IsRun(INITIAL, evs) && InUserCode(After(INITIAL, evs), t)
    ensures var st := After(INITIAL, evs);
      && (PanicOf(st, t).None? <==> t in st.busy)
      && (PanicOf(st, t).None? ==>
            && st.current == Some(st.busy[t].rt) && Replay(st.log).Some? && Replay(st.log).value.pinned == t)
      && (PanicOf(st, t) == Some(OffThread) <==> exists u :: u in st.busy && u != t)
      && (PanicOf(st, t) == Some(NoRuntime) <==> st.busy == map[])
      && (t in st.busy ==> Step(st, Call(t)) == st.(log := st.log + [Evaluate(st.busy[t].rt, t)]))
      && (t !in st.busy ==> Step(st, Call(t)) == st && Step(st, InstallPoll(t)) == st)
      && (t in st.busy ==> Step(st, InstallPoll(t)).poll)
  {
    RunSound(INITIAL, evs);
    var st := After(INITIAL, evs);
    assert st.live ==> exists u :: u in st.busy;
  }

  /**
   A scope is refused exactly while some thread is in one, from its claim to its release. A refusal
   changes nothing, and says whether that thread is the caller. So after a failed creation or a
   teardown a scope can be entered again, on any thread.
   */
  lemma RefusedExactly(evs: seq<Event>, t: nat)
    requires IsRun(INITIAL, evs) && Enabled(After(INITIAL, evs), Enter(t))
    ensures var st := After(INITIAL, evs);
      && (st.busy != map[] ==> Step(st, Enter(t)) == st)
      && (st.busy == map[] ==> At(Step(st, Enter(t)), t, Claimed))
      && (st.busy != map[] ==>
            && (RefusalOf(st, t) == Nested <==> t in st.busy)
            && (RefusalOf(st, t) == Elsewhere <==> exists u :: u in st.busy && u != t))
  {
    RunSound(INITIAL, evs);
    var st := After(INITIAL, evs);
    assert st.live ==> exists u :: u in st.busy;
  }

  /** At any moment at most one thread is in a scope, and a runtime exists only there. */
  lemma OneRuntime(evs: seq<Event>, t: nat, u: nat)
    requires IsRun(INITIAL, evs) && t in After(INITIAL, evs).busy && u in After(INITIAL, evs).busy
    ensures t == u
    ensures After(INITIAL, evs).current ==
            if HasRuntime(After(INITIAL, evs).busy[t]) then Some(After(INITIAL, evs).busy[t].rt) else None
  {
    RunSound(INITIAL, evs);
  }

  // ---- the calls as they run undisturbed ----

  /** The process-wide flag, the thread-local cells and the engine's global. */
  class Process {
    var live: bool
    var owns: set<nat>
    var busy: map<nat, Pc>
    var current: Option<nat>
    var poll: bool
    var made: nat
    var log: seq<Ask>

    constructor ()
      ensures Value() == INITIAL
    {
      live, owns, busy, current, poll, made, log := false, {}, map[], None, false, 0, [];
    }

    function Value(): State
      reads this
    {
      State(live, owns, busy, current, poll, made, log)
    }

    /** `Runtime::new` on thread `t`; `ok` is whether the engine makes a runtime. */
    method New(t: nat, ok: bool) returns (r: Result<nat, Refusal>)
      requires Sound(Value()) && InUserCode(Value(), t)
      modifies this
      ensures Sound(Value())
      ensures old(live) ==> Value() == old(Value()) && r == Err(RefusalOf(old(Value()), t))
      ensures !old(live) && !ok ==> Value() == old(Value()) && r == Err(CreationFailed)
      ensures !old(live) && ok ==> Value() == Entered(old(Value()), t) && r == Ok(old(made))
    {
      if live {
        return Err(if t in owns then Nested else Elsewhere);
      }
      NewSound(Value(), t);
      live, busy := true, busy[t := Claimed];
      if !ok {
        live, busy := false, busy - {t};
        return Err(CreationFailed);
      }
      var rt := made;
      log := log + [MakeRuntime(rt, t)];
      current, made := Some(rt), made + 1;
      owns, busy := owns + {t}, busy[t := Body(rt)];
      r := Ok(rt);
    }

    /** `Drop for Runtime`: the poll, then the heap, then the thread's cell, then the flag. */
    method Drop(t: nat)
      requires Sound(Value()) && t in busy && busy[t].Body?
      modifies this
      ensures Value() == Dropped(old(Value()), t) && Sound(Value())
    {
      DropSound(Value(), t);
      var rt := busy[t].rt;
      var hadPoll := poll;
      poll := false;
      if hadPoll { log := log + [DestroyPoll(rt)]; }
      log := log + [DestroyRuntime(rt)];
      current := None;
      owns := owns - {t};
      live, busy := false, busy - {t};
    }
  }

  /** A scope entered undisturbed. */
  function Entered(st: State, t: nat): State
  {
    State(true, st.owns + {t}, st.busy[t := Body(st.made)], Some(st.made), st.poll, st.made + 1,
          st.log + [MakeRuntime(st.made, t)])
  }

  lemma MadeSound(st: State, t: nat)
    requires Sound(st) && InUserCode(st, t) && !st.live
    ensures st.busy == map[]
    ensures Sound(State(true, st.owns, map[t := Created(st.made)], Some(st.made), st.poll, st.made + 1,
                        st.log + [MakeRuntime(st.made, t)]))
  {
    SoundStep(st, Enter(t));
    SoundStep(Step(st, Enter(t)), Create(t, true));
  }

  lemma NewSound(st: State, t: nat)
    requires Sound(st) && InUserCode(st, t) && !st.live
    ensures Sound(Entered(st, t)) && st.busy[t := Claimed] - {t} == st.busy
  {
    MadeSound(st, t);
    SoundStep(State(true, st.owns, map[t := Created(st.made)], Some(st.made), st.poll, st.made + 1,
                    st.log + [MakeRuntime(st.made, t)]), Own(t));
  }

  /** A scope left undisturbed: the log grows by the poll's end, if there was one, and the heap's. */
  function Dropped(st: State, t: nat): State
    requires t in st.busy && st.busy[t].Body?
  {
    var rt := st.busy[t].rt;
    State(false, st.owns - {t}, st.busy - {t}, None, false, st.made,
          st.log + (if st.poll then [DestroyPoll(rt)] else []) + [DestroyRuntime(rt)])
  }

  lemma DropSound(st: State, t: nat)
    requires Sound(st) && t in st.busy && st.busy[t].Body?
    ensures Sound(Dropped(st, t)) && Dropped(st, t).busy == map[]
  {
    var st1 := Step(st, Leave(t));
    SoundStep(st, Leave(t));
    var st2 := Step(st1, KillPoll(t));
    SoundStep(st1, KillPoll(t));
    var st3 := Step(st2, KillHeap(t));
    SoundStep(st2, KillHeap(t));
    DropEnds(st3, t);
    assert st3.log == Dropped(st, t).log;
    assert st3.busy - {t} == st.busy - {t};
  }

  lemma DropEnds(st: State, t: nat)
    requires Sound(st) && At(st, t, HeapGone)
    ensures Sound(State(false, st.owns - {t}, st.busy - {t}, st.current, st.poll, st.made, st.log))
    ensures st.busy - {t} == map[]
  {
    var st1 := Step(st, Event.Disown(t));
    SoundStep(st, Event.Disown(t));
    SoundStep(st1, Release(t));
    assert st1.busy - {t} == st.busy - {t};
  }
}
