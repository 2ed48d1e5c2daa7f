/**
 Lambdas bound under generated names for deferred use in queries (lambda.rs).

 The environment is the runtime's; the counter is the thread's and outlives the runtime.
 */
module Lambda {
  import opened Common

  // ---- generated names ----

  function Digit(d: nat): (c: char)
    requires d < 16
    ensures '0' <= c <= '9' || 'a' <= c <= 'f'
  {
    if d < 10 then '0' + d as char else 'a' + (d - 10) as char
  }

  function DigitValue(c: char): (d: nat)
  {
    if '0' <= c <= '9' then c as nat - '0' as nat
    else if 'a' <= c <= 'f' then c as nat - 'a' as nat + 10
    else 0
  }

  /** `{n:x}`. */
  function Hex(n: nat): (s: string)
    ensures |s| > 0
  {
    if n < 16 then [Digit(n)] else Hex(n / 16) + [Digit(n % 16)]
  }

  function HexValue(s: string): nat
  {
    if s == [] then 0 else 16 * HexValue(s[..|s| - 1]) + DigitValue(s[|s| - 1])
  }

  const PREFIX := "__rustfn_"

  function NameOf(n: nat): string
  {
    PREFIX + Hex(n)
  }

  /** Reading the digits back gives the number, so printing loses nothing. */
  lemma {:induction false} HexReadsBack(n: nat)
    ensures HexValue(Hex(n)) == n
  {
    if n < 16 {
      assert Hex(n)[..0] == [];
    } else {
      HexReadsBack(n / 16);
      assert Hex(n)[..|Hex(n)| - 1] == Hex(n / 16);
    }
  }

  lemma NamesDiffer(m: nat, n: nat)
    requires NameOf(m) == NameOf(n)
    ensures m == n
  {
    assert NameOf(m)[|PREFIX|..] == Hex(m) && NameOf(n)[|PREFIX|..] == Hex(n);
    HexReadsBack(m);
    HexReadsBack(n);
  }

  ghost predicate Generated(name: string)
  {
    exists n: nat :: name == NameOf(n)
  }

  // ---- binding ----

  /** A lambda handle: the object it wraps, and the global it is bound under, if any. */
  datatype Handle = Handle(lambda: nat, bound: Option<string>)

  /** A deferred call: the name it will resolve, and the lambda it was made from. */
  datatype Deferred = Deferred(name: string, lambda: nat)

  /** `counters` are the threads'; `sets` records every generated name set, and by which thread. */
  datatype State = State(env: map<string, nat>, thread: nat, counters: map<nat, nat>, fns: seq<Handle>,
                         calls: seq<Deferred>, sets: seq<(nat, nat)>)

  datatype Event =
    | Wrap(lambda: nat)
    | FromGlobal(name: string)
    | CloneFn(k: nat)
    | Apply(k: nat, ok: bool)
    | UserSet(name: string, lambda: nat)
    | NewScope(thread: nat)

  const INITIAL := State(map[], 0, map[], [], [], [])

  function Counter(st: State): nat
  {
    if st.thread in st.counters then st.counters[st.thread] else 1
  }

  predicate Enabled(st: State, ev: Event)
  {
    match ev
    case CloneFn(k) => k < |st.fns|
    case Apply(k, _) => k < |st.fns|
    case _ => true
  }

  /** `bind` of an unbound handle: the counter moves on even if the global cannot be set. */
  function BindStep(st: State, k: nat, ok: bool): State
    requires k < |st.fns|
  {
    var n := Counter(st);
    var counted := st.(counters := st.counters[st.thread := n + 1]);
    if !ok then counted
    else
      var f := st.fns[k];
      counted.(env := st.env[NameOf(n) := f.lambda], fns := st.fns[k := f.(bound := Some(NameOf(n)))],
               sets := st.sets + [(st.thread, n)])
  }

  function ApplyStep(st: State, k: nat, ok: bool): State
    requires k < |st.fns|
  {
    var f := st.fns[k];
    if f.bound.Some? then st.(calls := st.calls + [Deferred(f.bound.value, f.lambda)])
    else
      var st' := BindStep(st, k, ok);
      if ok then st'.(calls := st.calls + [Deferred(NameOf(Counter(st)), f.lambda)]) else st'
  }

  /** Nothing of a scope survives it but the threads' counters. */
  function Step(st: State, ev: Event): State
    requires Enabled(st, ev)
  {
    match ev
    case Wrap(lambda) => st.(fns := st.fns + [Handle(lambda, None)])
    case FromGlobal(name) => if name in st.env then st.(fns := st.fns + [Handle(st.env[name], Some(name))]) else st
    case CloneFn(k) => st.(fns := st.fns + [st.fns[k]])
    case Apply(k, ok) => ApplyStep(st, k, ok)
    case UserSet(name, lambda) => st.(env := st.env[name := lambda])
    case NewScope(thread) => State(map[], thread, st.counters, [], [], st.sets)
  }

  // ---- what is kept ----

  /** The program sets no global whose name has the generated form. */
  ghost predicate Polite(ev: Event)
  {
    ev.UserSet? ==> !Generated(ev.name)
  }

  function CounterOf(counters: map<nat, nat>, thread: nat): nat
  {
    if thread in counters then counters[thread] else 1
  }

  /** No thread set a name twice, and its counter is past every one it set. */
  predicate SetOnce(st: State)
  {
    && (forall i :: 0 <= i < |st.sets| ==> st.sets[i].1 < CounterOf(st.counters, st.sets[i].0))
    && (forall i, j :: 0 <= i < j < |st.sets| ==> st.sets[i] != st.sets[j])
  }

  lemma SetOnceStep(st: State, ev: Event)
    requires SetOnce(st) && Enabled(st, ev)
    ensures SetOnce(Step(st, ev))
  {}

  /** Every generated name in the environment was counted. */
  ghost predicate Counted(st: State)
  {
    forall n: nat :: NameOf(n) in st.env ==> n < Counter(st)
  }

  /** Whatever refers to a generated name refers to the lambda it was set to. */
  ghost predicate Bound(st: State)
  {
    && (forall k :: 0 <= k < |st.fns| && st.fns[k].bound.Some? && Generated(st.fns[k].bound.value) ==>
          st.fns[k].bound.value in st.env && st.env[st.fns[k].bound.value] == st.fns[k].lambda)
    && (forall i :: 0 <= i < |st.calls| && Generated(st.calls[i].name) ==>
          st.calls[i].name in st.env && st.env[st.calls[i].name] == st.calls[i].lambda)
  }

  ghost predicate Sound(st: State)
  {
    SetOnce(st) && Counted(st) && Bound(st)
  }

  /** The name a bind is about to set is not in use. */
  lemma FreshName(st: State)
    requires Counted(st)
    ensures NameOf(Counter(st)) !in st.env
  {}

  lemma CountedStep(st: State, ev: Event)
    requires Counted(st) && Enabled(st, ev) && Polite(ev)
    ensures Counted(Step(st, ev))
  {
    var st' := Step(st, ev);
    forall n: nat | NameOf(n) in st'.env ensures n < Counter(st') {
      if NameOf(n) !in st.env {
        assert Generated(NameOf(n));
        NamesDiffer(n, Counter(st));
      }
    }
  }

  /** A step other than the program's own set of `name`, or the end of the scope, leaves `name` alone. */
  lemma OnlyTheProgramRebinds(st: State, ev: Event, name: string)
    requires Counted(st) && Enabled(st, ev) && name in st.env
    requires !ev.NewScope? && !(ev.UserSet? && ev.name == name)
    ensures name in Step(st, ev).env && Step(st, ev).env[name] == st.env[name]
  {
    FreshName(st);
  }

  lemma BoundStep(st: State, ev: Event)
    requires Counted(st) && Bound(st) && Enabled(st, ev) && Polite(ev)
    ensures Bound(Step(st, ev))
  {
    if ev.Apply? && st.fns[ev.k].bound.None? { FreshName(st); }
  }

  // ---- whole runs ----

  ghost predicate IsRun(st: State, evs: seq<Event>)
    decreases |evs|
  {
    evs == [] || (Enabled(st, evs[0]) && Polite(evs[0]) && IsRun(Step(st, evs[0]), evs[1..]))
  }

  ghost function After(st: State, evs: seq<Event>): State
    requires IsRun(st, evs)
    decreases |evs|
  {
    if evs == [] then st else After(Step(st, evs[0]), evs[1..])
  }

  lemma {:induction false} RunSound(st: State, evs: seq<Event>)
    requires Sound(st) && IsRun(st, evs)
    ensures Sound(After(st, evs))
    decreases |evs|
  {
    if evs != [] {
      SetOnceStep(st, evs[0]);
      CountedStep(st, evs[0]);
      BoundStep(st, evs[0]);
      RunSound(Step(st, evs[0]), evs[1..]);
    }
  }

  /**
   Over any number of scopes, threads, clones and failed binds: no thread sets a generated name
   twice, and every deferred call under a generated name denotes the lambda it was made from.
   */
  lemma DeferredCallsDenote(evs: seq<Event>, i: nat)
    requires IsRun(INITIAL, evs) && i < |After(INITIAL, evs).calls|
    ensures var st := After(INITIAL, evs);
      && (Generated(st.calls[i].name) ==>
            st.calls[i].name in st.env && st.env[st.calls[i].name] == st.calls[i].lambda)
      && (forall a, b :: 0 <= a < b < |st.sets| ==> st.sets[a] != st.sets[b])
  {
    RunSound(INITIAL, evs);
  }

  /** Distinct numbers give distinct names, so "set once" is about names and not only numbers. */
  lemma NamesSetOnce(evs: seq<Event>, a: nat, b: nat)
    requires IsRun(INITIAL, evs) && a < b < |After(INITIAL, evs).sets|
    requires After(INITIAL, evs).sets[a].0 == After(INITIAL, evs).sets[b].0
    ensures NameOf(After(INITIAL, evs).sets[a].1) != NameOf(After(INITIAL, evs).sets[b].1)
  {
    RunSound(INITIAL, evs);
    var sets := After(INITIAL, evs).sets;
    if NameOf(sets[a].1) == NameOf(sets[b].1) { NamesDiffer(sets[a].1, sets[b].1); }
  }

  predicate Untouched(evs: seq<Event>, name: string)
  {
    forall i :: 0 <= i < |evs| ==> !evs[i].NewScope? && !(evs[i].UserSet? && evs[i].name == name)
  }

  lemma {:induction false} DenotingStays(st: State, evs: seq<Event>, i: nat)
    requires Sound(st) && IsRun(st, evs) && i < |st.calls| && Untouched(evs, st.calls[i].name)
    requires st.calls[i].name in st.env && st.env[st.calls[i].name] == st.calls[i].lambda
    ensures var st' := After(st, evs);
      && i < |st'.calls| && st'.calls[i] == st.calls[i]
      && st.calls[i].name in st'.env && st'.env[st.calls[i].name] == st.calls[i].lambda
    decreases |evs|
  {
    if evs != [] {
      assert !evs[0].NewScope?;
      OnlyTheProgramRebinds(st, evs[0], st.calls[i].name);
      SetOnceStep(st, evs[0]);
      CountedStep(st, evs[0]);
      BoundStep(st, evs[0]);
      assert forall j :: 0 <= j < |evs| - 1 ==> evs[1..][j] == evs[j + 1];
      DenotingStays(Step(st, evs[0]), evs[1..], i);
    }
  }

  /**
   A deferred call under any name, generated or the program's own, that denotes its lambda goes on
   doing so under all later binds, clones and lookups, until the program itself sets that name.
   */
  lemma KeepsDenoting(evs: seq<Event>, more: seq<Event>, i: nat)
    requires IsRun(INITIAL, evs) && IsRun(After(INITIAL, evs), more) && i < |After(INITIAL, evs).calls|
    requires var c := After(INITIAL, evs).calls[i];
      Lookup(After(INITIAL, evs).env, c.name) == Some(c.lambda) && Untouched(more, c.name)
    ensures var c, st := After(INITIAL, evs).calls[i], After(After(INITIAL, evs), more);
      i < |st.calls| && st.calls[i] == c && Lookup(st.env, c.name) == Some(c.lambda)
  {
    RunSound(INITIAL, evs);
    DenotingStays(After(INITIAL, evs), more, i);
  }

  /** A deferred call denotes its lambda from the start if and only if the handle's name still does. */
  lemma AppliesExactly(st: State, k: nat)
    requires k < |st.fns|
    ensures var st', f := ApplyStep(st, k, true), st.fns[k];
      && |st'.calls| == |st.calls| + 1 && st'.calls[|st.calls|].lambda == f.lambda
      && (Lookup(st'.env, st'.calls[|st.calls|].name) == Some(f.lambda) <==>
            f.bound.None? || Lookup(st.env, f.bound.value) == Some(f.lambda))
  {}

  /**
   Where handles come from: wrapping gives an unbound one, a lookup one bound under the name it was found
   by (or none if there is no such global), and a clone the same lambda under the same binding.
   */
  lemma HandlesMade(st: State, lambda: nat, name: string, k: nat)
    ensures Step(st, Wrap(lambda)).fns == st.fns + [Handle(lambda, None)]
    ensures name in st.env ==> Step(st, FromGlobal(name)).fns == st.fns + [Handle(st.env[name], Some(name))]
    ensures name !in st.env ==> Step(st, FromGlobal(name)) == st
    ensures k < |st.fns| ==>
      Step(st, CloneFn(k)).fns == st.fns + [Handle(st.fns[k].lambda, st.fns[k].bound)]
  {}

  /** A deferred call is under the handle's name, or a fresh one the handle keeps; a refused bind only counts. */
  lemma AppliedNames(st: State, k: nat, ok: bool)
    requires k < |st.fns|
    ensures var st', f, n := Step(st, Apply(k, ok)), st.fns[k], Counter(st);
      if f.bound.Some? then st' == st.(calls := st.calls + [Deferred(f.bound.value, f.lambda)])
      else
        && Counter(st') == n + 1
        && st'.env == (if ok then st.env[NameOf(n) := f.lambda] else st.env)
        && st'.fns == (if ok then st.fns[k := Handle(f.lambda, Some(NameOf(n)))] else st.fns)
        && st'.calls == st.calls + if ok then [Deferred(NameOf(n), f.lambda)] else []
  {}

  /** The digits are lower-case hexadecimal, most significant first, after the prefix. */
  lemma NameOf255()
    ensures NameOf(255) == "__rustfn_ff" && NameOf(16) == "__rustfn_10"
  {
    assert Hex(15) == "f" && Hex(1) == "1";
    assert Hex(255) == "ff" && Hex(16) == "10";
  }

  function Lookup(env: map<string, nat>, name: string): Option<nat>
  {
    if name in env then Some(env[name]) else None
  }

  /** Setting a generated name behind the library's back redirects the deferred call that uses it. */
  lemma ImpoliteSet(lambda: nat, other: nat)
    requires lambda != other
    ensures var st := Step(ApplyStep(Step(INITIAL, Wrap(lambda)), 0, true), UserSet("__rustfn_1", other));
      st.calls == [Deferred("__rustfn_1", lambda)] && st.env["__rustfn_1"] == other
  {
    assert Hex(1) == "1";
    assert NameOf(1) == "__rustfn_1";
  }

  // ---- the handle as an object ----

  class Globals {
    var env: map<string, nat>

    constructor ()
      ensures env == map[]
    {
      env := map[];
    }
  }

  class BindCounter {
    var next: nat

    constructor ()
      ensures next == 1
    {
      next := 1;
    }
  }

  class Fn {
    const lambda: nat
    var boundName: Option<string>

    constructor (lambda: nat, boundName: Option<string>)
      ensures this.lambda == lambda && this.boundName == boundName
    {
      this.lambda, this.boundName := lambda, boundName;
    }

    /** `bind`; `ok` is whether the engine takes the global. */
    method Bind(globals: Globals, counter: BindCounter, ok: bool) returns (name: Option<string>)
      modifies this`boundName, globals, counter
      ensures old(boundName).Some? ==>
        name == old(boundName) == boundName && globals.env == old(globals.env) && counter.next == old(counter.next)
      ensures old(boundName).None? ==> counter.next == old(counter.next) + 1
      ensures old(boundName).None? && !ok ==>
        name == None && boundName == None && globals.env == old(globals.env)
      ensures old(boundName).None? && ok ==>
        && name == Some(NameOf(old(counter.next))) == boundName
        && globals.env == old(globals.env)[NameOf(old(counter.next)) := lambda]
    {
      if boundName.Some? { return boundName; }
      var n := counter.next;
      counter.next := n + 1;
      if !ok { return None; }
      globals.env := globals.env[NameOf(n) := lambda];
      boundName := Some(NameOf(n));
      name := boundName;
    }

    /** `Clone`: the same lambda under the same binding, if it has one. */
    method CloneFn() returns (copy: Fn)
      ensures fresh(copy) && copy.lambda == lambda && copy.boundName == boundName
    {
      copy := new Fn(lambda, boundName);
    }
  }
}
