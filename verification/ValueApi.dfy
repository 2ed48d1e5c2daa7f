/**
 The bindings as they are written: methods that call the core one call at a time and swap the
 pointer a handle holds. Each is proved to be one step of module ValueOps, so everything proved
 about runs of steps -- conservation, acyclicity, value semantics -- is about these methods.
 */
module ValueApi {
  import opened Common
  import opened Vectors
  import opened Heap
  import opened ValueOps

  // ---- the builder loop ----

  /** Where the builder's buffer is after `j` appends. */
  function Landing(at: Addr, outs: seq<Outcome>, j: nat): Addr
    requires j <= |outs| && forall i :: 0 <= i < j ==> outs[i].Done?
  {
    if j == 0 then at else outs[j - 1].at
  }

  /** How the whole loop ends: at the first failing append, or after the last one. */
  function LoopEnd(at: Addr, outs: seq<Outcome>, j: nat): Built
    requires j <= |outs| && forall i :: 0 <= i < j ==> outs[i].Done?
    decreases |outs| - j
  {
    if j == |outs| then Whole(Landing(at, outs, j))
    else
      match outs[j]
      case Done(_) => LoopEnd(at, outs, j + 1)
      case Failed(consumed) => Broken(Landing(at, outs, j), j, consumed)
  }

  lemma {:induction false} RetainAllSnoc(s: Store, ps: seq<Addr>, p: Addr)
    ensures RetainAll(s, ps + [p]) == Retain(RetainAll(s, ps), p)
    decreases |ps|
  {
    if ps == [] {
      assert ps + [p] == [p];
      assert [p][1..] == [];
    } else {
      assert (ps + [p])[1..] == ps[1..] + [p];
      RetainAllSnoc(Retain(s, ps[0]), ps[1..], p);
    }
  }

  lemma {:induction false} RetainCommutes(s: Store, p: Addr, ps: seq<Addr>)
    ensures RetainAll(Retain(s, p), ps) == Retain(RetainAll(s, ps), p)
    decreases |ps|
  {
    if ps != [] {
      assert Retain(Retain(s, p), ps[0]) == Retain(Retain(s, ps[0]), p);
      RetainCommutes(Retain(s, ps[0]), p, ps[1..]);
    }
  }

  lemma {:induction false} RetainAllKeeps(s: Store, ps: seq<Addr>)
    ensures RetainAll(s, ps).rc.Keys == s.rc.Keys && RetainAll(s, ps).body == s.body
    ensures forall a :: a in s.rc ==> RetainAll(s, ps).rc[a] >= s.rc[a]
    decreases |ps|
  {
    if ps != [] {
      RetainAllKeeps(Retain(s, ps[0]), ps[1..]);
    }
  }

  /** Releasing what was just retained restores every count and frees nothing. */
  lemma {:induction false} ReleaseUndoesRetain(s: Store, ps: seq<Addr>)
    requires s.rc.Keys == s.body.Keys && forall a :: a in s.rc ==> s.rc[a] >= 1
    ensures RetainAll(s, ps).rc.Keys == RetainAll(s, ps).body.Keys
    ensures ReleaseAll(RetainAll(s, ps), ps) == s
    decreases |ps|
  {
    RetainAllKeeps(s, ps);
    if ps != [] {
      var p, rest := ps[0], ps[1..];
      RetainCommutes(s, p, rest);
      RetainAllKeeps(s, rest);
      var t := RetainAll(s, rest);
      assert RetainAll(s, ps) == Retain(t, p);
      if p in s.rc {
        assert Decrement(Retain(t, p), p) == t by {
          assert Decrement(Retain(t, p), p).rc == t.rc;
        }
      }
      ReleaseUndoesRetain(s, rest);
    }
  }

  /** A builder that fails after some appends, its buffer consumed, leaves the heap as it found it. */
  lemma BuilderUndone(s: Store, ps: seq<Addr>, l: Addr)
    requires s.rc.Keys == s.body.Keys && (forall a :: a in s.rc ==> s.rc[a] >= 1) && l !in s.rc
    ensures var t := Alloc(RetainAll(s, ps), l, List(ps));
      t.rc.Keys == t.body.Keys && Release(t, l) == s
  {
    RetainAllKeeps(s, ps);
    var r := RetainAll(s, ps);
    var t := Alloc(r, l, List(ps));
    assert Dismantle(t, l) == r by {
      assert t.rc - {l} == r.rc && t.body - {l} == r.body;
    }
    assert ps + [l][1..] == ps;
    ReleaseUndoesRetain(s, ps);
  }

  /** One append of the loop: the buffer is the builder's alone, so it grows in place or moves. */
  lemma BuilderGrows(s: Store, ps: seq<Addr>, l: Addr, p: Addr, at: Addr)
    requires s.rc.Keys == s.body.Keys && l !in s.rc && l != p
    ensures var t := Alloc(RetainAll(s, ps), l, List(ps));
      && l in t.rc && l in t.body && t.body[l] == List(ps)
      && ListAppend(t, l, p, at) == Alloc(RetainAll(s, ps + [p]), at, List(ps + [p]))
  {
    RetainAllKeeps(s, ps);
    RetainAllSnoc(s, ps, p);
    var r := RetainAll(s, ps);
    var t := Retain(Alloc(r, l, List(ps)), p);
    assert Dismantle(t, l) == Retain(r, p) by {
      assert t.rc - {l} == Retain(r, p).rc && t.body - {l} == r.body;
    }
  }

  class Bindings {
    var store: Store
    var hs: Handles
    ghost var leaked: multiset<Addr>

    ghost function Now(): State
      reads this
    {
      State(store, hs, leaked)
    }

    ghost predicate Ok()
      reads this
    {
      Valid(Now())
    }

    constructor ()
      ensures Now() == EMPTY && Ok()
    {
      store, hs, leaked := Store(map[], map[]), map[], multiset{};
      new;
      EmptyIsValid();
    }

    // ---- core calls ----

    method RayRetain(a: Addr)
      modifies this`store
      ensures store == Retain(old(store), a)
    {
      if a in store.rc {
        store := store.(rc := store.rc[a := store.rc[a] + 1]);
      }
    }

    /** The cascade, as a loop over the references still to be released. */
    method RayRelease(a: Addr)
      requires store.rc.Keys == store.body.Keys
      modifies this`store
      ensures store.rc.Keys == store.body.Keys
      ensures store == Release(old(store), a)
    {
      var work := [a];
      while work != []
        invariant store.rc.Keys == store.body.Keys
        invariant ReleaseAll(store, work) == Release(old(store), a)
        decreases |store.rc.Keys|, |work|
      {
        var x := work[0];
        work := work[1..];
        if x in store.rc {
          if store.rc[x] > 1 {
            var t := Decrement(store, x);
            assert t.rc.Keys == store.rc.Keys;
            store := t;
          } else {
            work := Kids(store.body[x]) + work;
            assert Dismantle(store, x).rc.Keys == store.rc.Keys - {x};
            store := Dismantle(store, x);
          }
        }
      }
    }

    /** A consuming call on the object at `l`: the new buffer, or None for an error object. */
    method RayMutate(l: Addr, b: Body, out: Outcome) returns (r: Option<Addr>)
      requires l in store.rc && l in store.body && store.rc.Keys == store.body.Keys
      modifies this`store, this`leaked
      ensures out.Done? ==> r == Some(out.at) && store == Cow(old(store), l, b, out.at) && leaked == old(leaked)
      ensures out == Failed(true) ==> r == None && store == Release(old(store), l) && leaked == old(leaked)
      ensures out == Failed(false) ==> r == None && store == old(store) && leaked == old(leaked) + multiset{l}
    {
      match out
      case Done(at) =>
        store := Cow(store, l, b, at);
        return Some(at);
      case Failed(consumed) =>
        if consumed { RayRelease(l); } else { leaked := leaked + multiset{l}; }
        return None;
    }

    // ---- value.rs ----

    method Clone(k: nat, k2: nat)
      requires Ok() && Enabled(Now(), Op.Clone(k, k2))
      modifies this
      ensures Ok() && Now() == Step(old(Now()), Op.Clone(k, k2))
    {
      StepValid(Now(), Op.Clone(k, k2));
      RayRetain(hs[k]);
      hs := hs[k2 := hs[k]];
    }

    method Drop(k: nat)
      requires Ok() && Enabled(Now(), DropValue(k))
      modifies this
      ensures Ok() && Now() == Step(old(Now()), DropValue(k))
    {
      StepValid(Now(), DropValue(k));
      RayRelease(hs[k]);
      hs := hs - {k};
    }

    /** `install_mutation`, and the two arms of `list_push`: the new buffer, or the null singleton. */
    method Install(k: nat, r: Option<Addr>) returns (ok: bool)
      modifies this`hs
      ensures hs == old(hs)[k := if r.Some? then r.value else NULL]
      ensures ok == r.Some?
    {
      match r
      case Some(at) => hs := hs[k := at]; return true;
      case None => hs := hs[k := NULL]; return false;
    }

    // ---- list.rs ----

    /**
     The loop of `Value::list`: each append consumes the buffer and hands back the next one. The
     items are named by address here; `ListOf` reads them out of their handles.
     */
    method BuildLoop(ps: seq<Addr>, at: Addr, outs: seq<Outcome>) returns (r: Option<Addr>)
      requires store.rc.Keys == store.body.Keys && NULL !in store.rc
      requires forall a :: a in store.rc ==> store.rc[a] >= 1
      requires (forall p :: p in ps ==> Live(store, p)) && at != NULL && at !in store.rc
      requires |outs| == |ps|
      requires forall j :: 0 <= j < |outs| && outs[j].Done? ==> outs[j].at != NULL && outs[j].at !in store.rc
      modifies this`store, this`leaked
      ensures var built := LoopEnd(at, outs, 0);
        if built.Whole? then
          && r == Some(built.at) && leaked == old(leaked)
          && store == Alloc(RetainAll(old(store), ps), built.at, List(ps))
        else if built.consumed then r == None && store == old(store) && leaked == old(leaked)
        else
          && r == None && built.upto <= |ps| && leaked == old(leaked) + multiset{built.at}
          && store == Alloc(RetainAll(old(store), ps[..built.upto]), built.at, List(ps[..built.upto]))
    {
      ghost var s0 := store;
      var l := at;
      store := Alloc(store, l, List([]));
      var i := 0;
      while i < |ps|
        invariant 0 <= i <= |ps| && leaked == old(leaked)
        invariant forall j :: 0 <= j < i ==> outs[j].Done?
        invariant l == Landing(at, outs, i) && l !in s0.rc && l != NULL
        invariant LoopEnd(at, outs, i) == LoopEnd(at, outs, 0)
        invariant store == Alloc(RetainAll(s0, ps[..i]), l, List(ps[..i]))
      {
        var p := ps[i];
        assert Live(s0, p);
        assert ps[..i + 1] == ps[..i] + [p];
        BuilderGrows(s0, ps[..i], l, p, l);
        match outs[i] {
          case Done(next) =>
            BuilderGrows(s0, ps[..i], l, p, next);
            store := ListAppend(store, l, p, next);
            l := next;
          case Failed(consumed) =>
            if consumed {
              BuilderUndone(s0, ps[..i], l);
              RayRelease(l);
            } else {
              leaked := leaked + multiset{l};
            }
            return None;
        }
        i := i + 1;
      }
      assert ps[..i] == ps;
      return Some(l);
    }

    /** `Value::list`: false is the panic, after the buffer has been let go of. */
    method ListOf(items: seq<nat>, k: nat, at: Addr, outs: seq<Outcome>) returns (ok: bool)
      requires Ok() && k !in hs && Fresh(Now(), at) && (forall i :: i in items ==> i in hs)
      requires |outs| == |items| && forall o :: o in outs && o.Done? ==> Fresh(Now(), o.at)
      modifies this
      ensures Ok()
      ensures Enabled(old(Now()), MakeList(items, k, LoopEnd(at, outs, 0)))
      ensures Now() == Step(old(Now()), MakeList(items, k, LoopEnd(at, outs, 0)))
      ensures ok == LoopEnd(at, outs, 0).Whole?
    {
      PointersLive(Now(), items);
      LoopEndFresh(Now(), at, outs, 0);
      StepValid(Now(), MakeList(items, k, LoopEnd(at, outs, 0)));
      var r := BuildLoop(Pointers(hs, items), at, outs);
      if r.None? {
        return false;
      }
      hs := hs[k := r.value];
      return true;
    }

    lemma LoopEndFresh(s: State, at: Addr, outs: seq<Outcome>, j: nat)
      requires j <= |outs| && Fresh(s, at)
      requires forall o :: o in outs && o.Done? ==> Fresh(s, o.at)
      requires forall i :: 0 <= i < j ==> outs[i].Done?
      ensures Fresh(s, LoopEnd(at, outs, j).at)
      ensures LoopEnd(at, outs, j).Broken? ==> LoopEnd(at, outs, j).upto < |outs|
      decreases |outs| - j
    {
      if j > 0 { assert outs[j - 1] in outs; }
      if j < |outs| && outs[j].Done? { LoopEndFresh(s, at, outs, j + 1); }
    }

    method ListPush(k: nat, item: nat, out: Outcome) returns (ok: bool)
      requires Ok() && Enabled(Now(), Op.ListPush(k, item, out))
      modifies this
      ensures Ok() && Now() == Step(old(Now()), Op.ListPush(k, item, out))
      ensures ok == Succeeds(old(Now()), Op.ListPush(k, item, out))
    {
      StepValid(Now(), Op.ListPush(k, item, out));
      var l := hs[k];
      if l !in store.body || !store.body[l].List? {
        return false;
      }
      var r: Option<Addr>;
      if out.Done? {
        r := Some(out.at);
        store := ListAppend(store, l, hs[item], out.at);
      } else {
        r := RayMutate(l, store.body[l], out);
      }
      ok := Install(k, r);
    }

    // ---- dict.rs ----

    /** Both arguments by value: `into_raw` twice, then one consuming call. */
    method DictOf(kk: nat, kv: nat, k: nat, out: Outcome) returns (ok: bool)
      requires Ok() && Enabled(Now(), MakeDict(kk, kv, k, out))
      modifies this
      ensures Ok() && Now() == Step(old(Now()), MakeDict(kk, kv, k, out))
      ensures ok == out.Done?
    {
      StepValid(Now(), MakeDict(kk, kv, k, out));
      var a, b := hs[kk], hs[kv];
      hs := hs - {kk, kv};
      match out
      case Done(at) =>
        store := Alloc(store, at, Dict(a, b));
        hs := hs[k := at];
        return true;
      case Failed(consumed) =>
        if consumed {
          store := ReleaseAll(store, [a, b]);
        } else {
          leaked := leaked + (Owned(a) + Owned(b));
        }
        return false;
    }

    // ---- vector.rs ----

    /**
     `set`. The bounds check comes first because the core's own range error returns before it
     consumes the reference, and the null swap would then leak the vector.
     */
    method Set(k: nat, i: nat, ty: Elem, x: Cell, out: Outcome) returns (ok: bool)
      requires Ok() && Enabled(Now(), SetItem(k, i, ty, x, out))
      modifies this
      ensures Ok() && Now() == Step(old(Now()), SetItem(k, i, ty, x, out))
      ensures ok == Succeeds(old(Now()), SetItem(k, i, ty, x, out))
    {
      StepValid(Now(), SetItem(k, i, ty, x, out));
      var l := hs[k];
      if l !in store.body {
        return false;
      }
      match store.body[l]
      case Vector(v) =>
        if v.ty != ty || i >= |v.cells| {
          return false;
        }
        var r := RayMutate(l, Vector(Written(v, i, x)), out);
        ok := Install(k, r);
      case _ => return false;
    }

    /** `push`: an atom shares its vector's type tag, so the call reaches the core, which refuses it. */
    method Push(k: nat, ty: Elem, x: Cell, out: Outcome) returns (ok: bool)
      requires Ok() && Enabled(Now(), PushItem(k, ty, x, out))
      modifies this
      ensures Ok() && Now() == Step(old(Now()), PushItem(k, ty, x, out))
      ensures ok == Succeeds(old(Now()), PushItem(k, ty, x, out))
    {
      StepValid(Now(), PushItem(k, ty, x, out));
      var l := hs[k];
      if l !in store.body {
        return false;
      }
      match store.body[l]
      case Vector(v) =>
        if v.ty != ty {
          return false;
        }
        var r := RayMutate(l, Vector(Appended(v, x)), out);
        ok := Install(k, r);
      case Scalar(t, _) =>
        if t != ty {
          return false;
        }
        var r := RayMutate(l, store.body[l], out);
        ok := Install(k, r);
      case _ => return false;
    }

    /** `get`: borrow a list item, or box a vector element. */
    method Get(k: nat, i: nat, k2: nat, at: Addr) returns (ok: bool)
      requires Ok() && Enabled(Now(), GetItem(k, i, k2, at))
      modifies this
      ensures Ok() && Now() == Step(old(Now()), GetItem(k, i, k2, at))
      ensures ok == Succeeds(old(Now()), GetItem(k, i, k2, at))
    {
      StepValid(Now(), GetItem(k, i, k2, at));
      var l := hs[k];
      if l !in store.body {
        return false;
      }
      match store.body[l]
      case List(items) =>
        if i >= |items| {
          return false;
        }
        RayRetain(items[i]);
        hs := hs[k2 := items[i]];
        return true;
      case Vector(v) =>
        if i >= |v.cells| {
          return false;
        }
        if !v.ty.Sym? && !v.ty.Str? && IsNullAt(v, i) {
          hs := hs[k2 := NULL];
          return true;
        }
        store := Alloc(store, at, Scalar(v.ty, v.cells[i]));
        hs := hs[k2 := at];
        return true;
      case _ => return false;
    }
  }

  /**
   Why `set` checks the index itself. Had an out-of-range call gone to the core, the error would
   have come back with the reference unconsumed and the swap would have left a count with no
   holder behind it.
   */
  lemma UncheckedSetLeaks(s: State, k: nat)
    requires Valid(s) && k in s.hs && s.hs[k] in s.store.body
    ensures var t, a := Swapped(s, k, false), s.hs[k];
      CountOf(t.store, a) == HandleRefs(t.hs)[a] + SlotRefs(t.store.body)[a] + s.leaked[a] + 1
  {
    SwapForgets(s.hs, k);
    assert CountOf(s.store, s.hs[k]) == (HandleRefs(s.hs) + SlotRefs(s.store.body) + s.leaked)[s.hs[k]];
  }

  lemma SwapForgets(hs: Handles, k: nat)
    requires k in hs && hs[k] != NULL
    ensures HandleRefs(hs)[hs[k]] == HandleRefs(hs[k := NULL])[hs[k]] + 1
  {
    HandleRefsRemove(hs, k);
    HandleRefsRemove(hs[k := NULL], k);
    assert hs[k := NULL] - {k} == hs - {k};
  }
}
