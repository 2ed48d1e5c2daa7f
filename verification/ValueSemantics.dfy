/**
 What the sharing heap means: every handle is an immutable value of its own.

 The simple model is a map from handles to trees, with no addresses, no counts and no sharing.
 The theorem is that the heap of module ValueOps refines it step by step: a mutation through one
 handle is one functional update of that handle's tree, and every other handle -- clones of it,
 containers that hold it, handles on its items -- reads what it read before.
 */
module ValueSemantics {
  import opened Vectors
  import opened Heap
  import opened ValueOps

  datatype Tree =
    | TNull
    | TScalar(ty: Elem, c: Cell)
    | TVector(v: Vec)
    | TList(ts: seq<Tree>)
    | TDict(keys: Tree, vals: Tree)

  /** The object at `a`, read all the way down, is `t`. */
  ghost predicate Denotes(body: Bodies, a: Addr, t: Tree)
    decreases t
  {
    match t
    case TNull => a == NULL
    case TScalar(ty, c) => a in body && body[a] == Scalar(ty, c)
    case TVector(v) => a in body && body[a] == Vector(v)
    case TList(ts) =>
      && a in body && body[a].List? && |body[a].items| == |ts|
      && (forall i :: 0 <= i < |ts| ==> Denotes(body, body[a].items[i], ts[i]))
    case TDict(keys, vals) =>
      && a in body && body[a].Dict?
      && Denotes(body, body[a].keys, keys) && Denotes(body, body[a].vals, vals)
  }

  lemma {:induction false} DenotesUnique(body: Bodies, a: Addr, t: Tree, u: Tree)
    requires NULL !in body && Denotes(body, a, t) && Denotes(body, a, u)
    ensures t == u
    decreases t
  {
    match t
    case TNull =>
    case TScalar(_, _) =>
    case TVector(_) =>
    case TList(ts) =>
      forall i | 0 <= i < |ts| ensures ts[i] == u.ts[i] {
        DenotesUnique(body, body[a].items[i], ts[i], u.ts[i]);
      }
    case TDict(keys, vals) =>
      DenotesUnique(body, body[a].keys, keys, u.keys);
      DenotesUnique(body, body[a].vals, vals, u.vals);
  }

  /** Acyclicity is what makes every live object readable. */
  ghost function Reading(s: Store, rank: map<Addr, nat>, top: nat, a: Addr): (t: Tree)
    requires NULL !in s.body && Closed(s) && Ranked(s.body, rank, top) && Live(s, a)
    ensures Denotes(s.body, a, t)
    decreases if a in s.body then rank[a] + 1 else 0
  {
    if a == NULL then TNull
    else
      match s.body[a]
      case Scalar(ty, c) => TScalar(ty, c)
      case Vector(v) => TVector(v)
      case List(items) =>
        assert forall i :: 0 <= i < |items| ==> items[i] in Kids(s.body[a]);
        TList(seq(|items|, i requires 0 <= i < |items| => Reading(s, rank, top, items[i])))
      case Dict(keys, vals) =>
        assert keys in Kids(s.body[a]) && vals in Kids(s.body[a]);
        TDict(Reading(s, rank, top, keys), Reading(s, rank, top, vals))
  }

  /** The two stores agree wherever both have an object. */
  ghost predicate Agree(b: Bodies, c: Bodies)
  {
    forall a :: a in b && a in c ==> b[a] == c[a]
  }

  /** Reading depends only on what is reachable, and a closed store holds all of that. */
  lemma {:induction false} DenotesFrame(body: Bodies, s: Store, a: Addr, t: Tree)
    requires Denotes(body, a, t) && Agree(body, s.body) && Closed(s) && Live(s, a)
    requires NULL !in body && NULL !in s.body
    ensures Denotes(s.body, a, t)
    decreases t
  {
    match t
    case TNull =>
    case TScalar(_, _) =>
    case TVector(_) =>
    case TList(ts) =>
      forall i | 0 <= i < |ts| ensures Denotes(s.body, s.body[a].items[i], ts[i]) {
        assert body[a].items[i] in Kids(s.body[a]);
        DenotesFrame(body, s, body[a].items[i], ts[i]);
      }
    case TDict(keys, vals) =>
      assert body[a].keys in Kids(s.body[a]) && body[a].vals in Kids(s.body[a]);
      DenotesFrame(body, s, body[a].keys, keys);
      DenotesFrame(body, s, body[a].vals, vals);
  }

  // ---- the simple model ----

  type Model = map<nat, Tree>

  ghost predicate Represents(body: Bodies, hs: Handles, m: Model)
  {
    m.Keys == hs.Keys && forall k :: k in m ==> Denotes(body, hs[k], m[k])
  }

  predicate Named(m: Model, op: Op)
  {
    match op
    case Make(k, _, leaf) => leaf.Scalar? || leaf.Vector?
    case MakeNull(_) => true
    case Clone(k, _) => k in m
    case DropValue(k) => k in m
    case MakeList(items, _, _) => forall i :: i in items ==> i in m
    case ListPush(k, item, _) => k in m && item in m
    case MakeDict(kk, kv, _, _) => kk in m && kv in m
    case DictPart(k, _, _) => k in m
    case DictGet(k, answer, _) =>
      && k in m && (answer.Boxed? ==> answer.b.Scalar? || answer.b.Vector?)
      && (answer.Item? && m[k].TDict? ==> m[k].vals.TList? && answer.i < |m[k].vals.ts|)
    case GetItem(k, _, _, _) => k in m
    case SetItem(k, _, _, _, _) => k in m
    case PushItem(k, _, _, _) => k in m
    case SetNull(k, _, _) => k in m
  }

  function Leaf(b: Body): Tree
    requires b.Scalar? || b.Vector?
  {
    if b.Scalar? then TScalar(b.ty, b.c) else TVector(b.v)
  }

  predicate TypeIs(t: Tree, ty: Elem)
  {
    (t.TScalar? && t.ty == ty) || (t.TVector? && t.v.ty == ty)
  }

  function Mutate(m: Model, k: nat, t: Tree, out: Outcome): Model
  {
    if out.Done? then m[k := t] else m[k := TNull]
  }

  /** An element `get` hands back as the null singleton: a sentinel, not of text, in a vector that reports nulls. */
  predicate ReportedNull(v: Vec, i: nat)
    requires i < |v.cells|
  {
    IsSentinel(v.ty, v.cells[i]) && !v.ty.Sym? && !v.ty.Str? && v.hasNulls
  }

  /** `v` with `x` in the place of element `i`, and nothing else different. */
  function With(v: Vec, i: nat, x: Cell): Vec
    requires i < |v.cells|
  {
    Vec(v.ty, v.cells[..i] + [x] + v.cells[i + 1..], v.hasNulls)
  }

  /** The operations on values alone. `set_null` writes in place and is not one of them. */
  function ModelStep(m: Model, op: Op): Model
    requires Named(m, op) && !op.SetNull?
  {
    match op
    case Make(k, _, leaf) => m[k := Leaf(leaf)]
    case MakeNull(k) => m[k := TNull]
    case Clone(k, k2) => m[k2 := m[k]]
    case DropValue(k) => m - {k}
    case MakeList(items, k, built) =>
      if built.Whole? then m[k := TList(seq(|items|, i requires 0 <= i < |items| => m[items[i]]))] else m
    case ListPush(k, item, out) =>
      if m[k].TList? then Mutate(m, k, TList(m[k].ts + [m[item]]), out) else m
    case MakeDict(kk, kv, k, out) =>
      if out.Done? then (m - {kk, kv})[k := TDict(m[kk], m[kv])] else m - {kk, kv}
    case DictPart(k, keys, k2) =>
      if m[k].TDict? then m[k2 := if keys then m[k].keys else m[k].vals] else m
    case DictGet(k, answer, k2) =>
      if !m[k].TDict? then m
      else if answer.Boxed? then m[k2 := Leaf(answer.b)]
      else if answer.Item? then m[k2 := m[k].vals.ts[answer.i]]
      else m
    case GetItem(k, i, k2, _) =>
      if m[k].TList? && i < |m[k].ts| then m[k2 := m[k].ts[i]]
      else if m[k].TVector? && i < |m[k].v.cells| then
        var v := m[k].v;
        m[k2 := if ReportedNull(v, i) then TNull else TScalar(v.ty, v.cells[i])]
      else m
    case SetItem(k, i, ty, x, out) =>
      if m[k].TVector? && m[k].v.ty == ty && i < |m[k].v.cells|
      then Mutate(m, k, TVector(With(m[k].v, i, x)), out) else m
    case PushItem(k, ty, x, out) =>
      if m[k].TVector? && m[k].v.ty == ty then
        Mutate(m, k, TVector(Vec(ty, m[k].v.cells + [x], m[k].v.hasNulls)), out)
      else if TypeIs(m[k], ty) then m[k := TNull]
      else m
  }

  /** `Ok` or `Err`, decided from the values alone. */
  predicate ModelSucceeds(m: Model, op: Op)
    requires Named(m, op)
  {
    match op
    case MakeList(_, _, built) => built.Whole?
    case ListPush(k, _, out) => m[k].TList? && out.Done?
    case MakeDict(_, _, _, out) => out.Done?
    case DictPart(k, _, _) => m[k].TDict?
    case DictGet(k, answer, _) => m[k].TDict? && !answer.Refused?
    case GetItem(k, i, _, _) => (m[k].TList? && i < |m[k].ts|) || (m[k].TVector? && i < |m[k].v.cells|)
    case SetItem(k, i, ty, _, out) => m[k].TVector? && m[k].v.ty == ty && i < |m[k].v.cells| && out.Done?
    case PushItem(k, ty, _, out) => TypeIs(m[k], ty) && out.Done?
    case SetNull(k, i, _) => m[k].TVector? && i < |m[k].v.cells| && SentinelOf(m[k].v.ty).Some?
    case _ => true
  }

  // ---- moving a representation along ----

  lemma RepresentsFrame(body: Bodies, s: Store, hs: Handles, owed: multiset<Addr>, m: Model)
    requires Represents(body, hs, m) && NULL !in body
    requires Counted(s, hs, owed) && Agree(body, s.body)
    ensures Represents(s.body, hs, m)
  {
    GoodIsClosed(s, hs, owed);
    forall k | k in m ensures Denotes(s.body, hs[k], m[k]) {
      HandleIsLive(s, hs, owed, k);
      DenotesFrame(body, s, hs[k], m[k]);
    }
  }

  lemma RepresentsPut(body: Bodies, hs: Handles, m: Model, k: nat, a: Addr, t: Tree)
    requires Represents(body, hs, m) && Denotes(body, a, t)
    ensures Represents(body, hs[k := a], m[k := t])
  {}

  lemma RepresentsLess(body: Bodies, hs: Handles, m: Model, k: nat)
    requires Represents(body, hs, m)
    ensures Represents(body, hs - {k}, m - {k})
  {}

  /**
   A consuming mutation of `hs[k]`. The other handles are framed through the moment in which the
   old shell is gone and the new one not yet there: both moments are closed stores.
   */
  lemma CowRepresents(s: Store, hs: Handles, owed: multiset<Addr>, k: nat, b: Body, extra: seq<Addr>,
                      at: Addr, m: Model, t: Tree)
    requires k in hs && hs[k] in s.body && Kids(b) == Kids(s.body[hs[k]]) + extra
    requires Good(s, hs - {k}, owed + multiset(extra) + multiset{hs[k]}) && CanLand(s, hs[k], at)
    requires Represents(s.body, hs - {k}, m - {k}) && BodyDenotes(s.body, b, t)
    ensures Represents(Cow(s, hs[k], b, at).body, hs[k := at], m[k := t])
  {
    CowDenotes(s, hs - {k}, owed, hs[k], b, extra, at, m - {k}, t);
    Reassembled(Cow(s, hs[k], b, at).body, hs, m, k, at, t);
  }

  /** A handle's reference taken out of it, and its tree out of the model. */
  lemma TakenOut(s: Store, hs: Handles, owed: multiset<Addr>, k: nat, m: Model)
    requires Good(s, hs, owed) && k in hs && Represents(s.body, hs, m)
    ensures Good(s, hs - {k}, owed + multiset{hs[k]}) && Represents(s.body, hs - {k}, m - {k})
  {
    OutOfHandleGood(s, hs, owed, k);
    RepresentsLess(s.body, hs, m, k);
  }

  lemma Reassembled(body: Bodies, hs: Handles, m: Model, k: nat, at: Addr, t: Tree)
    requires k in hs && Represents(body, hs - {k}, m - {k}) && Denotes(body, at, t)
    ensures Represents(body, hs[k := at], m[k := t])
  {
    RepresentsPut(body, hs - {k}, m - {k}, k, at, t);
    SameHandles(hs, k, at);
    assert (m - {k})[k := t] == m[k := t];
  }

  lemma CowDenotes(s: Store, h: Handles, owed: multiset<Addr>, l: Addr, b: Body, extra: seq<Addr>,
                   at: Addr, m: Model, t: Tree)
    requires Good(s, h, owed + multiset(extra) + multiset{l}) && l in s.body && CanLand(s, l, at)
    requires Kids(b) == Kids(s.body[l]) + extra
    requires Represents(s.body, h, m) && BodyDenotes(s.body, b, t)
    ensures Represents(Cow(s, l, b, at).body, h, m)
    ensures Denotes(Cow(s, l, b, at).body, at, t)
  {
    CowGood(s, h, owed, l, b, extra, at);
    var u := Unshared(s, l);
    UnsharedDenotes(s, u, h, owed, b, at, m, t);
    AllocDenotes(u, h, owed, b, at, m, t);
  }

  lemma UnsharedDenotes(s: Store, u: Store, h: Handles, owed: multiset<Addr>, b: Body, at: Addr, m: Model, t: Tree)
    requires Counted(u, h, owed + multiset(Kids(b))) && Remains(s, u) && NULL !in s.body
    requires Represents(s.body, h, m) && BodyDenotes(s.body, b, t)
    ensures Represents(u.body, h, m) && BodyDenotes(u.body, b, t)
  {
    RepresentsFrame(s.body, u, h, owed + multiset(Kids(b)), m);
    BodyDenotesFrame(s.body, u, h, owed, b, t);
  }

  lemma AllocDenotes(u: Store, h: Handles, owed: multiset<Addr>, b: Body, at: Addr, m: Model, t: Tree)
    requires Counted(Alloc(u, at, b), h, owed + multiset{at}) && at !in u.body && NULL !in u.body
    requires Represents(u.body, h, m) && BodyDenotes(u.body, b, t)
    ensures Represents(Alloc(u, at, b).body, h, m) && Denotes(Alloc(u, at, b).body, at, t)
  {
    var r := Alloc(u, at, b);
    RepresentsFrame(u.body, r, h, owed + multiset{at}, m);
    BodyDenotesAlloc(u, r, h, owed, at, b, t);
  }

  /** An object with content `b`, wherever it is put, would read `t`. */
  ghost predicate BodyDenotes(body: Bodies, b: Body, t: Tree)
  {
    match t
    case TNull => false
    case TScalar(ty, c) => b == Scalar(ty, c)
    case TVector(v) => b == Vector(v)
    case TList(ts) => b.List? && |b.items| == |ts| && forall i :: 0 <= i < |ts| ==> Denotes(body, b.items[i], ts[i])
    case TDict(keys, vals) => b.Dict? && Denotes(body, b.keys, keys) && Denotes(body, b.vals, vals)
  }

  lemma KidsDenote(body: Bodies, s: Store, b: Body, t: Tree)
    requires BodyDenotes(body, b, t) && NULL !in body && NULL !in s.body && Agree(body, s.body)
    requires Closed(s) && forall x :: x in Kids(b) ==> Live(s, x)
    ensures BodyDenotes(s.body, b, t)
  {
    match t
    case TList(ts) =>
      forall i | 0 <= i < |ts| ensures Denotes(s.body, b.items[i], ts[i]) {
        assert b.items[i] in Kids(b);
        DenotesFrame(body, s, b.items[i], ts[i]);
      }
    case TDict(keys, vals) =>
      assert b.keys in Kids(b) && b.vals in Kids(b);
      DenotesFrame(body, s, b.keys, keys);
      DenotesFrame(body, s, b.vals, vals);
    case _ =>
  }

  lemma BodyDenotesFrame(body: Bodies, s: Store, hs: Handles, owed: multiset<Addr>, b: Body, t: Tree)
    requires BodyDenotes(body, b, t) && NULL !in body && Agree(body, s.body)
    requires Counted(s, hs, owed + multiset(Kids(b)))
    ensures BodyDenotes(s.body, b, t)
  {
    GoodIsClosed(s, hs, owed + multiset(Kids(b)));
    forall x | x in Kids(b) ensures Live(s, x) {
      assert x in multiset(Kids(b));
      OwedIsLive(s, hs, owed + multiset(Kids(b)), x);
    }
    KidsDenote(body, s, b, t);
  }

  lemma BodyDenotesAlloc(u: Store, r: Store, hs: Handles, owed: multiset<Addr>, at: Addr, b: Body, t: Tree)
    requires BodyDenotes(u.body, b, t) && NULL !in u.body && at !in u.body
    requires r == Alloc(u, at, b) && Counted(r, hs, owed + multiset{at})
    ensures Denotes(r.body, at, t)
  {
    GoodIsClosed(r, hs, owed + multiset{at});
    PlacedDenotes(u, r, at, b, t);
  }

  lemma PlacedDenotes(u: Store, r: Store, at: Addr, b: Body, t: Tree)
    requires BodyDenotes(u.body, b, t) && NULL !in u.body && at !in u.body && at != NULL
    requires r.body == u.body[at := b] && Closed(r)
    ensures Denotes(r.body, at, t)
  {
    forall x | x in Kids(b) ensures Live(r, x) { assert x in Kids(r.body[at]); }
    KidsDenote(u.body, r, b, t);
  }

  lemma CreatedRepresents(s: State, at: Addr, b: Body, k: nat, m: Model, t: Tree)
    requires Good(s.store, s.hs, s.leaked + multiset(Kids(b))) && Fresh(s, at) && k !in s.hs
    requires Represents(s.store.body, s.hs, m) && BodyDenotes(s.store.body, b, t)
    ensures Represents(Created(s, at, b, k).store.body, s.hs[k := at], m[k := t])
  {
    AllocGood(s.store, s.hs, s.leaked, at, b);
    var r := Alloc(s.store, at, b);
    RepresentsFrame(s.store.body, r, s.hs, s.leaked + multiset{at}, m);
    BodyDenotesAlloc(s.store, r, s.hs, s.leaked, at, b, t);
    RepresentsPut(r.body, s.hs, m, k, at, t);
  }

  lemma LeafRepresents(s: State, at: Addr, b: Body, k: nat, m: Model)
    requires Valid(s) && Fresh(s, at) && k !in s.hs && (b.Scalar? || b.Vector?)
    requires Represents(s.store.body, s.hs, m)
    ensures Represents(Created(s, at, b, k).store.body, s.hs[k := at], m[k := Leaf(b)])
  {
    assert s.leaked + multiset(Kids(b)) == s.leaked;
    CreatedRepresents(s, at, b, k, m, Leaf(b));
  }

  lemma ReleasedRepresents(s: Store, hs: Handles, owed: multiset<Addr>, work: seq<Addr>, m: Model)
    requires Good(s, hs, owed + multiset(work)) && Represents(s.body, hs, m)
    ensures Represents(ReleaseAll(s, work).body, hs, m)
  {
    ReleaseAllGood(s, hs, owed, work);
    RepresentsFrame(s.body, ReleaseAll(s, work), hs, owed, m);
  }

  lemma SwappedRepresents(s: State, k: nat, consumed: bool, m: Model)
    requires Valid(s) && k in s.hs && Represents(s.store.body, s.hs, m)
    ensures Represents(Swapped(s, k, consumed).store.body, Swapped(s, k, consumed).hs, m[k := TNull])
  {
    if consumed {
      DropRepresents(s, k, m);
      NullPutRepresents(Release(s.store, s.hs[k]).body, s.hs, m, k);
    } else {
      NullPutRepresents(s.store.body, s.hs, m, k);
    }
  }

  lemma NullPutRepresents(body: Bodies, hs: Handles, m: Model, k: nat)
    requires k in hs && k in m && Represents(body, hs - {k}, m - {k})
    ensures Represents(body, hs[k := NULL], m[k := TNull])
  {
    RepresentsPut(body, hs - {k}, m - {k}, k, NULL, TNull);
    SameHandles(hs, k, NULL);
    assert (m - {k})[k := TNull] == m[k := TNull];
  }

  lemma DropRepresents(s: State, k: nat, m: Model)
    requires Valid(s) && k in s.hs && Represents(s.store.body, s.hs, m)
    ensures Represents(Release(s.store, s.hs[k]).body, s.hs - {k}, m - {k})
  {
    OutOfHandleGood(s.store, s.hs, s.leaked, k);
    Singleton(s.hs[k]);
    assert Represents(s.store.body, s.hs - {k}, m - {k});
    ReleasedRepresents(s.store, s.hs - {k}, s.leaked, [s.hs[k]], m - {k});
  }

  lemma MutatedRepresents(s: State, k: nat, b: Body, out: Outcome, m: Model, t: Tree)
    requires Valid(s) && k in s.hs && s.hs[k] in s.store.body && Kids(b) == Kids(s.store.body[s.hs[k]])
    requires out.Done? ==> CanLand(s.store, s.hs[k], out.at)
    requires Represents(s.store.body, s.hs, m) && BodyDenotes(s.store.body, b, t)
    ensures Represents(Mutated(s, k, b, out).store.body, Mutated(s, k, b, out).hs, Mutate(m, k, t, out))
  {
    match out
    case Done(at) =>
      NoExtra(s.leaked, Kids(b));
      TakenOut(s.store, s.hs, s.leaked + multiset([]), k, m);
      CowRepresents(s.store, s.hs, s.leaked, k, b, [], at, m, t);
    case Failed(consumed) =>
      SwappedRepresents(s, k, consumed, m);
  }

  lemma ListPushRepresents(s: State, k: nat, item: nat, at: Addr, m: Model)
    requires Valid(s) && k in s.hs && item in s.hs && k != item && IsList(s, k) && CanLand(s.store, s.hs[k], at)
    requires Represents(s.store.body, s.hs, m) && m[k].TList?
    ensures Represents(ListAppend(s.store, s.hs[k], s.hs[item], at).body, s.hs[k := at],
                       m[k := TList(m[k].ts + [m[item]])])
  {
    var l, p := s.hs[k], s.hs[item];
    PushCanLand(s, k, item, at);
    HandleIsLive(s.store, s.hs, s.leaked, item);
    RetainGood(s.store, s.hs, s.leaked, p);
    Singleton(p);
    var b, t := List(s.store.body[l].items + [p]), TList(m[k].ts + [m[item]]);
    assert Denotes(s.store.body, l, m[k]) && Denotes(s.store.body, p, m[item]);
    assert BodyDenotes(s.store.body, b, t);
    TakenOut(Retain(s.store, p), s.hs, s.leaked + multiset([p]), k, m);
    CowRepresents(Retain(s.store, p), s.hs, s.leaked, k, b, [p], at, m, t);
  }

  lemma MakeListRepresents(s: State, items: seq<nat>, k: nat, built: Built, m: Model)
    requires Valid(s) && Enabled(s, MakeList(items, k, built))
    requires Represents(s.store.body, s.hs, m) && Named(m, MakeList(items, k, built))
    ensures var t := Step(s, MakeList(items, k, built));
      Represents(t.store.body, t.hs, ModelStep(m, MakeList(items, k, built)))
  {
    var ps := Pointers(s.hs, items);
    PointersLive(s, items);
    match built
    case Whole(at) =>
      ListCreatedRepresents(s, ps, at, k, m, seq(|items|, i requires 0 <= i < |items| => m[items[i]]));
    case Broken(at, upto, consumed) =>
      if !consumed { PartialListRepresents(s, ps[..upto], at, m); }
  }

  lemma ListCreatedRepresents(s: State, ps: seq<Addr>, at: Addr, k: nat, m: Model, ts: seq<Tree>)
    requires Valid(s) && Fresh(s, at) && k !in s.hs && (forall p :: p in ps ==> Live(s.store, p))
    requires Represents(s.store.body, s.hs, m) && BodyDenotes(s.store.body, List(ps), TList(ts))
    ensures Represents(Created(s.(store := RetainAll(s.store, ps)), at, List(ps), k).store.body,
                       s.hs[k := at], m[k := TList(ts)])
  {
    RetainAllGood(s.store, s.hs, s.leaked, ps);
    var r := RetainAll(s.store, ps);
    assert r.rc.Keys == r.body.Keys == s.store.body.Keys;
    CreatedRepresents(s.(store := r), at, List(ps), k, m, TList(ts));
  }

  lemma PartialListRepresents(s: State, ps: seq<Addr>, at: Addr, m: Model)
    requires Valid(s) && Fresh(s, at) && (forall p :: p in ps ==> Live(s.store, p))
    requires Represents(s.store.body, s.hs, m)
    ensures Represents(Alloc(RetainAll(s.store, ps), at, List(ps)).body, s.hs, m)
  {
    RetainAllGood(s.store, s.hs, s.leaked, ps);
    var r := RetainAll(s.store, ps);
    assert r.rc.Keys == r.body.Keys == s.store.body.Keys;
    AllocGood(r, s.hs, s.leaked, at, List(ps));
    RepresentsFrame(s.store.body, Alloc(r, at, List(ps)), s.hs, s.leaked + multiset{at}, m);
  }

  lemma MakeDictRepresents(s: State, op: Op, m: Model)
    requires Valid(s) && op.MakeDict? && Enabled(s, op) && Represents(s.store.body, s.hs, m) && Named(m, op)
    ensures Represents(Step(s, op).store.body, Step(s, op).hs, ModelStep(m, op))
  {
    var a, b, hs, rest := s.hs[op.kk], s.hs[op.kv], s.hs - {op.kk, op.kv}, m - {op.kk, op.kv};
    TwoOutGood(s.store, s.hs, s.leaked, op.kk, op.kv);
    assert Represents(s.store.body, hs, rest);
    match op.out
    case Done(at) =>
      CreatedRepresents(s.(hs := hs), at, Dict(a, b), op.k, rest, TDict(m[op.kk], m[op.kv]));
    case Failed(consumed) =>
      if consumed { ReleasedRepresents(s.store, hs, s.leaked, [a, b], rest); }
  }

  /** The guards that look at a type tag or a length see the same thing on both sides. */
  lemma SameKind(s: State, k: nat, m: Model)
    requires NULL !in s.store.body && Represents(s.store.body, s.hs, m) && k in s.hs
    ensures IsList(s, k) == m[k].TList? && IsDict(s, k) == m[k].TDict? && IsVec(s, k) == m[k].TVector?
    ensures IsVec(s, k) ==> m[k].v == VecOf(s, k)
    ensures forall ty :: HasType(s, k, ty) == TypeIs(m[k], ty)
  {
    assert Denotes(s.store.body, s.hs[k], m[k]);
  }

  lemma IsNamed(s: State, op: Op, m: Model)
    requires NULL !in s.store.body && Enabled(s, op) && Represents(s.store.body, s.hs, m)
    ensures Named(m, op)
  {
    if op.DictGet? {
      SameKind(s, op.k, m);
      if op.answer.Item? && m[op.k].TDict? {
        var d := s.store.body[s.hs[op.k]];
        assert Denotes(s.store.body, s.hs[op.k], m[op.k]);
        assert Denotes(s.store.body, d.vals, m[op.k].vals);
      }
    }
  }

  lemma DictPartRepresents(s: State, op: Op, m: Model)
    requires Valid(s) && op.DictPart? && Enabled(s, op) && !Rejected(s, op)
    requires Represents(s.store.body, s.hs, m) && Named(m, op)
    ensures Represents(Step(s, op).store.body, Step(s, op).hs, ModelStep(m, op))
  {
    SameKind(s, op.k, m);
    assert Denotes(s.store.body, s.hs[op.k], m[op.k]);
    RepresentsPut(s.store.body, s.hs, m, op.k2, Step(s, op).hs[op.k2], ModelStep(m, op)[op.k2]);
  }

  lemma DictGetRepresents(s: State, op: Op, m: Model)
    requires Valid(s) && op.DictGet? && Enabled(s, op) && !Rejected(s, op)
    requires Represents(s.store.body, s.hs, m) && Named(m, op)
    ensures Represents(Step(s, op).store.body, Step(s, op).hs, ModelStep(m, op))
  {
    SameKind(s, op.k, m);
    if op.answer.Boxed? {
      LeafRepresents(s, op.answer.at, op.answer.b, op.k2, m);
    } else {
      var d := s.store.body[s.hs[op.k]];
      assert Denotes(s.store.body, s.hs[op.k], m[op.k]);
      assert Denotes(s.store.body, d.vals, m[op.k].vals);
      var a, t := s.store.body[d.vals].items[op.answer.i], m[op.k].vals.ts[op.answer.i];
      RepresentsPut(s.store.body, s.hs, m, op.k2, a, t);
    }
  }

  lemma GetItemRepresents(s: State, op: Op, m: Model)
    requires Valid(s) && op.GetItem? && Enabled(s, op) && !Rejected(s, op)
    requires Represents(s.store.body, s.hs, m) && Named(m, op)
    ensures Represents(Step(s, op).store.body, Step(s, op).hs, ModelStep(m, op))
  {
    SameKind(s, op.k, m);
    if IsVec(s, op.k) && Get(VecOf(s, op.k), op.i).value.Atom? {
      var g := Get(VecOf(s, op.k), op.i).value;
      LeafRepresents(s, op.at, Scalar(g.ty, g.c), op.k2, m);
    } else {
      assert Denotes(s.store.body, s.hs[op.k], m[op.k]);
      RepresentsPut(s.store.body, s.hs, m, op.k2, Step(s, op).hs[op.k2], ModelStep(m, op)[op.k2]);
    }
  }

  /**
   One step of the heap is one step of the model. With `op` a mutation this says both halves of
   isolation at once: `ModelStep` changes the tree of the mutated handle by exactly one update or
   append (or to null on failure) and no other.
   */
  lemma StepRefines(s: State, op: Op, m: Model)
    requires Valid(s) && Enabled(s, op) && !op.SetNull? && Represents(s.store.body, s.hs, m)
    ensures Named(m, op)
    ensures Represents(Step(s, op).store.body, Step(s, op).hs, ModelStep(m, op))
    ensures Succeeds(s, op) == ModelSucceeds(m, op)
  {
    IsNamed(s, op, m);
    SucceedsAgrees(s, op, m);
    match op
    case Make(k, at, leaf) => LeafRepresents(s, at, leaf, k, m);
    case MakeNull(k) => RepresentsPut(s.store.body, s.hs, m, k, NULL, TNull);
    case Clone(k, k2) => RepresentsPut(s.store.body, s.hs, m, k2, s.hs[k], m[k]);
    case DropValue(k) => DropRepresents(s, k, m);
    case MakeList(items, k, built) => MakeListRepresents(s, items, k, built, m);
    case ListPush(k, item, out) =>
      SameKind(s, k, m);
      if IsList(s, k) {
        if out.Done? { ListPushRepresents(s, k, item, out.at, m); } else { SwappedRepresents(s, k, out.consumed, m); }
      }
    case MakeDict(_, _, _, _) => MakeDictRepresents(s, op, m);
    case DictPart(k, _, _) => GetterRefines(s, op, m);
    case DictGet(k, _, _) => GetterRefines(s, op, m);
    case GetItem(k, _, _, _) => GetterRefines(s, op, m);
    case SetItem(_, _, _, _, _) => SetRefines(s, op, m);
    case PushItem(_, _, _, _) => PushRefines(s, op, m);
  }

  lemma WrittenIsWith(v: Vec, i: nat, x: Cell)
    requires i < |v.cells|
    ensures Written(v, i, x) == With(v, i, x)
  {}

  lemma SetRefines(s: State, op: Op, m: Model)
    requires Valid(s) && op.SetItem? && Enabled(s, op) && Represents(s.store.body, s.hs, m) && Named(m, op)
    ensures Represents(Step(s, op).store.body, Step(s, op).hs, ModelStep(m, op))
  {
    SameKind(s, op.k, m);
    if !Rejected(s, op) {
      var w := With(m[op.k].v, op.i, op.x);
      WrittenIsWith(m[op.k].v, op.i, op.x);
      assert Step(s, op) == Mutated(s, op.k, Vector(w), op.out);
      MutatedRepresents(s, op.k, Vector(w), op.out, m, TVector(w));
    }
  }

  lemma PushRefines(s: State, op: Op, m: Model)
    requires Valid(s) && op.PushItem? && Enabled(s, op) && Represents(s.store.body, s.hs, m) && Named(m, op)
    ensures Represents(Step(s, op).store.body, Step(s, op).hs, ModelStep(m, op))
  {
    SameKind(s, op.k, m);
    if IsVec(s, op.k) && !Rejected(s, op) {
      var w := Vec(op.ty, m[op.k].v.cells + [op.x], m[op.k].v.hasNulls);
      assert Appended(VecOf(s, op.k), op.x) == w;
      MutatedRepresents(s, op.k, Vector(w), op.out, m, TVector(w));
    } else if !Rejected(s, op) {
      SwappedRepresents(s, op.k, op.out.consumed, m);
    }
  }

  lemma GetterRefines(s: State, op: Op, m: Model)
    requires Valid(s) && (op.DictPart? || op.DictGet? || op.GetItem?) && Enabled(s, op)
    requires Represents(s.store.body, s.hs, m) && Named(m, op)
    ensures Represents(Step(s, op).store.body, Step(s, op).hs, ModelStep(m, op))
  {
    if Rejected(s, op) {
      SameKind(s, op.k, m);
      assert Denotes(s.store.body, s.hs[op.k], m[op.k]);
    } else {
      match op
      case DictPart(_, _, _) => DictPartRepresents(s, op, m);
      case DictGet(_, _, _) => DictGetRepresents(s, op, m);
      case GetItem(_, _, _, _) => GetItemRepresents(s, op, m);
    }
  }

  lemma SucceedsAgrees(s: State, op: Op, m: Model)
    requires NULL !in s.store.body && Enabled(s, op) && Represents(s.store.body, s.hs, m) && Named(m, op)
    ensures Succeeds(s, op) == ModelSucceeds(m, op)
  {
    match op
    case ListPush(k, _, _) => SameKind(s, k, m);
    case DictPart(k, _, _) => SameKind(s, k, m);
    case DictGet(k, _, _) => SameKind(s, k, m);
    case GetItem(k, _, _, _) => SameKind(s, k, m); assert Denotes(s.store.body, s.hs[k], m[k]);
    case SetItem(k, _, _, _, _) => SameKind(s, k, m);
    case PushItem(k, _, _, _) => SameKind(s, k, m);
    case SetNull(k, _, _) => SameKind(s, k, m);
    case _ =>
  }

  // ---- whole runs ----

  predicate Pure(ops: seq<Op>)
  {
    forall op :: op in ops ==> !op.SetNull?
  }

  /** The model's run; a missing handle stops it, which the theorem below excludes. */
  function ModelAfter(m: Model, ops: seq<Op>): Model
    decreases |ops|
  {
    if ops == [] then m
    else if !Named(m, ops[0]) || ops[0].SetNull? then m
    else ModelAfter(ModelStep(m, ops[0]), ops[1..])
  }

  lemma {:induction false} RunRefines(s: State, ops: seq<Op>, m: Model)
    requires Valid(s) && IsRun(s, ops) && Pure(ops) && Represents(s.store.body, s.hs, m)
    ensures Represents(After(s, ops).store.body, After(s, ops).hs, ModelAfter(m, ops))
    decreases |ops|
  {
    if ops != [] {
      StepRefines(s, ops[0], m);
      StepValid(s, ops[0]);
      assert Pure(ops[1..]);
      RunRefines(Step(s, ops[0]), ops[1..], ModelStep(m, ops[0]));
    }
  }

  /**
   After any run, what each handle reads -- all the way down -- is what the model of separate
   immutable values says, and nothing else.
   */
  lemma HandlesAreValues(ops: seq<Op>, k: nat, t: Tree)
    requires IsRun(EMPTY, ops) && Pure(ops)
    ensures var s, m := After(EMPTY, ops), ModelAfter(map[], ops);
      && s.hs.Keys == m.Keys
      && (k in s.hs ==> (Denotes(s.store.body, s.hs[k], t) <==> t == m[k]))
  {
    EmptyIsValid();
    RunValid(EMPTY, ops);
    RunRefines(EMPTY, ops, map[]);
    var s, m := After(EMPTY, ops), ModelAfter(map[], ops);
    if k in s.hs && Denotes(s.store.body, s.hs[k], t) {
      DenotesUnique(s.store.body, s.hs[k], t, m[k]);
    }
  }

  // ---- what each operation does to readings ----

  /** `w` is `v` but for element `i`, which is `x`; of the attribute nothing is said. */
  predicate OneOverwritten(v: Vec, w: Vec, i: nat, x: Cell)
  {
    && w.ty == v.ty && |w.cells| == |v.cells| && i < |w.cells| && w.cells[i] == x
    && forall j :: 0 <= j < |w.cells| && j != i ==> w.cells[j] == v.cells[j]
  }

  /** Every handle but `k` is there as before and reads what it read. */
  ghost predicate OthersRead(s: State, t: State, m: Model, k: nat)
    requires s.hs.Keys == m.Keys
  {
    forall j :: j in s.hs && j != k ==> j in t.hs && Denotes(t.store.body, t.hs[j], m[j])
  }

  /** `set` is refused on a wrong type, a bad index or what is no vector, and then nothing changes. */
  lemma SetRefused(s: State, k: nat, i: nat, ty: Elem, x: Cell, out: Outcome, m: Model)
    requires Valid(s) && Enabled(s, SetItem(k, i, ty, x, out)) && Represents(s.store.body, s.hs, m)
    requires !m[k].TVector? || m[k].v.ty != ty || i >= |m[k].v.cells|
    ensures Step(s, SetItem(k, i, ty, x, out)) == s && !Succeeds(s, SetItem(k, i, ty, x, out))
  {
    SameKind(s, k, m);
  }

  /**
   Otherwise element `i` and only it is overwritten, or on the core's failure the handle reads null; and
   no other handle reads anything else.
   */
  lemma SetReads(s: State, k: nat, i: nat, ty: Elem, x: Cell, out: Outcome, m: Model)
    requires Valid(s) && Enabled(s, SetItem(k, i, ty, x, out)) && Represents(s.store.body, s.hs, m)
    requires m[k].TVector? && m[k].v.ty == ty && i < |m[k].v.cells|
    ensures var t := Step(s, SetItem(k, i, ty, x, out));
      && t.hs.Keys == s.hs.Keys && OthersRead(s, t, m, k)
      && (out.Failed? ==> t.hs[k] == NULL)
      && (out.Done? ==> ReadsWith(t.store.body, t.hs[k], m[k].v, i, x))
  {
    var t, w := Step(s, SetItem(k, i, ty, x, out)), With(m[k].v, i, x);
    SetApplied(s, k, i, ty, x, out, m);
    ReadsAfter(s, t, m, k, if out.Done? then TVector(w) else TNull);
    if out.Done? { WithReads(t.store.body, t.hs[k], m[k].v, i, x); }
  }

  /** The object at `a` reads `v` with `x` for element `i`, all else the same. */
  ghost predicate ReadsWith(body: Bodies, a: Addr, v: Vec, i: nat, x: Cell)
  {
    exists w: Vec :: Denotes(body, a, TVector(w)) && OneOverwritten(v, w, i, x) && w.hasNulls == v.hasNulls
  }

  lemma WithReads(body: Bodies, a: Addr, v: Vec, i: nat, x: Cell)
    requires i < |v.cells| && Denotes(body, a, TVector(With(v, i, x)))
    ensures ReadsWith(body, a, v, i, x)
  {
    assert OneOverwritten(v, With(v, i, x), i, x);
  }

  lemma SetApplied(s: State, k: nat, i: nat, ty: Elem, x: Cell, out: Outcome, m: Model)
    requires Valid(s) && Enabled(s, SetItem(k, i, ty, x, out)) && Represents(s.store.body, s.hs, m)
    requires m[k].TVector? && m[k].v.ty == ty && i < |m[k].v.cells|
    ensures var t := Step(s, SetItem(k, i, ty, x, out));
      Represents(t.store.body, t.hs, m[k := if out.Done? then TVector(With(m[k].v, i, x)) else TNull])
  {
    StepRefines(s, SetItem(k, i, ty, x, out), m);
  }

  lemma ReadsAfter(s: State, t: State, m: Model, k: nat, tree: Tree)
    requires k in s.hs && Represents(s.store.body, s.hs, m) && Represents(t.store.body, t.hs, m[k := tree])
    ensures t.hs.Keys == s.hs.Keys && OthersRead(s, t, m, k) && Denotes(t.store.body, t.hs[k], tree)
    ensures tree == TNull ==> t.hs[k] == NULL
  {}

  /** `push` through handle `k`: one element more, at the end. */
  lemma PushReads(s: State, k: nat, ty: Elem, x: Cell, out: Outcome, m: Model)
    requires Valid(s) && Enabled(s, PushItem(k, ty, x, out)) && Represents(s.store.body, s.hs, m)
    ensures var t, v := Step(s, PushItem(k, ty, x, out)), m[k];
      if !(v.TVector? && v.v.ty == ty) && !(v.TScalar? && v.ty == ty) then t == s
      else
        && t.hs.Keys == s.hs.Keys && OthersRead(s, t, m, k)
        && (out.Failed? ==> t.hs[k] == NULL)
        && (out.Done? ==>
              v.TVector? && Denotes(t.store.body, t.hs[k], TVector(Vec(ty, v.v.cells + [x], v.v.hasNulls))))
  {
    SameKind(s, k, m);
    StepRefines(s, PushItem(k, ty, x, out), m);
  }

  /** `list_push` through handle `k`: what the other handle reads, one more time, at the end. */
  lemma ListPushReads(s: State, k: nat, item: nat, out: Outcome, m: Model)
    requires Valid(s) && Enabled(s, Op.ListPush(k, item, out)) && Represents(s.store.body, s.hs, m)
    ensures var t, v := Step(s, Op.ListPush(k, item, out)), m[k];
      if !v.TList? then t == s
      else
        && t.hs.Keys == s.hs.Keys && OthersRead(s, t, m, k)
        && (out.Failed? ==> t.hs[k] == NULL)
        && (out.Done? ==> Denotes(t.store.body, t.hs[k], TList(v.ts + [m[item]])))
  {
    SameKind(s, k, m);
    StepRefines(s, Op.ListPush(k, item, out), m);
  }

  /** A finished list reads its items, in order. */
  lemma ListReads(s: State, items: seq<nat>, k: nat, at: Addr, m: Model)
    requires Valid(s) && Enabled(s, MakeList(items, k, Whole(at))) && Represents(s.store.body, s.hs, m)
    ensures var t := Step(s, MakeList(items, k, Whole(at)));
      && t.hs.Keys == s.hs.Keys + {k} && OthersRead(s, t, m, k)
      && exists ts: seq<Tree> :: Denotes(t.store.body, t.hs[k], TList(ts)) && ReadInOrder(m, items, ts)
  {
    var op := MakeList(items, k, Whole(at));
    StepRefines(s, op, m);
    var ts := seq(|items|, i requires 0 <= i < |items| => m[items[i]]);
    AddedReads(s, Step(s, op), m, k, TList(ts));
    assert ReadInOrder(m, items, ts);
  }

  lemma AddedReads(s: State, t: State, m: Model, k: nat, tree: Tree)
    requires k !in s.hs && Represents(s.store.body, s.hs, m) && Represents(t.store.body, t.hs, m[k := tree])
    ensures t.hs.Keys == s.hs.Keys + {k} && OthersRead(s, t, m, k) && Denotes(t.store.body, t.hs[k], tree)
  {}

  predicate ReadInOrder(m: Model, items: seq<nat>, ts: seq<Tree>)
  {
    |ts| == |items| && forall i :: 0 <= i < |items| ==> items[i] in m && ts[i] == m[items[i]]
  }

  lemma DictHandles(s: State, a: nat, b: nat, k: nat, out: Outcome)
    requires Enabled(s, MakeDict(a, b, k, out)) && s.store.rc.Keys == s.store.body.Keys
    ensures Step(s, MakeDict(a, b, k, out)).hs.Keys == s.hs.Keys - {a, b} + (if out.Done? then {k} else {})
  {}

  /** A dict reads its two arguments, whose handles are gone. */
  lemma DictReads(s: State, a: nat, b: nat, k: nat, out: Outcome, m: Model)
    requires Valid(s) && Enabled(s, MakeDict(a, b, k, out)) && Represents(s.store.body, s.hs, m)
    ensures var t := Step(s, MakeDict(a, b, k, out));
      && t.hs.Keys == s.hs.Keys - {a, b} + (if out.Done? then {k} else {})
      && (out.Done? ==> Denotes(t.store.body, t.hs[k], TDict(m[a], m[b])))
      && forall j :: j in s.hs && j != a && j != b ==> Denotes(t.store.body, t.hs[j], m[j])
  {
    DictHandles(s, a, b, k, out);
    StepRefines(s, MakeDict(a, b, k, out), m);
  }

  /** The parts of a dict read back as what it was made of, and a clone as what it is a clone of. */
  lemma PartsRead(s: State, k: nat, k2: nat, m: Model)
    requires Valid(s) && Enabled(s, Op.Clone(k, k2)) && Represents(s.store.body, s.hs, m)
    ensures Denotes(Step(s, Op.Clone(k, k2)).store.body, Step(s, Op.Clone(k, k2)).hs[k2], m[k])
    ensures forall keys: bool :: m[k].TDict? ==>
      var t := Step(s, DictPart(k, keys, k2));
      k2 in t.hs && Denotes(t.store.body, t.hs[k2], if keys then m[k].keys else m[k].vals)
  {
    StepRefines(s, Op.Clone(k, k2), m);
    StepRefines(s, DictPart(k, true, k2), m);
    StepRefines(s, DictPart(k, false, k2), m);
  }

  /** `get`: a list's item as it is; a vector's element boxed, or null where the vector reports one. */
  lemma GetReads(s: State, k: nat, i: nat, k2: nat, at: Addr, m: Model)
    requires Valid(s) && Enabled(s, GetItem(k, i, k2, at)) && Represents(s.store.body, s.hs, m)
    ensures var t, v := Step(s, GetItem(k, i, k2, at)), m[k];
      if v.TList? && i < |v.ts| then k2 in t.hs && Denotes(t.store.body, t.hs[k2], v.ts[i])
      else if v.TVector? && i < |v.v.cells| then
        k2 in t.hs &&
        if IsSentinel(v.v.ty, v.v.cells[i]) && v.v.hasNulls && v.v.ty != Sym && v.v.ty != Str
        then t.hs[k2] == NULL
        else Denotes(t.store.body, t.hs[k2], TScalar(v.v.ty, v.v.cells[i]))
      else t == s
  {
    SameKind(s, k, m);
    StepRefines(s, GetItem(k, i, k2, at), m);
  }

  /** Every valid heap has a reading, so the refinement is never vacuous. */
  lemma EveryHeapReads(s: State)
    requires Valid(s)
    ensures exists m: Model :: Represents(s.store.body, s.hs, m)
  {
    var rank: map<Addr, nat>, top: nat :| Ranked(s.store.body, rank, top);
    GoodIsClosed(s.store, s.hs, s.leaked);
    forall k | k in s.hs ensures Live(s.store, s.hs[k]) { HandleIsLive(s.store, s.hs, s.leaked, k); }
    var m := map k | k in s.hs :: Reading(s.store, rank, top, s.hs[k]);
    assert Represents(s.store.body, s.hs, m);
  }

  /**
   `set_null` is the one mutation with no copy. Through a sole reference it is one more functional
   update of one value ...
   */
  lemma SoleSetNull(s: State, k: nat, v: Vec, m: Model)
    requires Valid(s) && k in s.hs && IsVec(s, k) && Represents(s.store.body, s.hs, m)
    requires s.store.rc[s.hs[k]] == 1
    ensures Represents(WrittenThrough(s, s.hs[k], Vector(v)).store.body, s.hs, m[k := TVector(v)])
  {
    var l := s.hs[k];
    SameKind(s, k, m);
    MutatedRepresents(s, k, Vector(v), Done(l), m, TVector(v));
    assert s.hs[k := l] == s.hs;
    assert Cow(s.store, l, Vector(v), l).body == s.store.body[l := Vector(v)];
  }

  /**
   ... but every handle on the object reads the null. Handles that lead to it through a container do
   too: `SetNullIsolatedExactly`, below, has the whole condition.
   */
  lemma SharedSetNull(s: State, k: nat, j: nat, v: Vec, m: Model)
    requires NULL !in s.store.body && Represents(s.store.body, s.hs, m)
    requires k in s.hs && j in s.hs && s.hs[j] == s.hs[k] && IsVec(s, k)
    ensures var body := WrittenThrough(s, s.hs[k], Vector(v)).store.body;
      Denotes(body, s.hs[j], m[j]) <==> v == VecOf(s, k)
  {
    SameKind(s, j, m);
    var body := WrittenThrough(s, s.hs[k], Vector(v)).store.body;
    assert Denotes(body, s.hs[j], TVector(v));
    if Denotes(body, s.hs[j], m[j]) {
      DenotesUnique(body, s.hs[j], TVector(v), m[j]);
    }
  }

  /**
   The step itself: refused on what is no vector, out of range and for types without a pattern, nothing
   at all for `false`, and otherwise one element of the one object becomes the pattern and the object
   reports nulls. No count and no handle changes.
   */
  lemma SetNullWrites(s: State, k: nat, i: nat, isNull: bool)
    requires Valid(s) && Enabled(s, SetNull(k, i, isNull))
    ensures var t := Step(s, SetNull(k, i, isNull));
      if !isNull || !IsVec(s, k) || i >= |VecOf(s, k).cells| || VecOf(s, k).ty.Bool? || VecOf(s, k).ty.U8? then t == s
      else
        && t.hs == s.hs && t.leaked == s.leaked && t.store.rc == s.store.rc
        && exists w: Vec :: t == WrittenThrough(s, s.hs[k], Vector(w)) && NulledAt(VecOf(s, k), w, i)
  {
    if !Rejected(s, SetNull(k, i, isNull)) {
      PatternWritten(VecOf(s, k), i);
      assert Step(s, SetNull(k, i, isNull)) == WrittenThrough(s, s.hs[k], Vector(Nulled(VecOf(s, k), i)));
    }
  }

  /** `w` is `v` with the null pattern for element `i`, and reports nulls. */
  predicate NulledAt(v: Vec, w: Vec, i: nat)
  {
    i < |w.cells| && IsSentinel(w.ty, w.cells[i]) && OneOverwritten(v, w, i, w.cells[i]) && w.hasNulls
  }

  lemma PatternWritten(v: Vec, i: nat)
    requires i < |v.cells| && !v.ty.Bool? && !v.ty.U8?
    ensures NulledAt(v, Nulled(v, i), i)
  {}

  /** A write at the end of a path changes what its start reads. */
  lemma {:induction false} WriteSeen(body: Bodies, p: seq<Addr>, v: Vec, w: Vec, t: Tree)
    requires NULL !in body && Path(body, p) && Denotes(body, p[0], t)
    requires body[p[|p| - 1]] == Vector(v) && v != w
    ensures !Denotes(body[p[|p| - 1] := Vector(w)], p[0], t)
    decreases |p|
  {
    var l := p[|p| - 1];
    var b := body[l := Vector(w)];
    if |p| > 1 {
      var a, rest := p[0], p[1..];
      assert p[1] in Kids(body[a]);
      assert Path(body, rest) by {
        assert forall i :: 0 < i < |rest| ==> rest[i] == p[i + 1] && rest[i - 1] == p[i];
      }
      assert b[a] == body[a];
      match t
      case TList(ts) =>
        var i :| 0 <= i < |ts| && body[a].items[i] == p[1];
        WriteSeen(body, rest, v, w, ts[i]);
      case TDict(keys, vals) =>
        WriteSeen(body, rest, v, w, if p[1] == body[a].keys then keys else vals);
      case _ =>
    }
  }

  /** A write where nothing leads changes nothing that is read. */
  lemma {:induction false} WriteUnseen(body: Bodies, l: Addr, b: Body, a: Addr, t: Tree)
    requires l in body && Denotes(body, a, t) && !Leads(body, a, l)
    ensures Denotes(body[l := b], a, t)
    decreases t
  {
    if a == l { LeadsToSelf(body, l); }
    match t
    case TList(ts) =>
      forall i | 0 <= i < |ts| ensures Denotes(body[l := b], body[a].items[i], ts[i]) {
        assert body[a].items[i] in Kids(body[a]);
        if Leads(body, body[a].items[i], l) { LeadsThrough(body, a, body[a].items[i], l); }
        WriteUnseen(body, l, b, body[a].items[i], ts[i]);
      }
    case TDict(keys, vals) =>
      assert body[a].keys in Kids(body[a]) && body[a].vals in Kids(body[a]);
      if Leads(body, body[a].keys, l) { LeadsThrough(body, a, body[a].keys, l); }
      if Leads(body, body[a].vals, l) { LeadsThrough(body, a, body[a].vals, l); }
      WriteUnseen(body, l, b, body[a].keys, keys);
      WriteUnseen(body, l, b, body[a].vals, vals);
    case _ =>
  }

  /**
   Another handle goes on reading what it read exactly if the write changed nothing or that handle
   does not lead to the vector, itself or through any containers.
   */
  lemma WriteSeenExactly(s: State, k: nat, w: Vec, m: Model, j: nat)
    requires Valid(s) && k in s.hs && IsVec(s, k) && Represents(s.store.body, s.hs, m) && j in s.hs
    ensures Denotes(WrittenThrough(s, s.hs[k], Vector(w)).store.body, s.hs[j], m[j]) <==>
            w == VecOf(s, k) || !Leads(s.store.body, s.hs[j], s.hs[k])
  {
    var l, body := s.hs[k], s.store.body;
    if w == VecOf(s, k) {
      assert body[l := Vector(w)] == body;
    } else if Leads(body, s.hs[j], l) {
      var p :| Path(body, p) && p[0] == s.hs[j] && p[|p| - 1] == l;
      WriteSeen(body, p, VecOf(s, k), w, m[j]);
    } else {
      WriteUnseen(body, l, Vector(w), s.hs[j], m[j]);
    }
  }

  /** With nothing leaked, a count above one has another handle behind it, directly or through containers. */
  lemma OtherHolder(s: State, k: nat)
    requires Valid(s) && s.leaked == multiset{} && k in s.hs && IsVec(s, k)
    ensures s.store.rc[s.hs[k]] > 1 <==> exists j :: j in s.hs && j != k && Leads(s.store.body, s.hs[j], s.hs[k])
  {
    if j :| j in s.hs && j != k && Leads(s.store.body, s.hs[j], s.hs[k]) { HeldTwice(s, k, j); }
    if s.store.rc[s.hs[k]] > 1 { CountHasHolder(s, k); }
  }

  lemma CountHasHolder(s: State, k: nat)
    requires Valid(s) && s.leaked == multiset{} && k in s.hs && IsVec(s, k) && s.store.rc[s.hs[k]] > 1
    ensures exists j :: j in s.hs && j != k && Leads(s.store.body, s.hs[j], s.hs[k])
  {
    var l, body := s.hs[k], s.store.body;
    HandleRefsRemove(s.hs, k);
    assert CountOf(s.store, l) == (HandleRefs(s.hs) + SlotRefs(body) + s.leaked)[l];
    HandleRefsOwner(s.hs - {k}, l);
    SlotRefsOwner(body, l);
    if l in HandleRefs(s.hs - {k}) {
      LeadsToSelf(body, l);
    } else {
      var o :| o in body && l in Kids(body[o]);
      OwnerHasHandle(s, k, o);
    }
  }

  lemma OwnerHasHandle(s: State, k: nat, o: Addr)
    requires Valid(s) && s.leaked == multiset{} && k in s.hs && IsVec(s, k)
    requires o in s.store.body && s.hs[k] in Kids(s.store.body[o])
    ensures exists j :: j in s.hs && j != k && Leads(s.store.body, s.hs[j], s.hs[k])
  {
    LiveIffReachable(s.store, s.hs, s.leaked, o);
    var p :| Path(s.store.body, p) && p[|p| - 1] == o && Rooted(s.hs, s.leaked, p[0]);
    var j :| j in s.hs && s.hs[j] == p[0];
    assert |p| > 1 ==> p[1] in Kids(s.store.body[p[0]]);
    assert Leads(s.store.body, s.hs[j], o);
    LeadsToKid(s.store.body, s.hs[j], o, s.hs[k]);
  }

  /**
   `set_null` is isolated -- every other handle reads what it read -- if and only if the vector had
   one reference or the call changed nothing. The count is what `ref_count` reports before the call.
   */
  lemma SetNullIsolatedExactly(s: State, k: nat, w: Vec, m: Model)
    requires Valid(s) && s.leaked == multiset{} && k in s.hs && IsVec(s, k)
    requires Represents(s.store.body, s.hs, m)
    ensures (forall j :: j in s.hs && j != k ==>
               Denotes(WrittenThrough(s, s.hs[k], Vector(w)).store.body, s.hs[j], m[j]))
            <==> s.store.rc[s.hs[k]] == 1 || w == VecOf(s, k)
  {
    OtherHolder(s, k);
    CountIsPositive(s, s.hs[k]);
    forall j | j in s.hs
      ensures Denotes(WrittenThrough(s, s.hs[k], Vector(w)).store.body, s.hs[j], m[j]) <==>
              w == VecOf(s, k) || !Leads(s.store.body, s.hs[j], s.hs[k])
    {
      WriteSeenExactly(s, k, w, m, j);
    }
  }

  lemma CountIsPositive(s: State, a: Addr)
    requires Valid(s) && a in s.store.body
    ensures s.store.rc[a] >= 1
  {}
}
