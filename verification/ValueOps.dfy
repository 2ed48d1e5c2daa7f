/**
 The operations of a `Value` (value.rs, list.rs, dict.rs, vector.rs) as steps on the heap.

 Addresses are the allocator's choice and may be reused the moment they are free; whether a
 growing buffer stays where it is, and whether a failing call consumed the reference it was
 handed, are the core's. Those choices are part of each operation, so a run is any sequence of
 operations with any choices.
 */
module ValueOps {
  import opened Vectors
  import opened Heap

  /**
   `leaked` records references the bindings let go of without the core having released them;
   only a failing call that did not consume its argument adds to it.
   */
  datatype State = State(store: Store, hs: Handles, leaked: multiset<Addr>)

  const EMPTY: State := State(Store(map[], map[]), map[], multiset{})

  ghost predicate Valid(s: State)
  {
    Good(s.store, s.hs, s.leaked)
  }

  // ---- consuming core calls ----

  /** A consuming call returns the (possibly relocated) buffer, or an error object. */
  datatype Outcome = Done(at: Addr) | Failed(consumed: bool)

  /** The builder loop of `Value::list`: finished, or broken off after some appends. */
  datatype Built = Whole(at: Addr) | Broken(at: Addr, upto: nat, consumed: bool)

  /** Copy-on-write, first half: the consumed reference to `l` and, on the copy path, the retains. */
  function Unshared(s: Store, l: Addr): (r: Store)
    requires l in s.body && l in s.rc
  {
    if s.rc[l] == 1 then Dismantle(s, l)
    else
      var t := RetainAll(s, Kids(s.body[l]));
      if l in t.rc && t.rc[l] > 1 then Decrement(t, l) else t
  }

  /** In place (or moved) when the count is one, a copy otherwise; `b` is the new content. */
  function Cow(s: Store, l: Addr, b: Body, at: Addr): Store
    requires l in s.body && l in s.rc
  {
    Alloc(Unshared(s, l), at, b)
  }

  predicate CanLand(s: Store, l: Addr, at: Addr)
    requires l in s.rc
  {
    at != NULL && (at !in s.rc || (at == l && s.rc[l] == 1))
  }

  /** `ray_list_append`: retains the item. */
  function ListAppend(s: Store, l: Addr, item: Addr, at: Addr): Store
    requires l in s.body && l in s.rc && s.body[l].List?
  {
    Cow(Retain(s, item), l, List(s.body[l].items + [item]), at)
  }

  // ---- the operations ----

  datatype Answer = Missing | Refused | Boxed(at: Addr, b: Body) | Item(i: nat)

  datatype Op =
    | Make(k: nat, at: Addr, leaf: Body)
    | MakeNull(k: nat)
    | Clone(k: nat, k2: nat)
    | DropValue(k: nat)
    | MakeList(items: seq<nat>, k: nat, built: Built)
    | ListPush(k: nat, item: nat, out: Outcome)
    | MakeDict(kk: nat, kv: nat, k: nat, out: Outcome)
    | DictPart(k: nat, keys: bool, k2: nat)
    | DictGet(k: nat, answer: Answer, k2: nat)
    | GetItem(k: nat, i: nat, k2: nat, at: Addr)
    | SetItem(k: nat, i: nat, ty: Elem, x: Cell, out: Outcome)
    | PushItem(k: nat, ty: Elem, x: Cell, out: Outcome)
    | SetNull(k: nat, i: nat, isNull: bool)

  predicate IsList(s: State, k: nat)
    requires k in s.hs
  {
    s.hs[k] in s.store.body && s.store.body[s.hs[k]].List?
  }

  predicate IsDict(s: State, k: nat)
    requires k in s.hs
  {
    s.hs[k] in s.store.body && s.store.body[s.hs[k]].Dict?
  }

  predicate IsVec(s: State, k: nat)
    requires k in s.hs
  {
    s.hs[k] in s.store.body && s.store.body[s.hs[k]].Vector?
  }

  function VecOf(s: State, k: nat): Vec
    requires k in s.hs && IsVec(s, k)
  {
    s.store.body[s.hs[k]].v
  }

  /** `abs_type`: an atom and a vector of one element type share it. */
  predicate HasType(s: State, k: nat, ty: Elem)
    requires k in s.hs
  {
    && s.hs[k] in s.store.body
    && var b := s.store.body[s.hs[k]];
      (b.Scalar? && b.ty == ty) || (b.Vector? && b.v.ty == ty)
  }

  predicate Fresh(s: State, a: Addr)
  {
    a != NULL && a !in s.store.rc
  }

  function Pointers(hs: Handles, ks: seq<nat>): seq<Addr>
    requires forall k :: k in ks ==> k in hs
  {
    seq(|ks|, i requires 0 <= i < |ks| => hs[ks[i]])
  }

  /**
   What Rust's ownership rules and the allocator guarantee before the call: handles named exist,
   new ones are new, an argument taken by value or by `&mut` is no other argument, and a new
   object's address is free.
   */
  predicate Enabled(s: State, op: Op)
  {
    match op
    case Make(k, at, leaf) => k !in s.hs && Fresh(s, at) && (leaf.Scalar? || leaf.Vector?)
    case MakeNull(k) => k !in s.hs
    case Clone(k, k2) => k in s.hs && k2 !in s.hs
    case DropValue(k) => k in s.hs
    case MakeList(items, k, built) =>
      && k !in s.hs && (forall i :: i in items ==> i in s.hs) && Fresh(s, built.at)
      && (built.Broken? ==> built.upto <= |items|)
    case ListPush(k, item, out) =>
      && k in s.hs && item in s.hs && k != item
      && (IsList(s, k) && out.Done? && s.hs[k] in s.store.rc ==> CanLand(s.store, s.hs[k], out.at))
    case MakeDict(kk, kv, k, out) =>
      && kk in s.hs && kv in s.hs && kk != kv && k !in s.hs && (out.Done? ==> Fresh(s, out.at))
    case DictPart(k, keys, k2) => k in s.hs && k2 !in s.hs
    case DictGet(k, answer, k2) =>
      && k in s.hs && k2 !in s.hs
      && (answer.Boxed? ==> Fresh(s, answer.at) && (answer.b.Scalar? || answer.b.Vector?))
      && (answer.Item? && IsDict(s, k) ==>
            var d := s.store.body[s.hs[k]];
            d.vals in s.store.body && s.store.body[d.vals].List? && answer.i < |s.store.body[d.vals].items|)
    case GetItem(k, i, k2, at) => k in s.hs && k2 !in s.hs && Fresh(s, at)
    case SetItem(k, i, ty, x, out) =>
      k in s.hs && (IsVec(s, k) && out.Done? && s.hs[k] in s.store.rc ==> CanLand(s.store, s.hs[k], out.at))
    case PushItem(k, ty, x, out) =>
      && k in s.hs
      && (IsVec(s, k) && out.Done? && s.hs[k] in s.store.rc ==> CanLand(s.store, s.hs[k], out.at))
      && (HasType(s, k, ty) && !IsVec(s, k) ==> out.Failed?)
    case SetNull(k, i, isNull) => k in s.hs
  }

  /** Does the call return `Ok` (for the builders: does it return at all)? */
  predicate Succeeds(s: State, op: Op)
    requires Enabled(s, op)
  {
    match op
    case Make(_, _, _) => true
    case MakeNull(_) => true
    case Clone(_, _) => true
    case DropValue(_) => true
    case MakeList(_, _, built) => built.Whole?
    case ListPush(k, item, out) => IsList(s, k) && out.Done?
    case MakeDict(_, _, _, out) => out.Done?
    case DictPart(k, _, _) => IsDict(s, k)
    case DictGet(k, answer, _) => IsDict(s, k) && !answer.Refused?
    case GetItem(k, i, _, _) =>
      (IsList(s, k) && i < |s.store.body[s.hs[k]].items|) || (IsVec(s, k) && i < |VecOf(s, k).cells|)
    case SetItem(k, i, ty, x, out) => HasType(s, k, ty) && IsVec(s, k) && i < |VecOf(s, k).cells| && out.Done?
    case PushItem(k, ty, x, out) => HasType(s, k, ty) && out.Done?
    case SetNull(k, i, _) => IsVec(s, k) && i < |VecOf(s, k).cells| && SentinelOf(VecOf(s, k).ty).Some?
  }

  /** The binding's own refusals: nothing was handed to the core. */
  predicate Rejected(s: State, op: Op)
    requires Enabled(s, op)
  {
    match op
    case ListPush(k, item, out) => !IsList(s, k)
    case DictPart(k, _, _) => !IsDict(s, k)
    case DictGet(k, answer, _) => !IsDict(s, k) || answer.Missing? || answer.Refused?
    case GetItem(k, i, _, _) => !Succeeds(s, op)
    case SetItem(k, i, ty, x, out) => !HasType(s, k, ty) || !IsVec(s, k) || i >= |VecOf(s, k).cells|
    case PushItem(k, ty, x, out) => !HasType(s, k, ty)
    case SetNull(k, i, isNull) => !Succeeds(s, op) || !isNull
    case _ => false
  }

  /** `install_mutation` and the error arm of `list_push`: swap in the null singleton. */
  function Swapped(s: State, k: nat, consumed: bool): State
    requires k in s.hs && s.store.rc.Keys == s.store.body.Keys
  {
    if consumed then State(Release(s.store, s.hs[k]), s.hs[k := NULL], s.leaked)
    else State(s.store, s.hs[k := NULL], s.leaked + multiset{s.hs[k]})
  }

  function Borrowed(s: State, a: Addr, k: nat): State
  {
    State(Retain(s.store, a), s.hs[k := a], s.leaked)
  }

  function Created(s: State, at: Addr, b: Body, k: nat): State
  {
    State(Alloc(s.store, at, b), s.hs[k := at], s.leaked)
  }

  function Mutated(s: State, k: nat, b: Body, out: Outcome): State
    requires k in s.hs && s.hs[k] in s.store.body && s.store.rc.Keys == s.store.body.Keys
  {
    match out
    case Done(at) => State(Cow(s.store, s.hs[k], b, at), s.hs[k := at], s.leaked)
    case Failed(consumed) => Swapped(s, k, consumed)
  }

  /** `ray_vec_set_null_checked` has no copy-on-write step. */
  function WrittenThrough(s: State, l: Addr, b: Body): State
  {
    s.(store := s.store.(body := s.store.body[l := b]))
  }

  function Step(s: State, op: Op): State
    requires Enabled(s, op) && s.store.rc.Keys == s.store.body.Keys
  {
    if Rejected(s, op) then s else
    match op
    case Make(k, at, leaf) => Created(s, at, leaf, k)
    case MakeNull(k) => s.(hs := s.hs[k := NULL])
    case Clone(k, k2) => Borrowed(s, s.hs[k], k2)
    case DropValue(k) => s.(store := Release(s.store, s.hs[k]), hs := s.hs - {k})
    case MakeList(items, k, built) =>
      var ps := Pointers(s.hs, items);
      (match built
       case Whole(at) => Created(s.(store := RetainAll(s.store, ps)), at, List(ps), k)
       case Broken(at, upto, consumed) =>
         if consumed then s
         else State(Alloc(RetainAll(s.store, ps[..upto]), at, List(ps[..upto])), s.hs,
                    s.leaked + multiset{at}))
    case ListPush(k, item, out) =>
      (match out
       case Done(at) => State(ListAppend(s.store, s.hs[k], s.hs[item], at), s.hs[k := at], s.leaked)
       case Failed(consumed) => Swapped(s, k, consumed))
    case MakeDict(kk, kv, k, out) =>
      var a, b, hs := s.hs[kk], s.hs[kv], s.hs - {kk, kv};
      (match out
       case Done(at) => State(Alloc(s.store, at, Dict(a, b)), hs[k := at], s.leaked)
       case Failed(consumed) =>
         if consumed then State(ReleaseAll(s.store, [a, b]), hs, s.leaked)
         else State(s.store, hs, s.leaked + (Owned(a) + Owned(b))))
    case DictPart(k, keys, k2) =>
      var d := s.store.body[s.hs[k]];
      Borrowed(s, if keys then d.keys else d.vals, k2)
    case DictGet(k, answer, k2) =>
      var d := s.store.body[s.hs[k]];
      if answer.Boxed? then Created(s, answer.at, answer.b, k2)
      else Borrowed(s, s.store.body[d.vals].items[answer.i], k2)
    case GetItem(k, i, k2, at) =>
      if IsList(s, k) then Borrowed(s, s.store.body[s.hs[k]].items[i], k2)
      else
        (match Get(VecOf(s, k), i).value
         case NullObject => s.(hs := s.hs[k2 := NULL])
         case Atom(ty, c) => Created(s, at, Scalar(ty, c), k2))
    case SetItem(k, i, ty, x, out) => Mutated(s, k, Vector(Written(VecOf(s, k), i, x)), out)
    case PushItem(k, ty, x, out) =>
      if IsVec(s, k) then Mutated(s, k, Vector(Appended(VecOf(s, k), x)), out)
      else Swapped(s, k, out.consumed)
    case SetNull(k, i, isNull) => WrittenThrough(s, s.hs[k], Vector(Nulled(VecOf(s, k), i)))
  }

  /** Only a failing call that left its argument unreleased leaks, and it leaks just that. */
  function Lost(s: State, op: Op): multiset<Addr>
    requires Enabled(s, op)
  {
    if Rejected(s, op) then multiset{} else
    match op
    case MakeList(_, _, built) => if built.Broken? && !built.consumed then multiset{built.at} else multiset{}
    case ListPush(k, _, out) => if out == Failed(false) then multiset{s.hs[k]} else multiset{}
    case MakeDict(kk, kv, _, out) => if out == Failed(false) then Owned(s.hs[kk]) + Owned(s.hs[kv]) else multiset{}
    case SetItem(k, _, _, _, out) => if out == Failed(false) then multiset{s.hs[k]} else multiset{}
    case PushItem(k, _, _, out) => if out == Failed(false) then multiset{s.hs[k]} else multiset{}
    case _ => multiset{}
  }

  predicate Leaks(s: State, op: Op)
    requires Enabled(s, op)
  {
    Lost(s, op) != multiset{}
  }

  /** The null singleton is nobody's reference. */
  function Owned(a: Addr): multiset<Addr>
  {
    if a == NULL then multiset{} else multiset{a}
  }

  // ---- every step keeps the heap good ----

  lemma UnsharedGood(s: Store, hs: Handles, owed: multiset<Addr>, l: Addr)
    requires Good(s, hs, owed + multiset{l}) && l in s.body
    ensures Good(Unshared(s, l), hs, owed + multiset(Kids(s.body[l])))
    ensures Remains(s, Unshared(s, l))
    ensures s.rc[l] > 1 ==> Unshared(s, l).body == s.body
    ensures s.rc[l] == 1 ==> l !in Unshared(s, l).rc
  {
    if s.rc[l] == 1 {
      DismantleGood(s, hs, owed, l);
    } else {
      var kids := Kids(s.body[l]);
      GoodIsClosed(s, hs, owed + multiset{l});
      RetainAllGood(s, hs, owed + multiset{l}, kids);
      var t := RetainAll(s, kids);
      assert owed + multiset{l} + multiset(kids) == owed + multiset(kids) + multiset{l};
      RetainAllCounts(s, kids, l);
      DecrementGood(t, hs, owed + multiset(kids), l);
    }
  }

  lemma {:induction false} RetainAllCounts(s: Store, ps: seq<Addr>, a: Addr)
    requires a in s.rc
    ensures a in RetainAll(s, ps).rc && RetainAll(s, ps).rc[a] == s.rc[a] + multiset(ps)[a]
    decreases |ps|
  {
    if ps != [] {
      RetainAllCounts(Retain(s, ps[0]), ps[1..], a);
      assert ps == [ps[0]] + ps[1..];
    }
  }

  /** A consuming call turns its owed argument and the extras into the owed result. */
  lemma CowGood(s: Store, hs: Handles, owed: multiset<Addr>, l: Addr, b: Body, extra: seq<Addr>, at: Addr)
    requires Good(s, hs, owed + multiset(extra) + multiset{l}) && l in s.body && CanLand(s, l, at)
    requires Kids(b) == Kids(s.body[l]) + extra
    ensures Good(Cow(s, l, b, at), hs, owed + multiset{at})
    ensures var u := Unshared(s, l);
      Good(u, hs, owed + multiset(Kids(b))) && Remains(s, u) && at !in u.body
  {
    UnsharedGood(s, hs, owed + multiset(extra), l);
    var u := Unshared(s, l);
    assert multiset(Kids(b)) == multiset(Kids(s.body[l])) + multiset(extra);
    assert owed + multiset(extra) + multiset(Kids(s.body[l])) == owed + multiset(Kids(b));
    assert at !in u.rc by {
      if s.rc[l] > 1 { assert u.rc.Keys == u.body.Keys == s.body.Keys; }
    }
    AllocGood(u, hs, owed, at, b);
  }

  lemma SwappedGood(s: State, k: nat, consumed: bool)
    requires Valid(s) && k in s.hs
    ensures Valid(Swapped(s, k, consumed))
  {
    var a, hs := s.hs[k], s.hs - {k};
    OutOfHandleGood(s.store, s.hs, s.leaked, k);
    if consumed {
      ReleaseGood(s.store, hs, s.leaked, a);
      NullIntoHandleGood(Release(s.store, a), hs, s.leaked, k);
    } else {
      NullIntoHandleGood(s.store, hs, s.leaked + multiset{a}, k);
    }
    SameHandles(s.hs, k, NULL);
  }

  lemma NullIntoHandleGood(s: Store, hs: Handles, owed: multiset<Addr>, k: nat)
    requires Good(s, hs, owed) && k !in hs
    ensures Good(s, hs[k := NULL], owed)
  {
    OweNullGood(s, hs, owed);
    IntoHandleGood(s, hs, owed, k, NULL);
  }

  lemma OweNullGood(s: Store, hs: Handles, owed: multiset<Addr>)
    requires Good(s, hs, owed)
    ensures Good(s, hs, owed + multiset{NULL})
  {
    var refs := HandleRefs(hs) + SlotRefs(s.body);
    forall x: Addr | x != NULL ensures CountOf(s, x) == (refs + (owed + multiset{NULL}))[x] {
      assert CountOf(s, x) == (refs + owed)[x];
    }
  }

  lemma BorrowedGood(s: State, a: Addr, k: nat)
    requires Valid(s) && Live(s.store, a) && k !in s.hs
    ensures Valid(Borrowed(s, a, k))
  {
    RetainGood(s.store, s.hs, s.leaked, a);
    IntoHandleGood(Retain(s.store, a), s.hs, s.leaked, k, a);
  }

  lemma CreatedGood(s: State, at: Addr, b: Body, k: nat)
    requires Good(s.store, s.hs, s.leaked + multiset(Kids(b))) && Fresh(s, at) && k !in s.hs
    ensures Valid(Created(s, at, b, k))
  {
    AllocGood(s.store, s.hs, s.leaked, at, b);
    IntoHandleGood(Alloc(s.store, at, b), s.hs, s.leaked, k, at);
  }

  /** The handle's reference goes in, the result comes back into the same handle. */
  lemma CowInHandleGood(s: Store, hs: Handles, owed: multiset<Addr>, k: nat, b: Body, extra: seq<Addr>, at: Addr)
    requires Good(s, hs, owed + multiset(extra)) && k in hs && hs[k] in s.body && CanLand(s, hs[k], at)
    requires Kids(b) == Kids(s.body[hs[k]]) + extra
    ensures Good(Cow(s, hs[k], b, at), hs[k := at], owed)
  {
    OutOfHandleGood(s, hs, owed + multiset(extra), k);
    CowGood(s, hs - {k}, owed, hs[k], b, extra, at);
    IntoHandleGood(Cow(s, hs[k], b, at), hs - {k}, owed, k, at);
    SameHandles(hs, k, at);
  }

  lemma SameHandles(hs: Handles, k: nat, at: Addr)
    requires k in hs
    ensures (hs - {k})[k := at] == hs[k := at]
  {}

  lemma MutatedGood(s: State, k: nat, b: Body, out: Outcome)
    requires Valid(s) && k in s.hs && s.hs[k] in s.store.body && Kids(b) == Kids(s.store.body[s.hs[k]])
    requires out.Done? ==> CanLand(s.store, s.hs[k], out.at)
    ensures Valid(Mutated(s, k, b, out))
  {
    match out
    case Done(at) =>
      NoExtra(s.leaked, Kids(b));
      CowInHandleGood(s.store, s.hs, s.leaked, k, b, [], at);
    case Failed(consumed) =>
      SwappedGood(s, k, consumed);
  }

  lemma NoExtra(m: multiset<Addr>, kids: seq<Addr>)
    ensures m + multiset([]) == m && kids + [] == kids
  {}

  lemma PointersLive(s: State, ks: seq<nat>)
    requires Valid(s) && forall k :: k in ks ==> k in s.hs
    ensures forall p :: p in Pointers(s.hs, ks) ==> Live(s.store, p)
  {
    forall p | p in Pointers(s.hs, ks) ensures Live(s.store, p) {
      var i :| 0 <= i < |ks| && s.hs[ks[i]] == p;
      HandleIsLive(s.store, s.hs, s.leaked, ks[i]);
    }
  }

  lemma MakeListGood(s: State, op: Op)
    requires Valid(s) && op.MakeList? && Enabled(s, op)
    ensures Valid(Step(s, op))
  {
    var all := Pointers(s.hs, op.items);
    PointersLive(s, op.items);
    var ps := if op.built.Whole? then all else all[..op.built.upto];
    RetainAllGood(s.store, s.hs, s.leaked, ps);
    var t := RetainAll(s.store, ps);
    assert t.rc.Keys == t.body.Keys == s.store.body.Keys;
    if op.built.Whole? {
      CreatedGood(s.(store := t), op.built.at, List(ps), op.k);
    } else {
      AllocGood(t, s.hs, s.leaked, op.built.at, List(ps));
    }
  }

  lemma ListPushGood(s: State, op: Op)
    requires Valid(s) && op.ListPush? && Enabled(s, op) && !Rejected(s, op)
    ensures Valid(Step(s, op))
  {
    var k, l, item := op.k, s.hs[op.k], s.hs[op.item];
    if op.out.Failed? {
      SwappedGood(s, k, op.out.consumed);
    } else {
      PushCanLand(s, k, op.item, op.out.at);
      HandleIsLive(s.store, s.hs, s.leaked, op.item);
      RetainGood(s.store, s.hs, s.leaked, item);
      Singleton(item);
      CowInHandleGood(Retain(s.store, item), s.hs, s.leaked, k,
                      List(s.store.body[l].items + [item]), [item], op.out.at);
    }
  }

  lemma Singleton(a: Addr)
    ensures multiset([a]) == multiset{a}
  {}

  /**
   Where acyclicity is decided: growing in place needs a sole reference, and a list that the item is
   -- through a clone, since Rust forbids the same handle twice -- or holds, at any depth, has two.
   */
  lemma PushCanLand(s: State, k: nat, item: nat, at: Addr)
    requires Valid(s) && k in s.hs && item in s.hs && k != item && s.hs[k] in s.store.rc
    requires CanLand(s.store, s.hs[k], at)
    ensures CanLand(Retain(s.store, s.hs[item]), s.hs[k], at)
    ensures Leads(s.store.body, s.hs[item], s.hs[k]) ==> s.store.rc[s.hs[k]] > 1 && at != s.hs[k]
  {
    var l := s.hs[k];
    HeldTwice(s, k, item);
    if l == s.hs[item] { LeadsToSelf(s.store.body, l); }
  }

  /** An object with a handle of its own that another handle leads to has two references at least. */
  lemma HeldTwice(s: State, k: nat, j: nat)
    requires Valid(s) && k in s.hs && j in s.hs && k != j && s.hs[k] in s.store.rc
    ensures Leads(s.store.body, s.hs[j], s.hs[k]) ==> s.store.rc[s.hs[k]] > 1
  {
    var l := s.hs[k];
    HandleRefsRemove(s.hs, k);
    HandleRefsRemove(s.hs - {k}, j);
    assert CountOf(s.store, l) == (HandleRefs(s.hs) + SlotRefs(s.store.body) + s.leaked)[l];
    if Leads(s.store.body, s.hs[j], l) { LeadsBySlot(s.store.body, s.hs[j], l); }
  }

  lemma MakeDictGood(s: State, op: Op)
    requires Valid(s) && op.MakeDict? && Enabled(s, op)
    ensures Valid(Step(s, op))
  {
    var a, b, hs := s.hs[op.kk], s.hs[op.kv], s.hs - {op.kk, op.kv};
    TwoOutGood(s.store, s.hs, s.leaked, op.kk, op.kv);
    match op.out
    case Done(at) =>
      DictCreatedGood(s.(hs := hs), at, a, b, op.k);
    case Failed(consumed) =>
      if consumed {
        ReleaseAllGood(s.store, hs, s.leaked, [a, b]);
      } else {
        OwnedGood(s.store, hs, s.leaked, a, b);
      }
  }

  lemma OwnedGood(s: Store, hs: Handles, owed: multiset<Addr>, a: Addr, b: Addr)
    requires Good(s, hs, owed + multiset([a, b]))
    ensures Good(s, hs, owed + (Owned(a) + Owned(b)))
  {
    var refs := HandleRefs(hs) + SlotRefs(s.body);
    forall x: Addr | x != NULL ensures CountOf(s, x) == (refs + (owed + (Owned(a) + Owned(b))))[x] {
      assert CountOf(s, x) == (refs + (owed + multiset([a, b])))[x];
    }
  }

  lemma DictCreatedGood(s: State, at: Addr, a: Addr, b: Addr, k: nat)
    requires Good(s.store, s.hs, s.leaked + multiset([a, b])) && Fresh(s, at) && k !in s.hs
    ensures Valid(Created(s, at, Dict(a, b), k))
  {
    CreatedGood(s, at, Dict(a, b), k);
  }

  /** Both arguments of `dict` by value: two references out of their handles. */
  lemma TwoOutGood(s: Store, hs: Handles, owed: multiset<Addr>, k: nat, j: nat)
    requires Good(s, hs, owed) && k in hs && j in hs && k != j
    ensures Good(s, hs - {k, j}, owed + multiset([hs[k], hs[j]]))
  {
    OutOfHandleGood(s, hs, owed, k);
    OutOfHandleGood(s, hs - {k}, owed + multiset{hs[k]}, j);
    TwoOut(hs, owed, k, j);
  }

  lemma TwoOut(hs: Handles, owed: multiset<Addr>, k: nat, j: nat)
    requires k in hs && j in hs && k != j
    ensures hs - {k} - {j} == hs - {k, j}
    ensures owed + multiset{hs[k]} + multiset{hs[j]} == owed + multiset([hs[k], hs[j]])
  {}

  lemma DropGood(s: State, k: nat)
    requires Valid(s) && k in s.hs
    ensures Valid(s.(store := Release(s.store, s.hs[k]), hs := s.hs - {k}))
  {
    OutOfHandleGood(s.store, s.hs, s.leaked, k);
    ReleaseGood(s.store, s.hs - {k}, s.leaked, s.hs[k]);
  }

  lemma SetNullGood(s: State, op: Op)
    requires Valid(s) && op.SetNull? && Enabled(s, op) && !Rejected(s, op)
    ensures Valid(Step(s, op))
  {
    var l := s.hs[op.k];
    RewriteGood(s.store, s.hs, s.leaked, l, Vector(Nulled(VecOf(s, op.k), op.i)));
  }

  /** Writing through, with no copy: harmless to the counts because no slot changes. */
  lemma RewriteGood(s: Store, hs: Handles, owed: multiset<Addr>, l: Addr, b: Body)
    requires Good(s, hs, owed) && l in s.body && Kids(b) == Kids(s.body[l])
    ensures Good(s.(body := s.body[l := b]), hs, owed)
  {
    RewriteSlots(s.body, l, b);
    RewriteBalanced(s, HandleRefs(hs) + SlotRefs(s.body) + owed, l, b);
    RewriteAcyclic(s.body, l, b);
  }

  lemma RewriteBalanced(s: Store, refs: multiset<Addr>, l: Addr, b: Body)
    requires Balanced(s, refs) && l in s.body
    ensures Balanced(s.(body := s.body[l := b]), refs)
  {}

  lemma RewriteAcyclic(body: Bodies, l: Addr, b: Body)
    requires Acyclic(body) && l in body && Kids(b) == Kids(body[l])
    ensures Acyclic(body[l := b])
  {
    var rank: map<Addr, nat>, top: nat :| Ranked(body, rank, top);
    RewriteRanked(body, l, b, rank, top);
  }

  lemma RewriteSlots(body: Bodies, l: Addr, b: Body)
    requires l in body && Kids(b) == Kids(body[l])
    ensures SlotRefs(body[l := b]) == SlotRefs(body)
  {
    assert body[l := b] - {l} == body - {l};
    calc {
      SlotRefs(body[l := b]);
      { SlotRefsRemove(body[l := b], l); }
      multiset(Kids(b)) + SlotRefs(body - {l});
      { SlotRefsRemove(body, l); }
      SlotRefs(body);
    }
  }

  lemma RewriteRanked(body: Bodies, l: Addr, b: Body, rank: map<Addr, nat>, top: nat)
    requires l in body && Kids(b) == Kids(body[l]) && Ranked(body, rank, top)
    ensures Ranked(body[l := b], rank, top)
  {
    var t := body[l := b];
    forall a, x | a in t && x in Kids(t[a]) && x in t ensures rank[x] < rank[a] {
      assert x in Kids(body[a]);
    }
  }

  lemma GetterGood(s: State, op: Op)
    requires Valid(s) && (op.DictPart? || op.DictGet? || op.GetItem?) && Enabled(s, op) && !Rejected(s, op)
    ensures Valid(Step(s, op))
  {
    GoodIsClosed(s.store, s.hs, s.leaked);
    match op
    case DictPart(k, keys, k2) =>
      var d := s.store.body[s.hs[k]];
      assert d.keys in Kids(d) && d.vals in Kids(d);
      BorrowedGood(s, if keys then d.keys else d.vals, k2);
    case DictGet(k, answer, k2) =>
      var d := s.store.body[s.hs[k]];
      if answer.Boxed? {
        LeafCreatedGood(s, answer.at, answer.b, k2);
      } else {
        var p := s.store.body[d.vals].items[answer.i];
        assert p in Kids(s.store.body[d.vals]);
        BorrowedGood(s, p, k2);
      }
    case GetItem(k, i, k2, at) =>
      if IsList(s, k) {
        assert s.store.body[s.hs[k]].items[i] in Kids(s.store.body[s.hs[k]]);
        BorrowedGood(s, s.store.body[s.hs[k]].items[i], k2);
      } else {
        var g := Get(VecOf(s, k), i).value;
        if g.Atom? {
          LeafCreatedGood(s, at, Scalar(g.ty, g.c), k2);
        } else {
          NullHandleGood(s, k2);
        }
      }
  }

  lemma LeafCreatedGood(s: State, at: Addr, b: Body, k: nat)
    requires Valid(s) && Fresh(s, at) && k !in s.hs && (b.Scalar? || b.Vector?)
    ensures Valid(Created(s, at, b, k))
  {
    assert s.leaked + multiset(Kids(b)) == s.leaked;
    CreatedGood(s, at, b, k);
  }

  lemma NullHandleGood(s: State, k: nat)
    requires Valid(s) && k !in s.hs
    ensures Valid(s.(hs := s.hs[k := NULL]))
  {
    NullIntoHandleGood(s.store, s.hs, s.leaked, k);
  }

  /** Every operation, every outcome, every error return. */
  lemma StepValid(s: State, op: Op)
    requires Valid(s) && Enabled(s, op)
    ensures Valid(Step(s, op))
  {
    if !Rejected(s, op) {
      match op
      case Make(k, at, leaf) => LeafCreatedGood(s, at, leaf, k);
      case MakeNull(k) => NullHandleGood(s, k);
      case Clone(k, k2) => HandleIsLive(s.store, s.hs, s.leaked, k); BorrowedGood(s, s.hs[k], k2);
      case DropValue(k) => DropGood(s, k);
      case MakeList(_, _, _) => MakeListGood(s, op);
      case ListPush(_, _, _) => ListPushGood(s, op);
      case MakeDict(_, _, _, _) => MakeDictGood(s, op);
      case DictPart(_, _, _) => GetterGood(s, op);
      case DictGet(_, _, _) => GetterGood(s, op);
      case GetItem(_, _, _, _) => GetterGood(s, op);
      case SetItem(k, i, ty, x, out) => MutatedGood(s, k, Vector(Written(VecOf(s, k), i, x)), out);
      case PushItem(k, ty, x, out) =>
        if IsVec(s, k) {
          MutatedGood(s, k, Vector(Appended(VecOf(s, k), x)), out);
        } else {
          SwappedGood(s, k, out.consumed);
        }
      case SetNull(_, _, _) => SetNullGood(s, op);
    }
  }

  // ---- runs ----

  ghost predicate IsRun(s: State, ops: seq<Op>)
    decreases |ops|
  {
    ops != [] ==> Enabled(s, ops[0]) && s.store.rc.Keys == s.store.body.Keys && IsRun(Step(s, ops[0]), ops[1..])
  }

  ghost function After(s: State, ops: seq<Op>): State
    requires IsRun(s, ops)
    decreases |ops|
  {
    if ops == [] then s else After(Step(s, ops[0]), ops[1..])
  }

  /** Did no failing call of the run leave its argument unreleased? */
  ghost predicate LeakFree(s: State, ops: seq<Op>)
    requires IsRun(s, ops)
    decreases |ops|
  {
    ops != [] ==> !Leaks(s, ops[0]) && LeakFree(Step(s, ops[0]), ops[1..])
  }

  lemma EmptyIsValid()
    ensures Valid(EMPTY)
  {
    assert Ranked(EMPTY.store.body, map[], 0);
    assert HandleRefs(map[]) == multiset{} && SlotRefs(map[]) == multiset{};
  }

  lemma {:induction false} RunValid(s: State, ops: seq<Op>)
    requires Valid(s) && NULL !in s.leaked && IsRun(s, ops)
    ensures Valid(After(s, ops)) && NULL !in After(s, ops).leaked
    ensures s.leaked <= After(s, ops).leaked
    ensures After(s, ops).leaked == s.leaked <==> LeakFree(s, ops)
    decreases |ops|
  {
    if ops != [] {
      var t := Step(s, ops[0]);
      StepValid(s, ops[0]);
      StepLeaks(s, ops[0]);
      RunValid(t, ops[1..]);
    }
  }

  lemma StepLeaked(s: State, op: Op)
    requires s.store.rc.Keys == s.store.body.Keys && Enabled(s, op)
    ensures Step(s, op).leaked == s.leaked + Lost(s, op)
  {}

  lemma Grows(m: multiset<Addr>, lost: multiset<Addr>)
    requires lost != multiset{}
    ensures m <= m + lost && m + lost != m
  {
    var a :| a in lost;
    assert (m + lost)[a] > m[a];
  }

  lemma StepLeaks(s: State, op: Op)
    requires s.store.rc.Keys == s.store.body.Keys && NULL !in s.store.rc && NULL !in s.leaked && Enabled(s, op)
    ensures s.leaked <= Step(s, op).leaked && NULL !in Step(s, op).leaked
    ensures Step(s, op).leaked == s.leaked <==> !Leaks(s, op)
  {
    StepLeaked(s, op);
    if Leaks(s, op) {
      Grows(s.leaked, Lost(s, op));
    }
  }

  /**
   Conservation over whole runs. From the empty heap, any run of operations -- failures and
   reused addresses included -- ends in a heap where no handle and no container slot names a freed
   object and every live object's count is its handles plus its slots plus what was leaked on it.
   */
  lemma Conservation(ops: seq<Op>, a: Addr)
    requires IsRun(EMPTY, ops) && a != NULL
    ensures var s := After(EMPTY, ops);
      && (forall k :: k in s.hs ==> Live(s.store, s.hs[k]))
      && Closed(s.store)
      && CountOf(s.store, a) == HandleRefs(s.hs)[a] + SlotRefs(s.store.body)[a] + s.leaked[a]
      && (a in s.store.body <==> CountOf(s.store, a) > 0)
  {
    EmptyIsValid();
    RunValid(EMPTY, ops);
    var s := After(EMPTY, ops);
    forall k | k in s.hs ensures Live(s.store, s.hs[k]) { HandleIsLive(s.store, s.hs, s.leaked, k); }
    GoodIsClosed(s.store, s.hs, s.leaked);
    assert CountOf(s.store, a) == (HandleRefs(s.hs) + SlotRefs(s.store.body) + s.leaked)[a];
  }

  /** In every reachable state no container reaches itself, and the store is what handles reach. */
  lemma NothingButTheReachable(ops: seq<Op>, a: Addr, p: seq<Addr>)
    requires IsRun(EMPTY, ops)
    ensures var s := After(EMPTY, ops);
      && (a in s.store.body <==> Reachable(s.store.body, s.hs, s.leaked, a))
      && (Path(s.store.body, p) && |p| > 1 ==> p[0] != p[|p| - 1])
  {
    EmptyIsValid();
    RunValid(EMPTY, ops);
    var s := After(EMPTY, ops);
    LiveIffReachable(s.store, s.hs, s.leaked, a);
    if Path(s.store.body, p) && |p| > 1 {
      NoCycle(s.store.body, p);
    }
  }

  /**
   When the last handle is gone the heap is empty -- exactly if every failing call of the run had
   released its argument, which is the condition under which the null swap is right.
   */
  lemma EmptyAtTheEnd(ops: seq<Op>)
    requires IsRun(EMPTY, ops) && After(EMPTY, ops).hs == map[]
    ensures After(EMPTY, ops).store == Store(map[], map[]) <==> LeakFree(EMPTY, ops)
  {
    EmptyIsValid();
    RunValid(EMPTY, ops);
    var s := After(EMPTY, ops);
    if LeakFree(EMPTY, ops) {
      NoHandlesNoObjects(s.store);
    } else if s.store == Store(map[], map[]) {
      var a :| a in s.leaked;
      OwedIsLive(s.store, s.hs, s.leaked, a);
    }
  }
}
