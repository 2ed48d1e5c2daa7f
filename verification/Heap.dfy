/**
 The engine heap as the bindings see it: objects with a reference count, containers that hold
 references to other objects, and the handles (`Value`s) that hold the rest.

 Every core call the bindings make is a composition of a few primitives -- retain, allocate,
 dismantle a sole-owned shell, release -- each proved once here. References that are neither in
 a handle nor in a container slot at some moment (a raw pointer between `into_raw` and the call
 that consumes it, the buffer a builder threads through its loop) are *owed*: a multiset beside
 the store. Conservation is then one equation that holds between any two core calls.
 */
module Heap {
  import opened Vectors

  type Addr = nat

  /** The null singleton: a static, never counted, never freed. */
  const NULL: Addr := 0

  datatype Body =
    | Scalar(ty: Elem, c: Cell)
    | Vector(v: Vec)
    | List(items: seq<Addr>)
    | Dict(keys: Addr, vals: Addr)

  type Bodies = map<Addr, Body>

  type Handles = map<nat, Addr>

  /** Live objects: their reference counts and their contents. */
  datatype Store = Store(rc: map<Addr, nat>, body: Bodies)

  function Kids(b: Body): seq<Addr>
  {
    match b
    case List(items) => items
    case Dict(keys, vals) => [keys, vals]
    case Scalar(_, _) => []
    case Vector(_) => []
  }

  predicate Live(s: Store, a: Addr)
  {
    a == NULL || a in s.body
  }

  // ---- core primitives ----

  /** `ray_retain`; a no-op on the null singleton. */
  function Retain(s: Store, a: Addr): Store
  {
    if a in s.rc then s.(rc := s.rc[a := s.rc[a] + 1]) else s
  }

  function RetainAll(s: Store, ps: seq<Addr>): Store
    decreases |ps|
  {
    if ps == [] then s else RetainAll(Retain(s, ps[0]), ps[1..])
  }

  function Alloc(s: Store, a: Addr, b: Body): Store
  {
    Store(s.rc[a := 1], s.body[a := b])
  }

  /** Take an object apart without releasing what its slots held. */
  function Dismantle(s: Store, a: Addr): Store
  {
    Store(s.rc - {a}, s.body - {a})
  }

  function Decrement(s: Store, a: Addr): Store
    requires a in s.rc && s.rc[a] > 1
  {
    s.(rc := s.rc[a := s.rc[a] - 1])
  }

  /**
   `ray_release` of every reference in `work`, cascading: an object whose last reference goes is
   removed and the references its slots held are released in turn.
   */
  function ReleaseAll(s: Store, work: seq<Addr>): Store
    requires s.rc.Keys == s.body.Keys
    decreases |s.rc.Keys|, |work|
  {
    if work == [] then s
    else
      var a, rest := work[0], work[1..];
      if a !in s.rc then ReleaseAll(s, rest)
      else if s.rc[a] > 1 then
        var t := Decrement(s, a);
        assert t.rc.Keys == s.rc.Keys;
        ReleaseAll(t, rest)
      else
        var t := Dismantle(s, a);
        assert t.rc.Keys == s.rc.Keys - {a};
        ReleaseAll(t, Kids(s.body[a]) + rest)
  }

  function Release(s: Store, a: Addr): Store
    requires s.rc.Keys == s.body.Keys
  {
    ReleaseAll(s, [a])
  }

  // ---- the references there are ----

  ghost function Pick(s: set<nat>): (x: nat)
    requires s != {}
    ensures x in s
  {
    var x :| x in s; x
  }

  /** One reference per handle. */
  ghost function HandleRefs(hs: Handles): multiset<Addr>
    decreases |hs.Keys|
  {
    if hs.Keys == {} then multiset{}
    else
      var k := Pick(hs.Keys);
      assert (hs - {k}).Keys == hs.Keys - {k};
      multiset{hs[k]} + HandleRefs(hs - {k})
  }

  /** One reference per container slot. */
  ghost function SlotRefs(body: Bodies): multiset<Addr>
    decreases |body.Keys|
  {
    if body.Keys == {} then multiset{}
    else
      var a := Pick(body.Keys);
      assert (body - {a}).Keys == body.Keys - {a};
      multiset(Kids(body[a])) + SlotRefs(body - {a})
  }

  lemma {:induction false} HandleRefsRemove(hs: Handles, k: nat)
    requires k in hs
    ensures HandleRefs(hs) == multiset{hs[k]} + HandleRefs(hs - {k})
    decreases |hs.Keys|
  {
    var j := Pick(hs.Keys);
    if j != k {
      assert (hs - {j}).Keys == hs.Keys - {j} && (hs - {k}).Keys == hs.Keys - {k};
      assert hs - {j} - {k} == hs - {k} - {j};
      var rest := HandleRefs(hs - {j} - {k});
      calc {
        HandleRefs(hs);
        multiset{hs[j]} + HandleRefs(hs - {j});
        { HandleRefsRemove(hs - {j}, k); }
        multiset{hs[j]} + (multiset{hs[k]} + rest);
        multiset{hs[k]} + (multiset{hs[j]} + rest);
        { HandleRefsRemove(hs - {k}, j); }
        multiset{hs[k]} + HandleRefs(hs - {k});
      }
    }
  }

  lemma HandleRefsAdd(hs: Handles, k: nat, a: Addr)
    requires k !in hs
    ensures HandleRefs(hs[k := a]) == multiset{a} + HandleRefs(hs)
  {
    HandleRefsRemove(hs[k := a], k);
    assert hs[k := a] - {k} == hs;
  }

  lemma {:induction false} HandleRefsOwner(hs: Handles, a: Addr)
    ensures a in HandleRefs(hs) <==> exists k :: k in hs && hs[k] == a
    decreases |hs.Keys|
  {
    if k :| k in hs && hs[k] == a {
      HandleRefsRemove(hs, k);
    } else if hs.Keys != {} {
      var k := Pick(hs.Keys);
      assert (hs - {k}).Keys == hs.Keys - {k};
      HandleRefsOwner(hs - {k}, a);
    }
  }

  lemma {:induction false} SlotRefsRemove(body: Bodies, a: Addr)
    requires a in body
    ensures SlotRefs(body) == multiset(Kids(body[a])) + SlotRefs(body - {a})
    decreases |body.Keys|
  {
    var j := Pick(body.Keys);
    if j != a {
      assert (body - {j}).Keys == body.Keys - {j} && (body - {a}).Keys == body.Keys - {a};
      assert body - {j} - {a} == body - {a} - {j};
      var rest, mine, others := SlotRefs(body - {j} - {a}), multiset(Kids(body[a])), multiset(Kids(body[j]));
      calc {
        SlotRefs(body);
        others + SlotRefs(body - {j});
        { SlotRefsRemove(body - {j}, a); }
        others + (mine + rest);
        mine + (others + rest);
        { SlotRefsRemove(body - {a}, j); }
        mine + SlotRefs(body - {a});
      }
    }
  }

  lemma SlotRefsAdd(body: Bodies, a: Addr, b: Body)
    requires a !in body
    ensures SlotRefs(body[a := b]) == multiset(Kids(b)) + SlotRefs(body)
  {
    SlotRefsRemove(body[a := b], a);
    assert body[a := b] - {a} == body;
  }

  lemma {:induction false} SlotRefsOwner(body: Bodies, x: Addr)
    ensures x in SlotRefs(body) <==> exists a :: a in body && x in Kids(body[a])
    decreases |body.Keys|
  {
    if a :| a in body && x in Kids(body[a]) {
      SlotRefsRemove(body, a);
    } else if body.Keys != {} {
      var a := Pick(body.Keys);
      assert (body - {a}).Keys == body.Keys - {a};
      SlotRefsOwner(body - {a}, x);
    }
  }

  // ---- conservation and acyclicity ----

  function CountOf(s: Store, a: Addr): nat
  {
    if a in s.rc then s.rc[a] else 0
  }

  /** The counts are those of `refs`; an object that is not there has count zero. */
  ghost predicate Balanced(s: Store, refs: multiset<Addr>)
  {
    && NULL !in s.rc
    && s.rc.Keys == s.body.Keys
    && (forall a :: a in s.rc ==> s.rc[a] >= 1)
    && (forall a: Addr :: a != NULL ==> CountOf(s, a) == refs[a])
  }

  /**
   Conservation: every count is the number of handles, slots and owed references on the object,
   and is never zero. An object that is not there has count zero, so nothing refers to it.
   */
  ghost predicate Counted(s: Store, hs: Handles, owed: multiset<Addr>)
  {
    Balanced(s, HandleRefs(hs) + SlotRefs(s.body) + owed)
  }

  /** `rank` strictly decreases from a container to what it holds. */
  ghost predicate Ranked(body: Bodies, rank: map<Addr, nat>, top: nat)
  {
    && (forall a :: a in body ==> a in rank && rank[a] < top)
    && (forall a, x :: a in body && x in Kids(body[a]) && x in body ==> rank[x] < rank[a])
  }

  ghost predicate Acyclic(body: Bodies)
  {
    exists rank: map<Addr, nat>, top: nat :: Ranked(body, rank, top)
  }

  ghost predicate Good(s: Store, hs: Handles, owed: multiset<Addr>)
  {
    Counted(s, hs, owed) && Acyclic(s.body)
  }

  /** Every slot names a live object. */
  ghost predicate Closed(s: Store)
  {
    forall a, x :: a in s.body && x in Kids(s.body[a]) ==> Live(s, x)
  }

  lemma GoodIsClosed(s: Store, hs: Handles, owed: multiset<Addr>)
    requires Counted(s, hs, owed)
    ensures Closed(s)
  {
    forall a, x | a in s.body && x in Kids(s.body[a]) ensures Live(s, x) {
      SlotRefsOwner(s.body, x);
      assert x != NULL ==> CountOf(s, x) >= 1;
    }
  }

  lemma OwedIsLive(s: Store, hs: Handles, owed: multiset<Addr>, a: Addr)
    requires Counted(s, hs, owed) && a in owed
    ensures Live(s, a)
  {
    assert a != NULL ==> CountOf(s, a) >= 1;
  }

  lemma HandleIsLive(s: Store, hs: Handles, owed: multiset<Addr>, k: nat)
    requires Counted(s, hs, owed) && k in hs
    ensures Live(s, hs[k])
  {
    HandleRefsRemove(hs, k);
    assert hs[k] != NULL ==> CountOf(s, hs[k]) >= 1;
  }

  // ---- the primitives keep them ----

  lemma RetainBalanced(s: Store, refs: multiset<Addr>, a: Addr)
    requires Balanced(s, refs) && Live(s, a)
    ensures Balanced(Retain(s, a), refs + multiset{a})
  {}

  lemma RetainGood(s: Store, hs: Handles, owed: multiset<Addr>, a: Addr)
    requires Good(s, hs, owed) && Live(s, a)
    ensures Good(Retain(s, a), hs, owed + multiset{a})
  {
    var refs := HandleRefs(hs) + SlotRefs(s.body);
    RetainBalanced(s, refs + owed, a);
    assert refs + owed + multiset{a} == refs + (owed + multiset{a});
  }

  lemma {:induction false} RetainAllGood(s: Store, hs: Handles, owed: multiset<Addr>, ps: seq<Addr>)
    requires Good(s, hs, owed)
    requires forall x :: x in ps ==> Live(s, x)
    ensures Good(RetainAll(s, ps), hs, owed + multiset(ps))
    ensures RetainAll(s, ps).body == s.body
    decreases |ps|
  {
    if ps == [] {
      assert owed + multiset(ps) == owed;
    } else {
      var t := Retain(s, ps[0]);
      RetainGood(s, hs, owed, ps[0]);
      assert t.body == s.body;
      forall x | x in ps[1..] ensures Live(t, x) { assert x in ps; }
      RetainAllGood(t, hs, owed + multiset{ps[0]}, ps[1..]);
      assert ps == [ps[0]] + ps[1..];
      assert owed + multiset{ps[0]} + multiset(ps[1..]) == owed + multiset(ps);
    }
  }

  /** A new object takes over the references its slots are given and is owed to its creator. */
  lemma AllocGood(s: Store, hs: Handles, owed: multiset<Addr>, a: Addr, b: Body)
    requires a != NULL && a !in s.rc
    requires Good(s, hs, owed + multiset(Kids(b)))
    ensures Good(Alloc(s, a, b), hs, owed + multiset{a})
  {
    var given, refs := multiset(Kids(b)), HandleRefs(hs) + SlotRefs(s.body);
    SlotRefsAdd(s.body, a, b);
    assert Alloc(s, a, b).body == s.body[a := b];
    AllocBalanced(s, refs + (owed + given), a, b);
    assert refs + (owed + given) + multiset{a}
        == HandleRefs(hs) + (given + SlotRefs(s.body)) + (owed + multiset{a});
    AllocAcyclic(s, hs, owed, a, b);
  }

  lemma AllocBalanced(s: Store, refs: multiset<Addr>, a: Addr, b: Body)
    requires a != NULL && a !in s.rc && Balanced(s, refs)
    ensures Balanced(Alloc(s, a, b), refs + multiset{a})
  {
    assert CountOf(s, a) == 0;
  }

  lemma AllocAcyclic(s: Store, hs: Handles, owed: multiset<Addr>, a: Addr, b: Body)
    requires a != NULL && a !in s.rc
    requires Good(s, hs, owed + multiset(Kids(b)))
    ensures Acyclic(s.body[a := b])
  {
    var rank: map<Addr, nat>, top: nat :| Ranked(s.body, rank, top);
    var t, rank' := s.body[a := b], rank[a := top];
    GoodIsClosed(s, hs, owed + multiset(Kids(b)));
    forall o, x | o in t && x in Kids(t[o]) && x in t ensures rank'[x] < rank'[o] {
      if o == a {
        assert x in multiset(Kids(b));
        OwedIsLive(s, hs, owed + multiset(Kids(b)), x);
      } else {
        assert x in Kids(s.body[o]) && Live(s, x);
      }
    }
    assert Ranked(t, rank', top + 1);
  }

  /**
   Dismantling the shell of an object whose only reference is owed: the object goes, its slots'
   references become owed. In-place growth is this followed by an allocation.
   */
  lemma DismantleGood(s: Store, hs: Handles, owed: multiset<Addr>, a: Addr)
    requires Good(s, hs, owed + multiset{a}) && a in s.rc && s.rc[a] == 1
    ensures Good(Dismantle(s, a), hs, owed + multiset(Kids(s.body[a])))
    ensures a !in owed && a !in HandleRefs(hs) && a !in SlotRefs(s.body)
  {
    var kids, rest := multiset(Kids(s.body[a])), SlotRefs(s.body - {a});
    SlotRefsRemove(s.body, a);
    assert HandleRefs(hs) + SlotRefs(s.body) + (owed + multiset{a})
        == HandleRefs(hs) + rest + (owed + kids) + multiset{a};
    assert CountOf(s, a) == 1;
    DismantleBalanced(s, HandleRefs(hs) + rest + (owed + kids), a);
    var rank: map<Addr, nat>, top: nat :| Ranked(s.body, rank, top);
    assert Ranked(Dismantle(s, a).body, rank, top);
  }

  lemma DismantleBalanced(s: Store, refs: multiset<Addr>, a: Addr)
    requires Balanced(s, refs + multiset{a}) && a in s.rc && s.rc[a] == 1
    ensures Balanced(Dismantle(s, a), refs)
  {
    assert CountOf(s, a) == 1;
    forall x: Addr | x != NULL ensures CountOf(Dismantle(s, a), x) == refs[x] {
      assert CountOf(s, x) == (refs + multiset{a})[x];
    }
  }

  lemma DecrementGood(s: Store, hs: Handles, owed: multiset<Addr>, a: Addr)
    requires Good(s, hs, owed + multiset{a}) && a in s.rc && s.rc[a] > 1
    ensures Good(Decrement(s, a), hs, owed)
  {
    var refs := HandleRefs(hs) + SlotRefs(s.body);
    assert refs + (owed + multiset{a}) == refs + owed + multiset{a};
    DecrementBalanced(s, refs + owed, a);
  }

  lemma DecrementBalanced(s: Store, refs: multiset<Addr>, a: Addr)
    requires Balanced(s, refs + multiset{a}) && a in s.rc && s.rc[a] > 1
    ensures Balanced(Decrement(s, a), refs)
  {
    forall x: Addr | x != NULL ensures CountOf(Decrement(s, a), x) == refs[x] {
      assert CountOf(s, x) == (refs + multiset{a})[x];
    }
  }

  /** `t` is `s` with some objects gone and the others' contents as they were. */
  predicate Remains(s: Store, t: Store)
  {
    && t.body.Keys <= s.body.Keys
    && (forall x :: x in t.body ==> t.body[x] == s.body[x])
  }

  /** The cascade discharges exactly the references it was given. */
  lemma {:induction false} ReleaseAllGood(s: Store, hs: Handles, owed: multiset<Addr>, work: seq<Addr>)
    requires Good(s, hs, owed + multiset(work))
    ensures Good(ReleaseAll(s, work), hs, owed) && Remains(s, ReleaseAll(s, work))
    decreases |s.rc.Keys|, |work|
  {
    if work == [] {
      assert owed + multiset(work) == owed;
    } else {
      var a, rest := work[0], work[1..];
      assert work == [a] + rest;
      assert owed + multiset(work) == owed + multiset(rest) + multiset{a};
      OwedIsLive(s, hs, owed + multiset(work), a);
      if a !in s.rc {
        assert a == NULL;
        DropNullGood(s, hs, owed + multiset(rest));
        ReleaseAllGood(s, hs, owed, rest);
      } else if s.rc[a] > 1 {
        DecrementGood(s, hs, owed + multiset(rest), a);
        assert Decrement(s, a).rc.Keys == s.rc.Keys;
        ReleaseAllGood(Decrement(s, a), hs, owed, rest);
      } else {
        var kids := Kids(s.body[a]);
        DismantleGood(s, hs, owed + multiset(rest), a);
        assert Dismantle(s, a).rc.Keys == s.rc.Keys - {a};
        assert owed + multiset(rest) + multiset(kids) == owed + multiset(kids + rest);
        ReleaseAllGood(Dismantle(s, a), hs, owed, kids + rest);
      }
    }
  }

  lemma DropNullGood(s: Store, hs: Handles, owed: multiset<Addr>)
    requires Good(s, hs, owed + multiset{NULL})
    ensures Good(s, hs, owed)
  {
    var refs := HandleRefs(hs) + SlotRefs(s.body);
    forall x: Addr | x != NULL ensures CountOf(s, x) == (refs + owed)[x] {
      assert CountOf(s, x) == (refs + (owed + multiset{NULL}))[x];
    }
  }

  lemma ReleaseGood(s: Store, hs: Handles, owed: multiset<Addr>, a: Addr)
    requires Good(s, hs, owed + multiset{a})
    ensures Good(Release(s, a), hs, owed) && Remains(s, Release(s, a))
  {
    assert multiset([a]) == multiset{a};
    ReleaseAllGood(s, hs, owed, [a]);
  }

  /** An owed reference moves into a handle (`from_owned`, `replace_ptr_consumed`). */
  lemma IntoHandleGood(s: Store, hs: Handles, owed: multiset<Addr>, k: nat, a: Addr)
    requires Good(s, hs, owed + multiset{a}) && k !in hs
    ensures Good(s, hs[k := a], owed)
  {
    HandleRefsAdd(hs, k, a);
    assert multiset{a} + HandleRefs(hs) + SlotRefs(s.body) + owed
        == HandleRefs(hs) + SlotRefs(s.body) + (owed + multiset{a});
  }

  /** And out of one (`into_raw`, `drop`). */
  lemma OutOfHandleGood(s: Store, hs: Handles, owed: multiset<Addr>, k: nat)
    requires Good(s, hs, owed) && k in hs
    ensures Good(s, hs - {k}, owed + multiset{hs[k]})
  {
    HandleRefsRemove(hs, k);
    assert multiset{hs[k]} + HandleRefs(hs - {k}) + SlotRefs(s.body) + owed
        == HandleRefs(hs - {k}) + SlotRefs(s.body) + (owed + multiset{hs[k]});
  }

  // ---- what acyclicity buys ----

  /** `p` walks from containers into their slots. */
  ghost predicate Path(body: Bodies, p: seq<Addr>)
  {
    && |p| > 0
    && (forall i :: 0 <= i < |p| ==> p[i] in body)
    && (forall i :: 0 < i < |p| ==> p[i] in Kids(body[p[i - 1]]))
  }

  lemma {:induction false} PathDescends(body: Bodies, rank: map<Addr, nat>, top: nat, p: seq<Addr>)
    requires Ranked(body, rank, top) && Path(body, p) && |p| > 1
    ensures rank[p[|p| - 1]] < rank[p[0]]
    decreases |p|
  {
    var n := |p| - 1;
    assert p[n] in Kids(body[p[n - 1]]);
    if n > 1 {
      assert p[..n][n - 1] == p[n - 1] && p[..n][0] == p[0];
      PathDescends(body, rank, top, p[..n]);
    }
  }

  /** No object contains itself, at any depth. */
  lemma NoCycle(body: Bodies, p: seq<Addr>)
    requires Acyclic(body) && Path(body, p) && |p| > 1
    ensures p[0] != p[|p| - 1]
  {
    var rank: map<Addr, nat>, top: nat :| Ranked(body, rank, top);
    PathDescends(body, rank, top, p);
  }

  /** The object at `a` is `l`, or holds it at some depth. */
  ghost predicate Leads(body: Bodies, a: Addr, l: Addr)
  {
    exists p :: Path(body, p) && p[0] == a && p[|p| - 1] == l
  }

  lemma LeadsToSelf(body: Bodies, a: Addr)
    requires a in body
    ensures Leads(body, a, a)
  {
    assert Path(body, [a]);
  }

  lemma LeadsThrough(body: Bodies, a: Addr, x: Addr, l: Addr)
    requires a in body && x in Kids(body[a]) && Leads(body, x, l)
    ensures Leads(body, a, l)
  {
    var p :| Path(body, p) && p[0] == x && p[|p| - 1] == l;
    var q := [a] + p;
    forall i | 0 < i < |q| ensures q[i] in Kids(body[q[i - 1]]) {
      if i > 1 { assert q[i] == p[i - 1] && q[i - 1] == p[i - 2]; }
    }
    assert Path(body, q);
  }

  lemma LeadsToKid(body: Bodies, a: Addr, o: Addr, x: Addr)
    requires Leads(body, a, o) && x in body && x in Kids(body[o])
    ensures Leads(body, a, x)
  {
    var p :| Path(body, p) && p[0] == a && p[|p| - 1] == o;
    PathExtends(body, p, x);
    assert (p + [x])[0] == a && (p + [x])[|p|] == x;
  }

  /** Whatever leads to `l` is `l`, or `l` is in somebody's slot. */
  lemma LeadsBySlot(body: Bodies, a: Addr, l: Addr)
    requires Leads(body, a, l)
    ensures a == l || l in SlotRefs(body)
  {
    var p :| Path(body, p) && p[0] == a && p[|p| - 1] == l;
    SlotRefsOwner(body, l);
    if |p| > 1 { assert p[|p| - 1] in Kids(body[p[|p| - 2]]); }
  }

  ghost predicate Rooted(hs: Handles, owed: multiset<Addr>, a: Addr)
  {
    a in owed || exists k :: k in hs && hs[k] == a
  }

  /** `a` is reached from a handle, or from an owed reference, through container slots. */
  ghost predicate Reachable(body: Bodies, hs: Handles, owed: multiset<Addr>, a: Addr)
  {
    exists p :: Path(body, p) && p[|p| - 1] == a && Rooted(hs, owed, p[0])
  }

  /** A positive count has somebody behind it. */
  lemma HeldBySomeone(s: Store, hs: Handles, owed: multiset<Addr>, a: Addr)
    requires Counted(s, hs, owed) && a in s.body
    ensures Rooted(hs, owed, a) || exists o :: o in s.body && a in Kids(s.body[o])
  {
    HandleRefsOwner(hs, a);
    SlotRefsOwner(s.body, a);
    assert CountOf(s, a) >= 1;
  }

  lemma PathExtends(body: Bodies, p: seq<Addr>, a: Addr)
    requires Path(body, p) && a in body && a in Kids(body[p[|p| - 1]])
    ensures Path(body, p + [a])
  {
    var q := p + [a];
    forall j | 0 < j < |q| ensures q[j] in Kids(body[q[j - 1]]) {
      if j < |p| { assert q[j] == p[j] && q[j - 1] == p[j - 1]; }
    }
  }

  lemma {:induction false} LiveIsReachable(s: Store, hs: Handles, owed: multiset<Addr>,
                                           rank: map<Addr, nat>, top: nat, a: Addr)
    requires Counted(s, hs, owed) && Ranked(s.body, rank, top) && a in s.body
    ensures Reachable(s.body, hs, owed, a)
    decreases top - rank[a]
  {
    HeldBySomeone(s, hs, owed, a);
    if Rooted(hs, owed, a) {
      assert Path(s.body, [a]) && [a][0] == a;
    } else {
      var o :| o in s.body && a in Kids(s.body[o]);
      LiveIsReachable(s, hs, owed, rank, top, o);
      ReachableStep(s.body, hs, owed, o, a);
    }
  }

  lemma ReachableStep(body: Bodies, hs: Handles, owed: multiset<Addr>, o: Addr, a: Addr)
    requires Reachable(body, hs, owed, o) && o in body && a in body && a in Kids(body[o])
    ensures Reachable(body, hs, owed, a)
  {
    var p :| Path(body, p) && p[|p| - 1] == o && Rooted(hs, owed, p[0]);
    PathExtends(body, p, a);
    assert (p + [a])[0] == p[0] && (p + [a])[|p|] == a;
  }

  /**
   Reference counting collects exactly the garbage: an object is in the store if and only if a
   handle (or an owed reference) still leads to it. Counts alone would not give this -- a cycle
   would keep itself alive -- and acyclicity alone would not either.
   */
  lemma LiveIffReachable(s: Store, hs: Handles, owed: multiset<Addr>, a: Addr)
    requires Good(s, hs, owed)
    ensures a in s.body <==> Reachable(s.body, hs, owed, a)
  {
    var rank: map<Addr, nat>, top: nat :| Ranked(s.body, rank, top);
    if a in s.body {
      LiveIsReachable(s, hs, owed, rank, top, a);
    }
  }

  /** With no handle and nothing owed, the heap is empty. */
  lemma NoHandlesNoObjects(s: Store)
    requires Good(s, map[], multiset{})
    ensures s == Store(map[], map[])
  {
    forall a | a in s.body ensures false {
      LiveIffReachable(s, map[], multiset{}, a);
    }
  }
}
