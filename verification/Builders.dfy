/**
 The select and update builders: the dictionary each compiles to, and its `where` entry (query.rs).
 */
module Builders {
  import opened Common
  import opened Ops
  import opened Query
  import opened Lowering

  type Named = (string, Expr)

  datatype SelectQuery = SelectQuery(from: Value, proj: seq<Named>, wheres: seq<Expr>, groups: seq<Named>)

  datatype UpdateQuery = UpdateQuery(from: Value, sets: seq<Named>, wheres: seq<Expr>)

  // ---- the conjunction of predicates ----

  /** Predicates joined by `and`, from the left. */
  function Combined(ws: seq<Expr>): Expr
    requires ws != []
  {
    if |ws| == 1 then ws[0] else Op(And, [Combined(ws[..|ws| - 1]), ws[|ws| - 1]])
  }

  /** Each further predicate is joined to the right of those before it. */
  lemma JoinedInTurn(ws: seq<Expr>, w: Expr)
    ensures Combined([w]) == w
    ensures ws != [] ==> Combined(ws + [w]) == Op(And, [Combined(ws), w])
  {
    assert (ws + [w])[..|ws|] == ws;
  }

  /** A truth value for `n` rows: one flag for all of them, or a mask with a bit for each. */
  predicate Sized(v: Value, n: nat)
  {
    v.Flag? || (v.Mask? && |v.bits| == n)
  }

  predicate Holds(v: Value, row: nat)
    requires v.Flag? || (v.Mask? && row < |v.bits|)
  {
    if v.Flag? then v.b else v.bits[row]
  }

  /** Every value has a truth for each of `n` rows. */
  predicate AllSized(vs: seq<Value>, n: nat)
  {
    forall k :: 0 <= k < |vs| ==> Sized(vs[k], n)
  }

  predicate AllHold(vs: seq<Value>, row: nat)
    requires forall k :: 0 <= k < |vs| ==> vs[k].Flag? || (vs[k].Mask? && row < |vs[k].bits|)
  {
    forall k :: 0 <= k < |vs| ==> Holds(vs[k], row)
  }

  /** `and` of two truth values is their conjunction, row by row. */
  lemma AndHolds(eng: Engine, a: Value, b: Value, n: nat)
    requires Sized(a, n) && Sized(b, n)
    ensures var r := AndOf(eng, [a, b]);
      && r.Some? && Sized(r.value, n) && (r.value.Flag? <==> a.Flag? && b.Flag?)
      && forall row :: 0 <= row < n ==> (Holds(r.value, row) <==> Holds(a, row) && Holds(b, row))
  {}

  /** What the conjunction of predicates with these values comes to. */
  function AndAll(eng: Engine, vs: seq<Value>): Option<Value>
    requires vs != []
  {
    if |vs| == 1 then Some(vs[0])
    else
      var a := AndAll(eng, vs[..|vs| - 1]);
      if a.Some? then AndOf(eng, [a.value, vs[|vs| - 1]]) else None
  }

  ghost predicate Means(eng: Engine, env: Env, ws: seq<Expr>, vs: seq<Value>)
  {
    |ws| == |vs| && forall k :: 0 <= k < |ws| ==> Meaning(eng, env, ws[k]) == Some(vs[k])
  }

  lemma AndMeaning(eng: Engine, env: Env, a: Expr, b: Expr)
    ensures Meaning(eng, env, Op(And, [a, b])) ==
            (var v, w := Meaning(eng, env, a), Meaning(eng, env, b);
             if v.Some? && w.Some? then AndOf(eng, [v.value, w.value]) else None)
  {
    PlainMeaning(eng, env, And, [a, b]);
    MeaningsTwo(eng, env, a, b);
  }

  lemma {:induction false} CombinedMeaning(eng: Engine, env: Env, ws: seq<Expr>, vs: seq<Value>)
    requires ws != [] && Means(eng, env, ws, vs)
    ensures Meaning(eng, env, Combined(ws)) == AndAll(eng, vs)
    decreases |ws|
  {
    if |ws| > 1 {
      var init := ws[..|ws| - 1];
      CombinedMeaning(eng, env, init, vs[..|ws| - 1]);
      AndMeaning(eng, env, Combined(init), ws[|ws| - 1]);
      assert Combined(ws) == Op(And, [Combined(init), ws[|ws| - 1]]);
    }
  }

  /** However many predicates are added, the conjunction holds on a row iff every one of them does. */
  lemma {:induction false} AndAllHolds(eng: Engine, vs: seq<Value>, n: nat)
    requires vs != [] && AllSized(vs, n)
    ensures var r := AndAll(eng, vs);
      && r.Some? && Sized(r.value, n) && (r.value.Flag? <==> forall k :: 0 <= k < |vs| ==> vs[k].Flag?)
      && forall row :: 0 <= row < n ==> (Holds(r.value, row) <==> AllHold(vs, row))
    decreases |vs|
  {
    if |vs| > 1 {
      var init, last := vs[..|vs| - 1], vs[|vs| - 1];
      AndAllHolds(eng, init, n);
      AndHolds(eng, AndAll(eng, init).value, last, n);
      assert forall k :: 0 <= k < |init| ==> vs[k] == init[k];
    }
  }

  /** Masks and flags can be combined exactly when the masks agree on the number of rows. */
  lemma {:induction false} CombinableExactly(eng: Engine, vs: seq<Value>)
    requires vs != [] && forall k :: 0 <= k < |vs| ==> vs[k].Mask? || vs[k].Flag?
    ensures AndAll(eng, vs).Some? <==> exists n :: AllSized(vs, n)
    decreases |vs|
  {
    if |vs| == 1 {
      assert AllSized(vs, if vs[0].Mask? then |vs[0].bits| else 0);
    } else if n :| AllSized(vs, n) {
      AndAllHolds(eng, vs, n);
    } else {
      var init, last := vs[..|vs| - 1], vs[|vs| - 1];
      CombinableExactly(eng, init);
      if n :| AllSized(init, n) {
        AndAllHolds(eng, init, n);
        var a := AndAll(eng, init).value;
        assert !AllSized(vs, n);
        assert !Sized(last, n);
        if a.Flag? {
          assert forall k :: 0 <= k < |init| ==> vs[k] == init[k];
          assert AllSized(vs, |last.bits|);
        }
      }
    }
  }

  lemma {:induction false} CombinedKeeps(ws: seq<Expr>)
    requires ws != [] && AllPlain(ws) && AllLowerable(ws)
    ensures Plain(Combined(ws)) && Lowerable(Combined(ws))
    decreases |ws|
  {
    var init, last := ws[..|ws| - 1], ws[|ws| - 1];
    PlainArgs(ws, |init|);
    LowerableAt(ws, |init|);
    if |ws| > 1 {
      PrefixKeeps(ws, |init|);
      CombinedKeeps(init);
      FewLowerable([Combined(init), last]);
      assert [Combined(init), last][1..] == [last] && [last][1..] == [];
      assert AllPlain([last]);
    }
  }

  lemma {:induction false} PrefixKeeps(ws: seq<Expr>, n: nat)
    requires n <= |ws| && AllPlain(ws) && AllLowerable(ws)
    ensures AllPlain(ws[..n]) && AllLowerable(ws[..n])
  {
    if n > 0 {
      PrefixKeeps(ws[1..], n - 1);
      assert ws[..n][1..] == ws[1..][..n - 1];
    }
  }

  /**
   The entry the builders put under `where`: evaluated over `n` rows it has a truth value for each,
   true exactly on the rows every added predicate holds on.
   */
  lemma WhereKeepsExactly(eng: Engine, env: Env, ws: seq<Expr>, vs: seq<Value>, n: nat)
    requires SumLaws(eng) && ws != [] && AllPlain(ws) && AllLowerable(ws)
    requires Means(eng, env, ws, vs) && AllSized(vs, n)
    ensures var r := EvalAst(eng, env, CompileQuery(Combined(ws)));
      && r.Some? && Sized(r.value, n)
      && forall row :: 0 <= row < n ==> (Holds(r.value, row) <==> AllHold(vs, row))
  {
    CombinedKeeps(ws);
    CombinedMeaning(eng, env, ws, vs);
    AndAllHolds(eng, vs, n);
    QueryCompilationRefines(eng, env, Combined(ws));
  }

  // ---- the dictionaries ----

  function Names(ps: seq<Named>): (r: seq<string>)
    ensures |r| == |ps|
  {
    seq(|ps|, i requires 0 <= i < |ps| => ps[i].0)
  }

  function Compiled(ps: seq<Named>): (r: seq<Value>)
    ensures |r| == |ps|
  {
    seq(|ps|, i requires 0 <= i < |ps| => CompileQuery(ps[i].1))
  }

  function WhereKeys(ws: seq<Expr>): seq<string>
  {
    if ws == [] then [] else ["where"]
  }

  function WhereVals(ws: seq<Expr>): seq<Value>
  {
    if ws == [] then [] else [CompileQuery(Combined(ws))]
  }

  function SelectDict(q: SelectQuery): Value
  {
    var byKeys := if q.groups == [] then [] else ["by"];
    var byVals := if q.groups == [] then [] else [Value.Dict(Names(q.groups), Compiled(q.groups))];
    Value.Dict(Names(q.proj) + byKeys + ["from"] + WhereKeys(q.wheres),
               Compiled(q.proj) + byVals + [q.from] + WhereVals(q.wheres))
  }

  function UpdateDict(q: UpdateQuery): Value
  {
    Value.Dict(Names(q.sets) + ["from"] + WhereKeys(q.wheres),
               Compiled(q.sets) + [q.from] + WhereVals(q.wheres))
  }

  /** The loops over projections, groupings and assignments. */
  method CompileNamed(ps: seq<Named>) returns (keys: seq<string>, vals: seq<Value>)
    ensures keys == Names(ps) && vals == Compiled(ps)
  {
    keys, vals := [], [];
    for i := 0 to |ps|
      invariant keys == Names(ps)[..i] && vals == Compiled(ps)[..i]
    {
      var v := Lower(DagRewrite(ps[i].1));
      keys, vals := keys + [ps[i].0], vals + [v];
    }
  }

  /** The loop that folds the predicates together. */
  method CompileWhere(ws: seq<Expr>) returns (keys: seq<string>, vals: seq<Value>)
    ensures keys == WhereKeys(ws) && vals == WhereVals(ws)
  {
    keys, vals := [], [];
    if ws != [] {
      var combined := ws[0];
      for i := 1 to |ws|
        invariant combined == Combined(ws[..i])
      {
        assert ws[..i + 1][..i] == ws[..i];
        combined := Op(And, [combined, ws[i]]);
      }
      assert ws[..|ws|] == ws;
      var v := Lower(DagRewrite(combined));
      keys, vals := ["where"], [v];
    }
  }

  /** `Select::compile_dict`. */
  method CompileSelect(q: SelectQuery) returns (d: Value)
    ensures d == SelectDict(q)
    ensures Laid(d, q.proj, ClauseKeys(q.groups != [], q.wheres != []), SelectVals(q))
    ensures Laid(GroupDict(q), q.groups, [], [])
  {
    SelectLaid(q);
    var keys, vals := CompileNamed(q.proj);
    if q.groups != [] {
      var bk, bv := CompileNamed(q.groups);
      keys, vals := keys + ["by"], vals + [Value.Dict(bk, bv)];
    }
    keys, vals := keys + ["from"], vals + [q.from];
    var wk, wv := CompileWhere(q.wheres);
    d := Value.Dict(keys + wk, vals + wv);
  }

  /** `Update::compile_dict`. */
  method CompileUpdate(q: UpdateQuery) returns (d: Value)
    ensures d == UpdateDict(q)
    ensures Laid(d, q.sets, ClauseKeys(false, q.wheres != []), UpdateVals(q))
  {
    UpdateLaid(q);
    var keys, vals := CompileNamed(q.sets);
    keys, vals := keys + ["from"], vals + [q.from];
    var wk, wv := CompileWhere(q.wheres);
    d := Value.Dict(keys + wk, vals + wv);
  }

  // ---- what the engine finds in them ----

  /** Under key `k` there is `v`, and nothing else. */
  predicate Holding(d: Value, k: string, v: Value)
    requires d.Dict? && |d.keys| == |d.vals|
  {
    && (exists i :: 0 <= i < |d.keys| && d.keys[i] == k && d.vals[i] == v)
    && (forall i :: 0 <= i < |d.keys| && d.keys[i] == k ==> d.vals[i] == v)
  }

  /** No projected column carries the name of a clause with another value. */
  predicate Unclaimed(ps: seq<Named>, k: string, v: Value)
  {
    forall i :: 0 <= i < |ps| && ps[i].0 == k ==> CompileQuery(ps[i].1) == v
  }

  /** The dictionary lists `ps`, names and compiled expressions in order, and then `ks` with `vs`. */
  predicate Laid(d: Value, ps: seq<Named>, ks: seq<string>, vs: seq<Value>)
  {
    && d.Dict? && |ks| == |vs| && |d.keys| == |d.vals| == |ps| + |ks|
    && (forall i :: 0 <= i < |ps| ==> d.keys[i] == ps[i].0 && d.vals[i] == CompileQuery(ps[i].1))
    && (forall j :: 0 <= j < |ks| ==> d.keys[|ps| + j] == ks[j] && d.vals[|ps| + j] == vs[j])
  }

  lemma LaidOut(ps: seq<Named>, ks: seq<string>, vs: seq<Value>)
    requires |ks| == |vs|
    ensures Laid(Value.Dict(Names(ps) + ks, Compiled(ps) + vs), ps, ks, vs)
  {}

  /** The clauses that follow: `by` and `where` only if there is something to put under them. */
  function ClauseKeys(grouped: bool, filtered: bool): seq<string>
  {
    if grouped then (if filtered then ["by", "from", "where"] else ["by", "from"])
    else (if filtered then ["from", "where"] else ["from"])
  }

  function SelectVals(q: SelectQuery): seq<Value>
  {
    if q.groups != [] then
      (if q.wheres != [] then [GroupDict(q), q.from, CompileQuery(Combined(q.wheres))] else [GroupDict(q), q.from])
    else (if q.wheres != [] then [q.from, CompileQuery(Combined(q.wheres))] else [q.from])
  }

  function UpdateVals(q: UpdateQuery): seq<Value>
  {
    if q.wheres != [] then [q.from, CompileQuery(Combined(q.wheres))] else [q.from]
  }

  function GroupDict(q: SelectQuery): Value
  {
    Value.Dict(Names(q.groups), Compiled(q.groups))
  }

  /** A select lists its projections, then its clauses; the groups are a dictionary of their own. */
  lemma SelectLaid(q: SelectQuery)
    ensures Laid(SelectDict(q), q.proj, ClauseKeys(q.groups != [], q.wheres != []), SelectVals(q))
    ensures Laid(GroupDict(q), q.groups, [], [])
  {
    var ks, vs := ClauseKeys(q.groups != [], q.wheres != []), SelectVals(q);
    LaidOut(q.proj, ks, vs);
    LaidOut(q.groups, [], []);
    assert GroupDict(q) == Value.Dict(Names(q.groups) + [], Compiled(q.groups) + []);
    SelectIs(q);
  }

  lemma SelectIs(q: SelectQuery)
    ensures SelectDict(q) == Value.Dict(Names(q.proj) + ClauseKeys(q.groups != [], q.wheres != []),
                                        Compiled(q.proj) + SelectVals(q))
  {
    Regrouped(Names(q.proj), if q.groups == [] then [] else ["by"], ["from"], WhereKeys(q.wheres));
    Regrouped(Compiled(q.proj), if q.groups == [] then [] else [GroupDict(q)], [q.from], WhereVals(q.wheres));
    assert ClauseKeys(q.groups != [], q.wheres != []) ==
           (if q.groups == [] then [] else ["by"]) + (["from"] + WhereKeys(q.wheres));
    assert SelectVals(q) == (if q.groups == [] then [] else [GroupDict(q)]) + ([q.from] + WhereVals(q.wheres));
  }

  lemma Regrouped<T>(a: seq<T>, b: seq<T>, c: seq<T>, d: seq<T>)
    ensures a + b + c + d == a + (b + (c + d))
  {}

  /** An update lists its assignments, then its clauses. */
  lemma UpdateLaid(q: UpdateQuery)
    ensures Laid(UpdateDict(q), q.sets, ClauseKeys(false, q.wheres != []), UpdateVals(q))
  {
    var ks, vs := ClauseKeys(false, q.wheres != []), UpdateVals(q);
    LaidOut(q.sets, ks, vs);
    assert ks == ["from"] + WhereKeys(q.wheres) && vs == [q.from] + WhereVals(q.wheres);
    assert UpdateDict(q) == Value.Dict(Names(q.sets) + ks, Compiled(q.sets) + vs);
  }

  lemma ClauseFound(d: Value, ps: seq<Named>, ks: seq<string>, vs: seq<Value>, j: nat)
    requires Laid(d, ps, ks, vs) && j < |ks| && forall i :: 0 <= i < |ks| && i != j ==> ks[i] != ks[j]
    ensures Holding(d, ks[j], vs[j]) <==> Unclaimed(ps, ks[j], vs[j])
  {
    assert d.keys[|ps| + j] == ks[j];
    forall i | 0 <= i < |d.keys| && d.keys[i] == ks[j] && i >= |ps| ensures i == |ps| + j {
      assert d.keys[|ps| + (i - |ps|)] == ks[i - |ps|];
    }
  }

  /** A clause that was not asked for is under its key only as a column of that name. */
  lemma ClauseAbsent(d: Value, ps: seq<Named>, ks: seq<string>, vs: seq<Value>, k: string)
    requires Laid(d, ps, ks, vs) && k !in ks
    ensures k in d.keys <==> exists i :: 0 <= i < |ps| && ps[i].0 == k
  {
    forall i | |ps| <= i < |d.keys| ensures d.keys[i] in ks {
      assert d.keys[|ps| + (i - |ps|)] == ks[i - |ps|];
    }
    if k in d.keys {
      var i :| 0 <= i < |d.keys| && d.keys[i] == k;
      assert i < |ps| && ps[i].0 == k;
    }
  }

  /**
   The engine reads the clauses by key, next to the projections. Each clause asked for is what is
   found under its key if and only if no projected column of that name means something else; one not
   asked for is not there, but for columns of that name.
   */
  lemma ClausesFoundExactly(q: SelectQuery)
    ensures var d := SelectDict(q);
      && |d.keys| == |d.vals|
      && (Holding(d, "from", q.from) <==> Unclaimed(q.proj, "from", q.from))
      && (q.wheres != [] ==>
            var w := CompileQuery(Combined(q.wheres));
            Holding(d, "where", w) <==> Unclaimed(q.proj, "where", w))
      && (q.groups != [] ==> (Holding(d, "by", GroupDict(q)) <==> Unclaimed(q.proj, "by", GroupDict(q))))
      && (q.wheres == [] ==> ("where" in d.keys <==> exists i :: 0 <= i < |q.proj| && q.proj[i].0 == "where"))
      && (q.groups == [] ==> ("by" in d.keys <==> exists i :: 0 <= i < |q.proj| && q.proj[i].0 == "by"))
  {
    var d, g := SelectDict(q), if q.groups == [] then 0 else 1;
    var ks, vs := ClauseKeys(q.groups != [], q.wheres != []), SelectVals(q);
    SelectLaid(q);
    ClauseFound(d, q.proj, ks, vs, g);
    if q.wheres != [] { ClauseFound(d, q.proj, ks, vs, g + 1); } else { ClauseAbsent(d, q.proj, ks, vs, "where"); }
    if q.groups != [] { ClauseFound(d, q.proj, ks, vs, 0); } else { ClauseAbsent(d, q.proj, ks, vs, "by"); }
  }

  /** The same for an update: its clauses stand next to the assignments. */
  lemma UpdateClausesFoundExactly(q: UpdateQuery)
    ensures var d := UpdateDict(q);
      && |d.keys| == |d.vals|
      && (Holding(d, "from", q.from) <==> Unclaimed(q.sets, "from", q.from))
      && (q.wheres != [] ==>
            var w := CompileQuery(Combined(q.wheres));
            Holding(d, "where", w) <==> Unclaimed(q.sets, "where", w))
      && (q.wheres == [] ==> ("where" in d.keys <==> exists i :: 0 <= i < |q.sets| && q.sets[i].0 == "where"))
  {
    var d, ks, vs := UpdateDict(q), ClauseKeys(false, q.wheres != []), UpdateVals(q);
    UpdateLaid(q);
    ClauseFound(d, q.sets, ks, vs, 0);
    if q.wheres != [] { ClauseFound(d, q.sets, ks, vs, 1); } else { ClauseAbsent(d, q.sets, ks, vs, "where"); }
  }

  /** The dictionary ends in a `where` that is true on exactly the rows on which every predicate is. */
  ghost predicate EndsInWhere(d: Value, eng: Engine, env: Env, vs: seq<Value>, n: nat)
    requires AllSized(vs, n)
  {
    && d.Dict? && |d.keys| == |d.vals| > 0 && d.keys[|d.keys| - 1] == "where"
    && var r := EvalAst(eng, env, d.vals[|d.vals| - 1]);
       && r.Some? && Sized(r.value, n)
       && forall row :: 0 <= row < n ==>
            (Holds(r.value, row) <==> forall k :: 0 <= k < |vs| ==> Sized(vs[k], n) && Holds(vs[k], row))
  }

  /**
   So what the engine is given, of a select and of an update alike, restricts it to the rows on which
   every added predicate holds, however many were added.
   */
  lemma QueriesKeepExactly(eng: Engine, env: Env, s: SelectQuery, u: UpdateQuery, vs: seq<Value>, n: nat)
    requires SumLaws(eng) && s.wheres == u.wheres != [] && AllPlain(u.wheres) && AllLowerable(u.wheres)
    requires Means(eng, env, u.wheres, vs) && AllSized(vs, n)
    ensures EndsInWhere(SelectDict(s), eng, env, vs, n) && EndsInWhere(UpdateDict(u), eng, env, vs, n)
  {
    SelectLaid(s);
    UpdateLaid(u);
    WhereKeepsExactly(eng, env, u.wheres, vs, n);
  }

  /** A column projected under the name `from` takes the table's place. */
  lemma ProjectedFrom(t: Value)
    requires t != NameRef("price")
    ensures var d := SelectDict(SelectQuery(t, [("from", Col("price"))], [], []));
      d.keys == ["from", "from"] && d.vals == [NameRef("price"), t] && !Holding(d, "from", t)
  {
    var q := SelectQuery(t, [("from", Col("price"))], [], []);
    ClausesFoundExactly(q);
    assert q.proj[0].0 == "from" && CompileQuery(q.proj[0].1) == NameRef("price");
    assert !Unclaimed(q.proj, "from", t);
  }
}
