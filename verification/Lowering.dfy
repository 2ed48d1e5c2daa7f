/** Evaluating what `Expr::compile` produces, and undoing it (expr.rs, query.rs). */
module Lowering {
  import opened Common
  import opened Ops
  import opened Query

  // ---- evaluating an AST ----

  /** A list whose head is a name: a call. */
  predicate Headed(v: Value)
  {
    v.List? && v.items != [] && v.items[0].NameRef?
  }

  /**
   The engine's evaluator as the lowering relies on it: a name reference is looked up, a headed list
   is resolved by name and applied, anything but a list stands for itself. What becomes of other
   lists is the engine's business.
   */
  function EvalAst(eng: Engine, env: Env, v: Value): Option<Value>
    decreases v, 1
  {
    match v
    case NameRef(name) => if name in env then Some(env[name]) else None
    case List(items) =>
      if !Headed(v) then eng.form(items, env)
      else
        var args := items[1..];
        var op := OpNamed(items[0].name);
        if op.None? then
          var vs := EvalAll(eng, env, args);
          if vs.Some? then eng.call(items[0].name, vs.value) else None
        else if IsSpecial(op.value) then eng.special(op.value, args, env)
        else if op.value == If && |args| == 3 then
          var c := EvalAst(eng, env, args[0]);
          if c.None? then None
          else if c.value.Flag? then EvalAst(eng, env, args[if c.value.b then 1 else 2])
          else
            var x, y := EvalAst(eng, env, args[1]), EvalAst(eng, env, args[2]);
            if x.Some? && y.Some? then IfOf(eng, [c.value, x.value, y.value]) else None
        else
          var vs := EvalAll(eng, env, args);
          if vs.Some? then ApplyOp(eng, op.value, vs.value) else None
    case _ => Some(v)
  }

  function EvalAll(eng: Engine, env: Env, vs: seq<Value>): (r: Option<seq<Value>>)
    ensures r.Some? ==> |r.value| == |vs|
    decreases vs, 0
  {
    if vs == [] then Some([])
    else
      var x, xs := EvalAst(eng, env, vs[0]), EvalAll(eng, env, vs[1..]);
      if x.Some? && xs.Some? then Some([x.value] + xs.value) else None
  }

  /**
   The expressions whose lowering can be undone: no literal is a list or a name reference, and no
   call is named like a builtin.
   */
  predicate Lowerable(e: Expr)
    decreases e, 1
  {
    match e
    case Col(_) => true
    case Lit(v) => !v.List? && !v.NameRef?
    case Op(_, args) => AllLowerable(args)
    case Call(fn, args) => OpNamed(fn).None? && AllLowerable(args)
  }

  predicate AllLowerable(es: seq<Expr>)
    decreases es, 0
  {
    es == [] || (Lowerable(es[0]) && AllLowerable(es[1..]))
  }

  lemma LowerableAt(es: seq<Expr>, i: nat)
    requires AllLowerable(es) && i < |es|
    ensures Lowerable(es[i])
  {
    if i > 0 { LowerableAt(es[1..], i - 1); }
  }

  lemma CompileAllAt(es: seq<Expr>, i: nat)
    requires i < |es|
    ensures CompileAll(es)[i] == Compile(es[i])
  {
    if i > 0 { CompileAllAt(es[1..], i - 1); }
  }

  // ---- lowering preserves meaning ----

  /** Evaluating the lowered form is the direct semantics. */
  lemma {:induction false} LoweringPreserves(eng: Engine, env: Env, e: Expr)
    requires Lowerable(e)
    ensures EvalAst(eng, env, Compile(e)) == Meaning(eng, env, e)
    decreases e, 2
  {
    match e
    case Op(op, args) =>
      if op == If && |args| == 3 { IfPreserves(eng, env, e); } else { OpPreserves(eng, env, e); }
    case Call(fn, args) =>
      assert Compile(e).items[1..] == CompileAll(args);
      AllPreserves(eng, env, args);
    case _ =>
  }

  lemma {:induction false} OpPreserves(eng: Engine, env: Env, e: Expr)
    requires Lowerable(e) && e.Op? && !(e.op == If && |e.args| == 3)
    ensures EvalAst(eng, env, Compile(e)) == Meaning(eng, env, e)
    decreases e, 1
  {
    NamesInvert(e.op);
    assert Compile(e).items[1..] == CompileAll(e.args);
    AllPreserves(eng, env, e.args);
  }

  lemma {:induction false} IfPreserves(eng: Engine, env: Env, e: Expr)
    requires Lowerable(e) && e.Op? && e.op == If && |e.args| == 3
    ensures EvalAst(eng, env, Compile(e)) == Meaning(eng, env, e)
    decreases e, 1
  {
    NamesInvert(If);
    var args := Compile(e).items[1..];
    assert args == CompileAll(e.args);
    forall i | 0 <= i < 3 ensures EvalAst(eng, env, args[i]) == Meaning(eng, env, e.args[i]) {
      LowerableAt(e.args, i);
      CompileAllAt(e.args, i);
      LoweringPreserves(eng, env, e.args[i]);
    }
  }

  lemma {:induction false} AllPreserves(eng: Engine, env: Env, es: seq<Expr>)
    requires AllLowerable(es)
    ensures EvalAll(eng, env, CompileAll(es)) == Meanings(eng, env, es)
    decreases es, 0
  {
    if es != [] {
      LoweringPreserves(eng, env, es[0]);
      AllPreserves(eng, env, es[1..]);
      assert CompileAll(es)[1..] == CompileAll(es[1..]);
    }
  }

  // ---- lowering can be undone, exactly on Lowerable ----

  /** The expression an AST was lowered from. */
  function Lift(v: Value): Option<Expr>
    decreases v, 1
  {
    match v
    case NameRef(name) => Some(Col(name))
    case List(items) =>
      if !Headed(v) then None
      else
        var es, op := LiftAll(items[1..]), OpNamed(items[0].name);
        if es.None? then None
        else if op.Some? then Some(Op(op.value, es.value))
        else Some(Call(items[0].name, es.value))
    case _ => Some(Lit(v))
  }

  function LiftAll(vs: seq<Value>): (r: Option<seq<Expr>>)
    ensures r.Some? ==> |r.value| == |vs|
    decreases vs, 0
  {
    if vs == [] then Some([])
    else
      var e, es := Lift(vs[0]), LiftAll(vs[1..]);
      if e.Some? && es.Some? then Some([e.value] + es.value) else None
  }

  /** The round trip holds for an expression if and only if it is Lowerable. */
  lemma {:induction false} LiftInvertsExactly(e: Expr)
    ensures Lift(Compile(e)) == Some(e) <==> Lowerable(e)
    decreases e, 1
  {
    match e
    case Op(op, args) =>
      NamesInvert(op);
      assert Compile(e).items[1..] == CompileAll(args);
      LiftAllInverts(args);
    case Call(fn, args) =>
      assert Compile(e).items[1..] == CompileAll(args);
      LiftAllInverts(args);
    case _ =>
  }

  lemma {:induction false} LiftAllInverts(es: seq<Expr>)
    ensures LiftAll(CompileAll(es)) == Some(es) <==> AllLowerable(es)
    decreases es, 0
  {
    if es != [] {
      LiftInvertsExactly(es[0]);
      LiftAllInverts(es[1..]);
      assert CompileAll(es)[1..] == CompileAll(es[1..]);
      var e, rest := Lift(Compile(es[0])), LiftAll(CompileAll(es[1..]));
      if e.Some? && rest.Some? {
        assert ([e.value] + rest.value)[1..] == rest.value;
        assert [es[0]] + es[1..] == es;
      }
    }
  }

  /** Two lowerable expressions with the same AST are the same expression. */
  lemma LoweringInjective(e: Expr, e': Expr)
    requires Lowerable(e) && Lowerable(e') && Compile(e) == Compile(e')
    ensures e == e'
  {
    LiftInvertsExactly(e);
    LiftInvertsExactly(e');
  }

  /** A call by a builtin's name cannot be told from the operator: whatever was bound is bypassed. */
  lemma CallOfBuiltinName(fn: string, args: seq<Expr>)
    ensures OpNamed(fn).Some? ==> Compile(Call(fn, args)) == Compile(Op(OpNamed(fn).value, args))
    ensures Lift(Compile(Call(fn, args))) == Some(Call(fn, args)) ==> OpNamed(fn).None?
  {
    LiftInvertsExactly(Call(fn, args));
  }

  ghost predicate StandsForItself(v: Value)
  {
    forall eng: Engine, env: Env :: EvalAst(eng, env, v) == Some(v)
  }

  /** A literal evaluates to itself under every engine exactly when it is no list and no name. */
  lemma LiteralsStandForThemselves(v: Value)
    ensures StandsForItself(Compile(Lit(v))) <==> Lowerable(Lit(v))
  {
    var env: Env := map[];
    NeverLists(v);
    assert v.NameRef? ==> EvalAst(Refusing(), env, v) == None;
    if StandsForItself(v) { assert EvalAst(Refusing(), env, v) == Some(v); }
  }

  /** An engine in which nothing but scalars and columns has a value. */
  function Refusing(): Engine
  {
    Engine(_ => false, _ => Null, (_, x, _) => x, (_, _) => None, (_, _) => None,
           (_, _, _) => None, (_, _) => None, (_, _) => None)
  }

  lemma {:induction false} NeverLists(v: Value)
    ensures EvalAst(Refusing(), map[], v).Some? ==> !EvalAst(Refusing(), map[], v).value.List?
    decreases v, 1
  {
    if Headed(v) && OpNamed(v.items[0].name) == Some(If) && |v.items| == 4 {
      IfNeverLists(v);
    } else if Headed(v) && OpNamed(v.items[0].name).Some? {
      var vs := EvalAll(Refusing(), map[], v.items[1..]);
      if vs.Some? { AppliedNeverList(OpNamed(v.items[0].name).value, vs.value); }
    }
  }

  lemma AppliedNeverList(op: Operation, vs: seq<Value>)
    ensures ApplyOp(Refusing(), op, vs).Some? ==> !ApplyOp(Refusing(), op, vs).value.List?
  {}

  lemma {:induction false} IfNeverLists(v: Value)
    requires Headed(v) && OpNamed(v.items[0].name) == Some(If) && |v.items| == 4
    ensures EvalAst(Refusing(), map[], v).Some? ==> !EvalAst(Refusing(), map[], v).value.List?
    decreases v, 0
  {
    var args := v.items[1..];
    assert args[0] == v.items[1] && args[1] == v.items[2] && args[2] == v.items[3];
    NeverLists(v.items[2]);
    NeverLists(v.items[3]);
  }

  // ---- what the query path compiles ----

  /** `compile_query_expr`. */
  function CompileQuery(e: Expr): Value
  {
    Compile(DagRewrite(e))
  }

  lemma {:induction false} RewriteKeepsLowerable(e: Expr)
    requires Lowerable(e)
    ensures Lowerable(DagRewrite(e))
    decreases e, 1
  {
    match e
    case Op(op, args) =>
      if (op == Sum || op == Count) && |args| == 1 && IsFilter(args[0]) {
        LowerableAt(args, 0);
        LowerableAt(args[0].args, 0);
        LowerableAt(args[0].args, 1);
        var c, m := args[0].args[0], args[0].args[1];
        RewriteKeepsLowerable(c);
        RewriteKeepsLowerable(m);
        FewLowerable(if op == Sum then [DagRewrite(m), DagRewrite(c), ZERO] else [DagRewrite(m), ONE, ZERO]);
        FewLowerable(DagRewrite(e).args);
      } else {
        RewriteAllKeepsLowerable(args);
      }
    case Call(_, args) => RewriteAllKeepsLowerable(args);
    case _ =>
  }

  lemma FewLowerable(es: seq<Expr>)
    requires forall i :: 0 <= i < |es| ==> Lowerable(es[i])
    ensures AllLowerable(es)
  {
    if es != [] { FewLowerable(es[1..]); }
  }

  lemma {:induction false} RewriteAllKeepsLowerable(es: seq<Expr>)
    requires AllLowerable(es)
    ensures AllLowerable(RewriteAll(es))
    decreases es, 0
  {
    if es != [] {
      RewriteKeepsLowerable(es[0]);
      RewriteAllKeepsLowerable(es[1..]);
      assert RewriteAll(es)[1..] == RewriteAll(es[1..]);
    }
  }

  /** What the query path compiles evaluates to what the expression means, wherever it means something. */
  lemma QueryCompilationRefines(eng: Engine, env: Env, e: Expr)
    requires SumLaws(eng) && Plain(e) && Lowerable(e)
    ensures EvalAst(eng, env, CompileQuery(e)) == Meaning(eng, env, DagRewrite(e))
    ensures Meaning(eng, env, e).Some? ==> EvalAst(eng, env, CompileQuery(e)) == Meaning(eng, env, e)
  {
    RewriteKeepsLowerable(e);
    LoweringPreserves(eng, env, DagRewrite(e));
    RewriteRefines(eng, env, e);
  }

  /** `Expr::compile` as the source runs it: the items are collected in a loop. */
  method Lower(e: Expr) returns (v: Value)
    ensures v == Compile(e)
    decreases e
  {
    match e {
      case Col(name) => v := NameRef(name);
      case Lit(x) => v := x;
      case Op(op, operands) =>
        var items := [NameRef(AsStr(op))];
        for i := 0 to |operands|
          invariant items == [NameRef(AsStr(op))] + CompileAll(operands)[..i]
        {
          CompileAllAt(operands, i);
          var item := Lower(operands[i]);
          items := items + [item];
        }
        v := Value.List(items);
      case Call(name, operands) =>
        var items := [NameRef(name)];
        for i := 0 to |operands|
          invariant items == [NameRef(name)] + CompileAll(operands)[..i]
        {
          CompileAllAt(operands, i);
          var item := Lower(operands[i]);
          items := items + [item];
        }
        v := Value.List(items);
    }
  }
}
