/**
 Query expressions, what they mean, and the rewrite the select path applies to them
 (expr.rs, query.rs).

 The engine is a parameter: how it adds, what a strict operator or a bound function computes, what
 a special form does with its operands. Only the operators the bindings rely on are spelled out --
 `sum`, `count`, `filter`, `if` and `and` -- and of addition only what SumLaws says.
 */
module Query {
  import opened Common
  import opened Ops

  datatype Kind = I64 | Other(tag: nat)

  /** One element: null, or a payload. */
  datatype Cell = Null | Num(n: int)

  /** A runtime value, and also an AST: lists and name references are what lowering produces. */
  datatype Value =
    | Atom(kind: Kind, cell: Cell)
    | Column(kind: Kind, cells: seq<Cell>)
    | Flag(b: bool)
    | Mask(bits: seq<bool>)
    | NameRef(name: string)
    | List(items: seq<Value>)
    | Dict(keys: seq<string>, vals: seq<Value>)

  type Env = map<string, Value>

  datatype Expr =
    | Col(name: string)
    | Lit(v: Value)
    | Op(op: Operation, args: seq<Expr>)
    | Call(fn: string, args: seq<Expr>)

  datatype Engine = Engine(
    summable: Kind -> bool,
    seed: Kind -> Cell,
    plus: (Kind, Cell, Cell) -> Cell,
    promote: (Kind, Cell) -> Option<Cell>,
    strict: (Operation, seq<Value>) -> Option<Value>,
    special: (Operation, seq<Value>, Env) -> Option<Value>,
    call: (string, seq<Value>) -> Option<Value>,
    form: (seq<Value>, Env) -> Option<Value>)

  /** A vector's length is an i64. */
  const MAX_ROWS: nat := 0x7fff_ffff_ffff_ffff

  /**
   What is asked of the engine's arithmetic. An integer literal 0 becomes a cell that addition
   ignores, whatever the kind and however nulls, overflow or rounding are treated elsewhere; and
   counting up by ones is exact as far as a length can reach.
   */
  ghost predicate SumLaws(eng: Engine)
  {
    && (forall k: Kind :: eng.summable(k) ==> eng.promote(k, Num(0)).Some?)
    && (forall k: Kind, x: Cell :: eng.summable(k) && eng.promote(k, Num(0)).Some? ==>
          eng.plus(k, x, eng.promote(k, Num(0)).value) == x)
    && (forall x: Cell :: eng.promote(I64, x) == Some(x))
    && eng.summable(I64) && eng.seed(I64) == Num(0)
    && (forall n: int :: 0 <= n < MAX_ROWS ==> eng.plus(I64, Num(n), Num(1)) == Num(n + 1))
  }

  /** Integer addition that skips null elements: an engine of the kind the laws describe. */
  function Integers(): Engine
  {
    Engine(k => k == I64, _ => Num(0),
           (_, x, y) => if y == Null || x == Null then x else Num(x.n + y.n),
           (_, x) => Some(x), (_, _) => None, (_, _, _) => None, (_, _) => None, (_, _) => None)
  }

  /** Addition in which a null swallows everything obeys the laws too: they do not settle nulls. */
  function Poisoned(): Engine
  {
    Integers().(plus := (_, x, y) => if y == Null || x == Null then Null else Num(x.n + y.n))
  }

  lemma LawsLeaveNullsOpen()
    ensures SumLaws(Integers()) && SumLaws(Poisoned())
    ensures Total(Integers(), I64, Num(0), [Null, Num(1)]) == Num(1)
    ensures Total(Poisoned(), I64, Num(0), [Null, Num(1)]) == Null
  {
    var cells := [Null, Num(1)];
    assert cells[1..] == [Num(1)] && [Num(1)][1..] == [];
  }

  // ---- operators on values ----

  function Total(eng: Engine, k: Kind, acc: Cell, cells: seq<Cell>): Cell
    decreases |cells|
  {
    if cells == [] then acc else Total(eng, k, eng.plus(k, acc, cells[0]), cells[1..])
  }

  function Kept<T>(xs: seq<T>, bits: seq<bool>): (r: seq<T>)
    requires |xs| == |bits|
    ensures |r| <= |xs|
    decreases |xs|
  {
    if xs == [] then [] else (if bits[0] then [xs[0]] else []) + Kept(xs[1..], bits[1..])
  }

  function Chosen(bits: seq<bool>, xs: seq<Cell>, ys: seq<Cell>): seq<Cell>
    requires |xs| == |bits| == |ys|
  {
    seq(|bits|, i requires 0 <= i < |bits| => if bits[i] then xs[i] else ys[i])
  }

  function Fill(n: nat, c: Cell): seq<Cell>
  {
    seq(n, _ => c)
  }

  /** A branch of `if` as a column of kind `k`: a scalar is broadcast, an integer literal promoted. */
  function Branch(eng: Engine, v: Value, k: Kind, n: nat): (r: Option<seq<Cell>>)
    ensures r.Some? ==> |r.value| == n
  {
    match v
    case Column(k', cells) => if k' == k && |cells| == n then Some(cells) else None
    case Atom(k', c) =>
      if k' == k then Some(Fill(n, c))
      else if k' == I64 then
        var p := eng.promote(k, c);
        if p.Some? then Some(Fill(n, p.value)) else None
      else None
    case _ => None
  }

  function ResultKind(x: Value, y: Value): Kind
    requires (x.Column? || x.Atom?) && (y.Column? || y.Atom?)
  {
    if x.Column? then x.kind else if y.Column? || x.kind == I64 then y.kind else x.kind
  }

  function SumOf(eng: Engine, vs: seq<Value>): Option<Value>
  {
    if |vs| == 1 && vs[0].Column? && eng.summable(vs[0].kind)
    then Some(Atom(vs[0].kind, Total(eng, vs[0].kind, eng.seed(vs[0].kind), vs[0].cells)))
    else None
  }

  function CountOf(vs: seq<Value>): Option<Value>
  {
    if |vs| != 1 then None
    else match vs[0]
         case Column(_, cells) => Some(Atom(I64, Num(|cells|)))
         case Mask(bits) => Some(Atom(I64, Num(|bits|)))
         case _ => None
  }

  function FilterOf(vs: seq<Value>): Option<Value>
  {
    if |vs| != 2 || !vs[1].Mask? || |vs[1].bits| > MAX_ROWS then None
    else match vs[0]
         case Column(k, cells) =>
           if |cells| == |vs[1].bits| then Some(Column(k, Kept(cells, vs[1].bits))) else None
         case Mask(bits) => if |bits| == |vs[1].bits| then Some(Mask(Kept(bits, vs[1].bits))) else None
         case _ => None
  }

  function IfOf(eng: Engine, vs: seq<Value>): Option<Value>
  {
    if |vs| == 3 && vs[0].Mask? && (vs[1].Column? || vs[1].Atom?) && (vs[2].Column? || vs[2].Atom?) then
      var k, n := ResultKind(vs[1], vs[2]), |vs[0].bits|;
      var x, y := Branch(eng, vs[1], k, n), Branch(eng, vs[2], k, n);
      if x.Some? && y.Some? then Some(Column(k, Chosen(vs[0].bits, x.value, y.value))) else None
    else eng.strict(If, vs)
  }

  function AndOf(eng: Engine, vs: seq<Value>): Option<Value>
  {
    if |vs| == 2 && vs[0].Mask? && vs[1].Mask? then
      if |vs[0].bits| == |vs[1].bits|
      then Some(Mask(seq(|vs[0].bits|, i requires 0 <= i < |vs[0].bits| => vs[0].bits[i] && vs[1].bits[i])))
      else None
    else if |vs| == 2 && vs[0].Mask? && vs[1].Flag? then
      Some(Mask(seq(|vs[0].bits|, i requires 0 <= i < |vs[0].bits| => vs[0].bits[i] && vs[1].b)))
    else if |vs| == 2 && vs[0].Flag? && vs[1].Mask? then
      Some(Mask(seq(|vs[1].bits|, i requires 0 <= i < |vs[1].bits| => vs[0].b && vs[1].bits[i])))
    else if |vs| == 2 && vs[0].Flag? && vs[1].Flag? then Some(Flag(vs[0].b && vs[1].b))
    else eng.strict(And, vs)
  }

  function ApplyOp(eng: Engine, op: Operation, vs: seq<Value>): Option<Value>
  {
    if op == Sum then SumOf(eng, vs)
    else if op == Count then CountOf(vs)
    else if op == Filter then FilterOf(vs)
    else if op == If then IfOf(eng, vs)
    else if op == And then AndOf(eng, vs)
    else eng.strict(op, vs)
  }

  /** Forms whose operands are not simply evaluated first, or that are not functions of them. */
  predicate IsSpecial(op: Operation)
  {
    op in {Quote, Do, Try, Return, Raise, Operation.Set, Let, Operation.Env, Eval, Load, Rand, Select, Update, Insert,
           Upsert}
  }

  // ---- lowering ----

  /** `Expr::compile`. */
  function Compile(e: Expr): Value
    decreases e, 1
  {
    match e
    case Col(name) => NameRef(name)
    case Lit(v) => v
    case Op(op, args) => Value.List([NameRef(AsStr(op))] + CompileAll(args))
    case Call(fn, args) => Value.List([NameRef(fn)] + CompileAll(args))
  }

  function CompileAll(es: seq<Expr>): (r: seq<Value>)
    ensures |r| == |es|
    decreases es, 0
  {
    if es == [] then [] else [Compile(es[0])] + CompileAll(es[1..])
  }

  // ---- what an expression means ----

  function Meaning(eng: Engine, env: Env, e: Expr): Option<Value>
    decreases e, 1
  {
    match e
    case Col(name) => if name in env then Some(env[name]) else None
    case Lit(v) => Some(v)
    case Call(fn, args) =>
      var vs := Meanings(eng, env, args);
      if vs.Some? then eng.call(fn, vs.value) else None
    case Op(op, args) =>
      if IsSpecial(op) then eng.special(op, CompileAll(args), env)
      else if op == If && |args| == 3 then
        // a scalar condition picks its branch; only that one is evaluated
        var c := Meaning(eng, env, args[0]);
        if c.None? then None
        else if c.value.Flag? then Meaning(eng, env, args[if c.value.b then 1 else 2])
        else
          var x, y := Meaning(eng, env, args[1]), Meaning(eng, env, args[2]);
          if x.Some? && y.Some? then IfOf(eng, [c.value, x.value, y.value]) else None
      else
        var vs := Meanings(eng, env, args);
        if vs.Some? then ApplyOp(eng, op, vs.value) else None
  }

  function Meanings(eng: Engine, env: Env, es: seq<Expr>): (r: Option<seq<Value>>)
    ensures r.Some? ==> |r.value| == |es|
    decreases es, 0
  {
    if es == [] then Some([])
    else
      var v, vs := Meaning(eng, env, es[0]), Meanings(eng, env, es[1..]);
      if v.Some? && vs.Some? then Some([v.value] + vs.value) else None
  }

  // ---- the rewrite ----

  const ZERO: Expr := Lit(Atom(I64, Num(0)))
  const ONE: Expr := Lit(Atom(I64, Num(1)))

  /** A two-operand filter, the shape the rewrite looks for under `sum` and `count`. */
  predicate IsFilter(e: Expr)
  {
    e.Op? && e.op == Filter && |e.args| == 2
  }

  function DagRewrite(e: Expr): Expr
    decreases e, 1
  {
    match e
    case Op(op, args) =>
      if op == Sum && |args| == 1 && IsFilter(args[0]) then
        Op(Sum, [Op(If, [DagRewrite(args[0].args[1]), DagRewrite(args[0].args[0]), ZERO])])
      else if op == Count && |args| == 1 && IsFilter(args[0]) then
        Op(Sum, [Op(If, [DagRewrite(args[0].args[1]), ONE, ZERO])])
      else Op(op, RewriteAll(args))
    case Call(fn, args) => Call(fn, RewriteAll(args))
    case _ => e
  }

  function RewriteAll(es: seq<Expr>): (r: seq<Expr>)
    ensures |r| == |es|
    decreases es, 0
  {
    if es == [] then [] else [DagRewrite(es[0])] + RewriteAll(es[1..])
  }

  /** Only strict, pure operators anywhere in the expression. */
  predicate Plain(e: Expr)
    decreases e, 1
  {
    match e
    case Op(op, args) => !IsSpecial(op) && AllPlain(args)
    case Call(_, args) => AllPlain(args)
    case _ => true
  }

  predicate AllPlain(es: seq<Expr>)
    decreases es, 0
  {
    es == [] || (Plain(es[0]) && AllPlain(es[1..]))
  }

  // ---- sums over masks ----

  lemma {:induction false} MaskedTotal(eng: Engine, k: Kind, acc: Cell, xs: seq<Cell>, bits: seq<bool>, z: Cell)
    requires |xs| == |bits| && forall x: Cell :: eng.plus(k, x, z) == x
    ensures Total(eng, k, acc, Chosen(bits, xs, Fill(|bits|, z))) == Total(eng, k, acc, Kept(xs, bits))
    decreases |xs|
  {
    if xs != [] {
      var all := Chosen(bits, xs, Fill(|bits|, z));
      assert all[1..] == Chosen(bits[1..], xs[1..], Fill(|bits| - 1, z));
      MaskedTotal(eng, k, eng.plus(k, acc, all[0]), xs[1..], bits[1..], z);
      if bits[0] {
        assert Kept(xs, bits)[1..] == Kept(xs[1..], bits[1..]);
      } else {
        assert Kept(xs, bits) == Kept(xs[1..], bits[1..]);
      }
    }
  }

  function Popcount(bits: seq<bool>): (n: nat)
    ensures n <= |bits|
  {
    if bits == [] then 0 else (if bits[0] then 1 else 0) + Popcount(bits[1..])
  }

  lemma {:induction false} KeptLength<T>(xs: seq<T>, bits: seq<bool>)
    requires |xs| == |bits|
    ensures |Kept(xs, bits)| == Popcount(bits)
    decreases |xs|
  {
    if xs != [] { KeptLength(xs[1..], bits[1..]); }
  }

  lemma {:induction false} OnesTotal(eng: Engine, n: nat, bits: seq<bool>)
    requires SumLaws(eng) && n + |bits| <= MAX_ROWS
    ensures Total(eng, I64, Num(n), Chosen(bits, Fill(|bits|, Num(1)), Fill(|bits|, Num(0)))) == Num(n + Popcount(bits))
    decreases |bits|
  {
    if bits != [] {
      var all := Chosen(bits, Fill(|bits|, Num(1)), Fill(|bits|, Num(0)));
      assert all[1..] == Chosen(bits[1..], Fill(|bits| - 1, Num(1)), Fill(|bits| - 1, Num(0)));
      assert eng.plus(I64, Num(n), Num(0)) == Num(n) by { assert eng.promote(I64, Num(0)) == Some(Num(0)); }
      OnesTotal(eng, n + (if bits[0] then 1 else 0), bits[1..]);
    }
  }

  // ---- evaluation, unrolled for the shapes the rewrite touches ----

  lemma MeaningsOne(eng: Engine, env: Env, e: Expr)
    ensures Meanings(eng, env, [e]) == (var v := Meaning(eng, env, e); if v.Some? then Some([v.value]) else None)
  {
    assert [e][1..] == [];
    assert Meanings(eng, env, []) == Some([]);
    var v := Meaning(eng, env, e);
    if v.Some? { assert [v.value] + [] == [v.value]; }
  }

  lemma MeaningsTwo(eng: Engine, env: Env, a: Expr, b: Expr)
    ensures Meanings(eng, env, [a, b]) ==
            (var v, w := Meaning(eng, env, a), Meaning(eng, env, b);
             if v.Some? && w.Some? then Some([v.value, w.value]) else None)
  {
    MeaningsOne(eng, env, b);
    assert [a, b][1..] == [b];
    var v, w := Meaning(eng, env, a), Meaning(eng, env, b);
    if v.Some? && w.Some? { assert [v.value] + [w.value] == [v.value, w.value]; }
  }

  /** A strict operator is applied to what its operands come to. */
  lemma PlainMeaning(eng: Engine, env: Env, op: Operation, args: seq<Expr>)
    requires !IsSpecial(op) && op != If
    ensures Meaning(eng, env, Op(op, args)) ==
            (var vs := Meanings(eng, env, args); if vs.Some? then ApplyOp(eng, op, vs.value) else None)
  {}

  lemma UnaryMeaning(eng: Engine, env: Env, op: Operation, a: Expr)
    requires !IsSpecial(op)
    ensures Meaning(eng, env, Op(op, [a])) ==
            (var v := Meaning(eng, env, a); if v.Some? then ApplyOp(eng, op, [v.value]) else None)
  {
    MeaningsOne(eng, env, a);
  }

  lemma FilterMeaning(eng: Engine, env: Env, f: Expr)
    requires IsFilter(f)
    ensures Meaning(eng, env, f) ==
            (var v, w := Meaning(eng, env, f.args[0]), Meaning(eng, env, f.args[1]);
             if v.Some? && w.Some? then FilterOf([v.value, w.value]) else None)
  {
    MeaningsTwo(eng, env, f.args[0], f.args[1]);
    assert f.args == [f.args[0], f.args[1]];
  }

  lemma IfMeaning(eng: Engine, env: Env, m: Expr, x: Expr, y: Expr, bits: seq<bool>)
    requires Meaning(eng, env, m) == Some(Mask(bits))
    ensures Meaning(eng, env, Op(If, [m, x, y])) ==
            (var v, w := Meaning(eng, env, x), Meaning(eng, env, y);
             if v.Some? && w.Some? then IfOf(eng, [Mask(bits), v.value, w.value]) else None)
  {}

  // ---- the two rules ----

  /** `if` against the literal 0, then `sum`, on values. */
  function SumOfMasked(eng: Engine, v: Value, bits: seq<bool>): Option<Value>
  {
    var r := IfOf(eng, [Mask(bits), v, Atom(I64, Num(0))]);
    if r.Some? then SumOf(eng, [r.value]) else None
  }

  lemma MaskedSum(eng: Engine, k: Kind, cells: seq<Cell>, bits: seq<bool>)
    requires SumLaws(eng)
    ensures SumOfMasked(eng, Column(k, cells), bits) ==
            if |cells| == |bits| then SumOf(eng, [Column(k, Kept(cells, bits))]) else None
  {
    if |cells| == |bits| && eng.summable(k) {
      var z := eng.promote(k, Num(0)).value;
      assert Branch(eng, Atom(I64, Num(0)), k, |bits|) == Some(Fill(|bits|, z));
      MaskedTotal(eng, k, eng.seed(k), cells, bits, z);
    }
  }

  lemma ScalarSum(eng: Engine, k: Kind, x: Cell, bits: seq<bool>)
    requires SumLaws(eng)
    ensures SumOfMasked(eng, Atom(k, x), bits).Some? <==> eng.summable(k)
  {}

  lemma SumOfIf(eng: Engine, env: Env, c: Expr, m: Expr, bits: seq<bool>)
    requires Meaning(eng, env, m) == Some(Mask(bits))
    ensures Meaning(eng, env, Op(Sum, [Op(If, [m, c, ZERO])])) ==
            (var v := Meaning(eng, env, c); if v.Some? then SumOfMasked(eng, v.value, bits) else None)
  {
    IfMeaning(eng, env, m, c, ZERO, bits);
    UnaryMeaning(eng, env, Sum, Op(If, [m, c, ZERO]));
  }

  lemma OnesSum(eng: Engine, bits: seq<bool>)
    requires SumLaws(eng) && |bits| <= MAX_ROWS
    ensures SumOf(eng, [Column(I64, Chosen(bits, Fill(|bits|, Num(1)), Fill(|bits|, Num(0))))]) ==
            Some(Atom(I64, Num(Popcount(bits))))
  {
    OnesTotal(eng, 0, bits);
    assert eng.summable(I64) && eng.seed(I64) == Num(0);
  }

  lemma OnesIf(eng: Engine, bits: seq<bool>)
    ensures IfOf(eng, [Mask(bits), Atom(I64, Num(1)), Atom(I64, Num(0))]) ==
            Some(Column(I64, Chosen(bits, Fill(|bits|, Num(1)), Fill(|bits|, Num(0)))))
  {}

  /** `sum(if m 1 0)` is how many rows the mask keeps: the filtered operand plays no part. */
  lemma CountRule(eng: Engine, env: Env, m: Expr, bits: seq<bool>)
    requires SumLaws(eng) && Meaning(eng, env, m) == Some(Mask(bits)) && |bits| <= MAX_ROWS
    ensures Meaning(eng, env, Op(Sum, [Op(If, [m, ONE, ZERO])])) == Some(Atom(I64, Num(Popcount(bits))))
  {
    IfMeaning(eng, env, m, ONE, ZERO, bits);
    UnaryMeaning(eng, env, Sum, Op(If, [m, ONE, ZERO]));
    OnesIf(eng, bits);
    OnesSum(eng, bits);
  }

  /**
   The rewrite preserves meaning: wherever the original expression has a value, the rewritten one
   has the same. It is a refinement and not an equality because the `count` rule drops an operand
   that might have failed and the `sum` rule broadcasts a scalar that could not be filtered.
   */
  lemma {:induction false} RewriteRefines(eng: Engine, env: Env, e: Expr)
    requires SumLaws(eng) && Plain(e)
    ensures Meaning(eng, env, e).Some? ==> Meaning(eng, env, DagRewrite(e)) == Meaning(eng, env, e)
    decreases e, 1
  {
    if Meaning(eng, env, e).Some? {
      match e
      case Op(op, args) =>
        if (op == Sum || op == Count) && |args| == 1 && IsFilter(args[0]) {
          RuleRefines(eng, env, e);
        } else if op == If && |args| == 3 {
          IfRefines(eng, env, e);
        } else {
          RewriteAllRefines(eng, env, args);
        }
      case Call(fn, args) => RewriteAllRefines(eng, env, args);
      case _ =>
    }
  }

  lemma {:induction false} RewriteAllRefines(eng: Engine, env: Env, es: seq<Expr>)
    requires SumLaws(eng) && AllPlain(es)
    ensures Meanings(eng, env, es).Some? ==> Meanings(eng, env, RewriteAll(es)) == Meanings(eng, env, es)
    decreases es, 0
  {
    if es != [] {
      RewriteRefines(eng, env, es[0]);
      RewriteAllRefines(eng, env, es[1..]);
      assert RewriteAll(es)[1..] == RewriteAll(es[1..]);
    }
  }

  lemma PlainArgs(es: seq<Expr>, i: nat)
    requires AllPlain(es) && i < |es|
    ensures Plain(es[i])
  {
    if i > 0 { PlainArgs(es[1..], i - 1); }
  }

  lemma RewriteAllAt(es: seq<Expr>, i: nat)
    requires i < |es|
    ensures RewriteAll(es)[i] == DagRewrite(es[i])
  {
    if i > 0 { RewriteAllAt(es[1..], i - 1); }
  }

  lemma {:induction false} RuleRefines(eng: Engine, env: Env, e: Expr)
    requires SumLaws(eng) && Plain(e) && Meaning(eng, env, e).Some?
    requires e.Op? && (e.op == Sum || e.op == Count) && |e.args| == 1 && IsFilter(e.args[0])
    ensures Meaning(eng, env, DagRewrite(e)) == Meaning(eng, env, e)
    decreases e, 0
  {
    var f := e.args[0];
    var c, m := f.args[0], f.args[1];
    PlainArgs(e.args, 0);
    PlainArgs(f.args, 0);
    PlainArgs(f.args, 1);
    assert e.args == [f];
    UnaryMeaning(eng, env, e.op, f);
    FilterMeaning(eng, env, f);
    var v, bits := Meaning(eng, env, c).value, Meaning(eng, env, m).value.bits;
    RewriteRefines(eng, env, m);
    if e.op == Sum {
      RewriteRefines(eng, env, c);
      SumOfIf(eng, env, DagRewrite(c), DagRewrite(m), bits);
      MaskedSum(eng, v.kind, v.cells, bits);
    } else {
      CountRule(eng, env, DagRewrite(m), bits);
      if v.Column? { KeptLength(v.cells, bits); } else { KeptLength(v.bits, bits); }
    }
  }

  lemma {:induction false} IfRefines(eng: Engine, env: Env, e: Expr)
    requires SumLaws(eng) && Plain(e) && Meaning(eng, env, e).Some?
    requires e.Op? && e.op == If && |e.args| == 3
    ensures Meaning(eng, env, DagRewrite(e)) == Meaning(eng, env, e)
    decreases e, 0
  {
    var args := e.args;
    forall i | 0 <= i < 3
      ensures RewriteAll(args)[i] == DagRewrite(args[i])
      ensures Meaning(eng, env, args[i]).Some? ==>
        Meaning(eng, env, DagRewrite(args[i])) == Meaning(eng, env, args[i])
    {
      PlainArgs(args, i);
      RewriteAllAt(args, i);
      RewriteRefines(eng, env, args[i]);
    }
  }

  // ---- when exactly original and rewritten agree ----

  /** A value `filter` accepts under a mask of `n` bits. */
  predicate Filterable(v: Value, n: nat)
  {
    (v.Column? && |v.cells| == n) || (v.Mask? && |v.bits| == n)
  }

  lemma FilteredLength(v: Value, bits: seq<bool>)
    requires |bits| <= MAX_ROWS && Filterable(v, |bits|)
    ensures FilterOf([v, Mask(bits)]).Some?
    ensures CountOf([FilterOf([v, Mask(bits)]).value]) == Some(Atom(I64, Num(Popcount(bits))))
  {
    if v.Column? { KeptLength(v.cells, bits); } else { KeptLength(v.bits, bits); }
  }

  lemma FilteredMeaning(eng: Engine, env: Env, op: Operation, c: Expr, m: Expr, bits: seq<bool>)
    requires (op == Sum || op == Count) && Meaning(eng, env, m) == Some(Mask(bits))
    ensures Meaning(eng, env, Op(op, [Op(Filter, [c, m])])) ==
            (var v := Meaning(eng, env, c);
             var kept := if v.Some? then FilterOf([v.value, Mask(bits)]) else None;
             if kept.None? then None else if op == Sum then SumOf(eng, [kept.value]) else CountOf([kept.value]))
  {
    UnaryMeaning(eng, env, op, Op(Filter, [c, m]));
    FilterMeaning(eng, env, Op(Filter, [c, m]));
  }

  /** Counting what a mask keeps of `v` comes to its population exactly when `v` can be filtered. */
  lemma FilteredCount(v: Value, bits: seq<bool>)
    requires |bits| <= MAX_ROWS
    ensures var kept := FilterOf([v, Mask(bits)]);
      (if kept.Some? then CountOf([kept.value]) else None) == Some(Atom(I64, Num(Popcount(bits))))
      <==> Filterable(v, |bits|)
  {
    if Filterable(v, |bits|) { FilteredLength(v, bits); }
  }

  lemma CountRewritten(eng: Engine, env: Env, c: Expr, m: Expr, bits: seq<bool>)
    requires SumLaws(eng) && Plain(m) && Meaning(eng, env, m) == Some(Mask(bits)) && |bits| <= MAX_ROWS
    ensures Meaning(eng, env, DagRewrite(Op(Count, [Op(Filter, [c, m])]))) == Some(Atom(I64, Num(Popcount(bits))))
  {
    RewriteRefines(eng, env, m);
    CountRule(eng, env, DagRewrite(m), bits);
    RewrittenCount(c, m);
  }

  lemma RewrittenCount(c: Expr, m: Expr)
    ensures DagRewrite(Op(Count, [Op(Filter, [c, m])])) == Op(Sum, [Op(If, [DagRewrite(m), ONE, ZERO])])
  {}

  /**
   `count(filter c m)`, with `m` a mask: the two sides agree if and only if `c` has a value that
   can be filtered by it. Otherwise the original fails and the rewritten one still counts.
   */
  lemma CountAgreesExactly(eng: Engine, env: Env, c: Expr, m: Expr, bits: seq<bool>)
    requires SumLaws(eng) && Plain(m) && Meaning(eng, env, m) == Some(Mask(bits)) && |bits| <= MAX_ROWS
    ensures var e := Op(Count, [Op(Filter, [c, m])]);
      && Meaning(eng, env, DagRewrite(e)) == Some(Atom(I64, Num(Popcount(bits))))
      && (Meaning(eng, env, DagRewrite(e)) == Meaning(eng, env, e) <==>
            Meaning(eng, env, c).Some? && Filterable(Meaning(eng, env, c).value, |bits|))
  {
    CountRewritten(eng, env, c, m, bits);
    FilteredMeaning(eng, env, Count, c, m, bits);
    var v := Meaning(eng, env, c);
    if v.Some? { FilteredCount(v.value, bits); }
  }

  /** An unknown column under `count(filter ..)`: an error turns into a number. */
  lemma CountOfMissingColumn(eng: Engine, env: Env, bits: seq<bool>)
    requires SumLaws(eng) && |bits| <= MAX_ROWS && "missing" !in env
    ensures var e := Op(Count, [Op(Filter, [Col("missing"), Lit(Mask(bits))])]);
      Meaning(eng, env, e) == None && Meaning(eng, env, DagRewrite(e)).Some?
  {
    CountAgreesExactly(eng, env, Col("missing"), Lit(Mask(bits)), bits);
    FilteredMeaning(eng, env, Count, Col("missing"), Lit(Mask(bits)), bits);
  }

  /** What a masked `if` against 0 makes a summable column of: more than `filter` takes. */
  predicate Summed(eng: Engine, v: Value, bits: seq<bool>)
  {
    match v
    case Column(k, cells) => |cells| == |bits| && eng.summable(k)
    case Atom(k, _) => eng.summable(k)
    case _ =>
      var r := eng.strict(If, [Mask(bits), v, Atom(I64, Num(0))]);
      r.Some? && r.value.Column? && eng.summable(r.value.kind)
  }

  lemma SummedExactly(eng: Engine, v: Value, bits: seq<bool>)
    requires SumLaws(eng)
    ensures SumOfMasked(eng, v, bits).Some? <==> Summed(eng, v, bits)
  {
    match v
    case Column(k, cells) => MaskedSum(eng, k, cells, bits);
    case Atom(k, x) => ScalarSum(eng, k, x, bits);
    case _ =>
  }

  /** Only a column's filtered elements can be summed. */
  lemma OnlyColumns(eng: Engine, v: Value, bits: seq<bool>)
    ensures var kept := FilterOf([v, Mask(bits)]); !v.Column? && kept.Some? ==> SumOf(eng, [kept.value]).None?
  {}

  /**
   `sum(filter c m)`, with `m` a mask: the two sides agree if and only if `c` is a column, or what `c`
   becomes by rewriting has no value, or has one that the masked `if` makes nothing summable of. They
   disagree on a scalar, which is broadcast, and on an operand that only its own rewriting defines.
   */
  lemma SumAgreesExactly(eng: Engine, env: Env, c: Expr, m: Expr, bits: seq<bool>)
    requires SumLaws(eng) && Plain(c) && Plain(m) && |bits| <= MAX_ROWS
    requires Meaning(eng, env, m) == Some(Mask(bits))
    ensures var e, v, w := Op(Sum, [Op(Filter, [c, m])]), Meaning(eng, env, c), Meaning(eng, env, DagRewrite(c));
      Meaning(eng, env, DagRewrite(e)) == Meaning(eng, env, e) <==>
        (v.Some? && v.value.Column?) || w.None? || !Summed(eng, w.value, bits)
  {
    SumSides(eng, env, c, m, bits);
    SidesAgree(eng, Meaning(eng, env, c), Meaning(eng, env, DagRewrite(c)), bits);
  }

  lemma SidesAgree(eng: Engine, v: Option<Value>, w: Option<Value>, bits: seq<bool>)
    requires SumLaws(eng) && |bits| <= MAX_ROWS && (v.Some? ==> w == v)
    ensures var kept := if v.Some? then FilterOf([v.value, Mask(bits)]) else None;
      (if w.Some? then SumOfMasked(eng, w.value, bits) else None) ==
      (if kept.Some? then SumOf(eng, [kept.value]) else None)
      <==> (v.Some? && v.value.Column?) || w.None? || !Summed(eng, w.value, bits)
  {
    if w.Some? { SummedExactly(eng, w.value, bits); }
    if v.Some? {
      OnlyColumns(eng, v.value, bits);
      if v.value.Column? { MaskedSum(eng, v.value.kind, v.value.cells, bits); }
    }
  }

  lemma RewrittenSum(c: Expr, m: Expr)
    ensures DagRewrite(Op(Sum, [Op(Filter, [c, m])])) == Op(Sum, [Op(If, [DagRewrite(m), DagRewrite(c), ZERO])])
  {
    var f := Op(Filter, [c, m]);
    assert IsFilter(f) && f.args[0] == c && f.args[1] == m;
    assert [f][0] == f;
  }

  /** Both sides on values. */
  lemma SumSides(eng: Engine, env: Env, c: Expr, m: Expr, bits: seq<bool>)
    requires SumLaws(eng) && Plain(c) && Plain(m) && |bits| <= MAX_ROWS
    requires Meaning(eng, env, m) == Some(Mask(bits))
    ensures var e, v, w := Op(Sum, [Op(Filter, [c, m])]), Meaning(eng, env, c), Meaning(eng, env, DagRewrite(c));
      && (v.Some? ==> w == v)
      && Meaning(eng, env, DagRewrite(e)) == (if w.Some? then SumOfMasked(eng, w.value, bits) else None)
      && var kept := if v.Some? then FilterOf([v.value, Mask(bits)]) else None;
         Meaning(eng, env, e) == if kept.Some? then SumOf(eng, [kept.value]) else None
  {
    RewriteRefines(eng, env, c);
    RewriteRefines(eng, env, m);
    FilteredMeaning(eng, env, Sum, c, m, bits);
    RewrittenSum(c, m);
    SumOfIf(eng, env, DagRewrite(c), DagRewrite(m), bits);
  }

  // ---- normal forms ----

  /** No `sum` or `count` directly over a two-operand filter, at any depth. */
  predicate Normal(e: Expr)
    decreases e, 1
  {
    match e
    case Op(op, args) =>
      && !((op == Sum || op == Count) && |args| == 1 && IsFilter(args[0]))
      && AllNormal(args)
    case Call(_, args) => AllNormal(args)
    case _ => true
  }

  predicate AllNormal(es: seq<Expr>)
    decreases es, 0
  {
    es == [] || (Normal(es[0]) && AllNormal(es[1..]))
  }

  lemma ThreeNormal(es: seq<Expr>)
    requires |es| <= 3 && forall i :: 0 <= i < |es| ==> Normal(es[i])
    ensures AllNormal(es)
  {
    if es != [] { ThreeNormal(es[1..]); }
  }

  lemma SumOfIfNormal(m: Expr, x: Expr)
    requires Normal(m) && Normal(x)
    ensures Normal(Op(Sum, [Op(If, [m, x, ZERO])]))
  {
    ThreeNormal([m, x, ZERO]);
    ThreeNormal([Op(If, [m, x, ZERO])]);
  }

  /** The rewrite neither makes nor breaks a two-operand filter. */
  lemma FilterKept(e: Expr)
    ensures IsFilter(DagRewrite(e)) <==> IsFilter(e)
  {}

  lemma OtherNormal(op: Operation, args: seq<Expr>)
    requires AllNormal(RewriteAll(args))
    requires !((op == Sum || op == Count) && |args| == 1 && IsFilter(args[0]))
    ensures Normal(Op(op, RewriteAll(args)))
  {
    if |args| == 1 {
      RewriteAllAt(args, 0);
      FilterKept(args[0]);
    }
  }

  lemma {:induction false} RewriteNormal(e: Expr)
    ensures Normal(DagRewrite(e))
    decreases e, 1
  {
    match e
    case Op(op, args) =>
      if (op == Sum || op == Count) && |args| == 1 && IsFilter(args[0]) {
        var c, m := args[0].args[0], args[0].args[1];
        RewriteNormal(c);
        RewriteNormal(m);
        SumOfIfNormal(DagRewrite(m), if op == Sum then DagRewrite(c) else ONE);
      } else {
        RewriteAllNormal(args);
        OtherNormal(op, args);
      }
    case Call(_, args) => RewriteAllNormal(args);
    case _ =>
  }

  lemma {:induction false} RewriteAllNormal(es: seq<Expr>)
    ensures AllNormal(RewriteAll(es))
    decreases es, 0
  {
    if es != [] {
      RewriteNormal(es[0]);
      RewriteAllNormal(es[1..]);
      assert RewriteAll(es)[1..] == RewriteAll(es[1..]);
    }
  }

  lemma {:induction false} NormalFixed(e: Expr)
    requires Normal(e)
    ensures DagRewrite(e) == e
    decreases e, 1
  {
    match e
    case Op(op, args) => AllNormalFixed(args);
    case Call(_, args) => AllNormalFixed(args);
    case _ =>
  }

  lemma {:induction false} AllNormalFixed(es: seq<Expr>)
    requires AllNormal(es)
    ensures RewriteAll(es) == es
    decreases es, 0
  {
    if es != [] {
      NormalFixed(es[0]);
      AllNormalFixed(es[1..]);
    }
  }

  /** The fixed points of the rewrite are exactly the normal forms; so it is idempotent. */
  lemma RewriteIsNormalisation(e: Expr)
    ensures Normal(DagRewrite(e))
    ensures DagRewrite(e) == e <==> Normal(e)
    ensures DagRewrite(DagRewrite(e)) == DagRewrite(e)
  {
    RewriteNormal(e);
    NormalFixed(DagRewrite(e));
    if Normal(e) { NormalFixed(e); }
  }
}
