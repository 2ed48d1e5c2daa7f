/**
 Typed vectors and their in-band nulls (vector.rs, raw.rs, convert.rs).

 A null is a payload pattern, the element type's sentinel. For the fixed-width
 types the core consults the vector's HAS_NULLS attribute before it looks at the
 payload, so the two ways of asking "is this null?" -- `is_null_at` on the vector
 and `is_atom_null` on the boxed element -- do not always agree.
 */
module Vectors {
  import opened Common

  const I16_MIN: int := -0x8000
  const I32_MIN: int := -0x8000_0000
  const I64_MIN: int := -0x8000_0000_0000_0000

  datatype Elem = Bool | U8 | I16 | I32 | I64 | F32 | F64 | Date | Time | Timestamp | Guid | Sym | Str

  /** One element's payload. A symbol cell is its id in the runtime domain. */
  datatype Cell = Int(i: int) | Float(nan: bool, r: real) | Bytes(b: seq<int>) | Text(s: string)

  const NIL_GUID: Cell := Bytes([0, 0, 0, 0, 0, 0, 0, 0, 0, 0, 0, 0, 0, 0, 0, 0])

  /** The pattern `set_null` writes for each type; BOOL and U8 have none. */
  function SentinelOf(ty: Elem): (o: Option<Cell>)
  {
    match ty
    case Bool | U8 => None
    case I16 => Some(Int(I16_MIN))
    case I32 | Date | Time => Some(Int(I32_MIN))
    case I64 | Timestamp => Some(Int(I64_MIN))
    case F32 | F64 => Some(Float(true, 0.0))
    case Guid => Some(NIL_GUID)
    case Sym => Some(Int(0))
    case Str => Some(Text(""))
  }

  /** Does the core read `c` as the sentinel of `ty`? Every NaN is one. */
  predicate IsSentinel(ty: Elem, c: Cell)
  {
    if ty.F32? || ty.F64? then c.Float? && c.nan
    else SentinelOf(ty) == Some(c)
  }

  /** The types whose null test is gated on HAS_NULLS. */
  predicate Gated(ty: Elem)
  {
    !ty.Bool? && !ty.U8? && !ty.Sym? && !ty.Str?
  }

  datatype Vec = Vec(ty: Elem, cells: seq<Cell>, hasNulls: bool)

  /** `ray_vec_from_raw`: one pass over the payload raises HAS_NULLS. */
  function FromRaw(ty: Elem, data: seq<Cell>): Vec
  {
    Vec(ty, data, Gated(ty) && exists c :: c in data && IsSentinel(ty, c))
  }

  /** `ray_vec_set` and `ray_vec_append` write the payload and leave the attribute alone. */
  function Written(v: Vec, idx: nat, x: Cell): Vec
    requires idx < |v.cells|
  {
    v.(cells := v.cells[idx := x])
  }

  function Appended(v: Vec, x: Cell): Vec
  {
    v.(cells := v.cells + [x])
  }

  function Nulled(v: Vec, idx: nat): Vec
    requires idx < |v.cells| && SentinelOf(v.ty).Some?
  {
    v.(cells := v.cells[idx := SentinelOf(v.ty).value], hasNulls := true)
  }

  predicate IsNullAt(v: Vec, idx: nat)
  {
    && idx < |v.cells|
    && IsSentinel(v.ty, v.cells[idx])
    && (Gated(v.ty) ==> v.hasNulls)
  }

  // ---- boxed elements ----

  /** What `get` hands back: the untyped null singleton, or an atom. */
  datatype Boxed = NullObject | Atom(ty: Elem, c: Cell)

  /** `Value::get`, its bounds check included. */
  function Get(v: Vec, idx: nat): (r: Result<Boxed, string>)
  {
    if idx >= |v.cells| then Err("index out of range")
    else if !v.ty.Sym? && !v.ty.Str? && IsNullAt(v, idx) then Ok(NullObject)
    else Ok(Atom(v.ty, v.cells[idx]))
  }

  /** `raw::atom_is_null`: the atom's own table, which knows no HAS_NULLS. */
  predicate AtomIsNull(b: Boxed)
  {
    match b
    case NullObject => true
    case Atom(ty, c) =>
      match ty
      case F64 | F32 => c.Float? && c.nan
      case I64 | Timestamp => c == Int(I64_MIN)
      case I32 | Date | Time => c == Int(I32_MIN)
      case I16 => c == Int(I16_MIN)
      case Sym => c == Int(0)
      case Str => c == Text("")
      case Guid => c == NIL_GUID
      case Bool | U8 => false
  }

  /** What an element is extracted as: a scalar, a `String` (symbol or string), or a `Value`. */
  datatype Reader = Scalars(ty: Elem) | Texts | Anything

  predicate Accepts(want: Reader, ty: Elem)
  {
    match want
    case Scalars(t) => t == ty
    case Texts => ty.Sym? || ty.Str?
    case Anything => true
  }

  /** The readers: a tag mismatch is an error, the null singleton's included. */
  function Read(b: Boxed, want: Reader): Result<Cell, string>
  {
    if b.Atom? && Accepts(want, b.ty) then Ok(b.c) else Err("expected atom of another type")
  }

  /** `FromValue for Option<T>`. */
  function ReadOption(b: Boxed, want: Reader): Result<Option<Cell>, string>
  {
    if b.NullObject? || AtomIsNull(b) then Ok(None)
    else match Read(b, want)
         case Ok(c) => Ok(Some(c))
         case Err(e) => Err(e)
  }

  /**
   Extraction to a plain scalar fails on an element exactly where the vector reports a null, text
   aside: an unreported sentinel comes out as its payload, and so does every text.
   */
  lemma PlainReadsExactly(v: Vec, i: nat)
    ensures Get(v, i).Ok? <==> i < |v.cells|
    ensures i < |v.cells| ==>
      var read := Read(Get(v, i).value, Scalars(v.ty));
      && (read.Err? <==> !v.ty.Sym? && !v.ty.Str? && v.hasNulls && IsSentinel(v.ty, v.cells[i]))
      && (read.Ok? ==> read.value == v.cells[i])
  {}

  /**
   The vector a handle mutates. The fields are the payload and the attribute byte's
   HAS_NULLS bit; sharing between handles is the subject of modules ValueOps and ValueSemantics.
   */
  class Column {
    const ty: Elem
    var cells: seq<Cell>
    var hasNulls: bool

    function View(): Vec
      reads this
    {
      Vec(ty, cells, hasNulls)
    }

    constructor (ty: Elem, data: seq<Cell>)
      ensures View() == FromRaw(ty, data)
      ensures this.ty == ty && cells == data
      ensures hasNulls <==>
        !ty.Bool? && !ty.U8? && !ty.Sym? && !ty.Str? && exists i :: 0 <= i < |data| && IsSentinel(ty, data[i])
    {
      this.ty := ty;
      cells := data;
      var seen := false;
      for i := 0 to |data|
        invariant seen <==> exists j :: 0 <= j < i && IsSentinel(ty, data[j])
      {
        seen := seen || IsSentinel(ty, data[i]);
      }
      hasNulls := Gated(ty) && seen;
    }

    /** `set<T>`: type check, bounds check, then the write. */
    method Set(want: Elem, idx: nat, x: Cell) returns (ok: bool)
      modifies this
      ensures ok <==> ty == want && idx < |old(cells)|
      ensures ok ==> |cells| == |old(cells)| && cells[idx] == x
      ensures ok ==> forall j :: 0 <= j < |cells| && j != idx ==> cells[j] == old(cells)[j]
      ensures !ok ==> cells == old(cells)
      ensures hasNulls == old(hasNulls)
      ensures View() == if ok then Written(old(View()), idx, x) else old(View())
    {
      if ty != want || idx >= |cells| {
        return false;
      }
      cells := cells[idx := x];
      return true;
    }

    /** `push<T>`. */
    method Push(want: Elem, x: Cell) returns (ok: bool)
      modifies this
      ensures ok <==> ty == want
      ensures cells == old(cells) + if ok then [x] else []
      ensures hasNulls == old(hasNulls)
      ensures View() == if ok then Appended(old(View()), x) else old(View())
    {
      if ty != want {
        return false;
      }
      cells := cells + [x];
      return true;
    }

    /** `set_null`: refused for BOOL and U8 and out of range; `false` changes nothing. */
    method SetNull(idx: nat, isNull: bool) returns (ok: bool)
      modifies this
      ensures ok <==> idx < |old(cells)| && !ty.Bool? && !ty.U8?
      ensures ok && isNull ==> |cells| == |old(cells)| && IsSentinel(ty, cells[idx]) && hasNulls
      ensures ok && isNull ==> forall j :: 0 <= j < |cells| && j != idx ==> cells[j] == old(cells)[j]
      ensures !(ok && isNull) ==> cells == old(cells) && hasNulls == old(hasNulls)
      ensures View() == if ok && isNull then Nulled(old(View()), idx) else old(View())
    {
      if idx >= |cells| || SentinelOf(ty).None? {
        return false;
      }
      if isNull {
        cells := cells[idx := SentinelOf(ty).value];
        hasNulls := true;
      }
      return true;
    }

    /**
     `to_vec::<Option<T>>`: boxes every element and converts it, stopping at the first error.
     However a sentinel got there, its position -- and no other -- comes out None; the call
     fails exactly when some element is not null and the reader does not accept its type.
     */
    method ToOptions(want: Reader) returns (r: Result<seq<Option<Cell>>, string>)
      ensures r.Ok? <==>
        || want == Anything || want == Scalars(ty) || (want == Texts && (ty == Sym || ty == Str))
        || forall i :: 0 <= i < |cells| ==> IsSentinel(ty, cells[i])
      ensures r.Ok? ==> |r.value| == |cells|
      ensures r.Ok? ==> forall i :: 0 <= i < |cells| ==>
        r.value[i] == if IsSentinel(ty, cells[i]) then None else Some(cells[i])
    {
      var out: seq<Option<Cell>> := [];
      for i := 0 to |cells|
        invariant |out| == i
        invariant Accepts(want, ty) || forall j :: 0 <= j < i ==> IsSentinel(ty, cells[j])
        invariant forall j :: 0 <= j < i ==>
          out[j] == if IsSentinel(ty, cells[j]) then None else Some(cells[j])
      {
        var boxed := Get(View(), i).value;
        match ReadOption(boxed, want) {
          case Ok(x) => out := out + [x];
          case Err(e) => return Err(e);
        }
      }
      return Ok(out);
    }
  }

  // ---- runs of one vector ----

  datatype Edit = SetAt(idx: nat, x: Cell) | PushBack(x: Cell) | NullAt(idx: nat, isNull: bool)

  function Apply(v: Vec, e: Edit): Vec
  {
    match e
    case SetAt(idx, x) => if idx < |v.cells| then Written(v, idx, x) else v
    case PushBack(x) => Appended(v, x)
    case NullAt(idx, isNull) =>
      if isNull && idx < |v.cells| && SentinelOf(v.ty).Some? then Nulled(v, idx) else v
  }

  function Run(v: Vec, es: seq<Edit>): Vec
    decreases |es|
  {
    if es == [] then v else Run(Apply(v, es[0]), es[1..])
  }

  /** What one edit does, element by element. */
  lemma EditExactly(v: Vec, e: Edit)
    ensures var w := Apply(v, e);
      && w.ty == v.ty
      && (match e
          case SetAt(idx, x) =>
            && |w.cells| == |v.cells| && w.hasNulls == v.hasNulls && (idx < |v.cells| ==> w.cells[idx] == x)
            && (forall j :: 0 <= j < |v.cells| && j != idx ==> w.cells[j] == v.cells[j])
          case PushBack(x) => w.cells == v.cells + [x] && w.hasNulls == v.hasNulls
          case NullAt(idx, isNull) =>
            if isNull && idx < |v.cells| && !v.ty.Bool? && !v.ty.U8? then
              && |w.cells| == |v.cells| && w.hasNulls && IsSentinel(v.ty, w.cells[idx])
              && (forall j :: 0 <= j < |v.cells| && j != idx ==> w.cells[j] == v.cells[j])
            else w == v)
  {}

  /** A sentinel written as if it were data: what `is_null_at` is documented not to see. */
  predicate WritesSentinel(ty: Elem, e: Edit)
  {
    match e
    case SetAt(_, x) => IsSentinel(ty, x)
    case PushBack(x) => IsSentinel(ty, x)
    case NullAt(_, _) => false
  }

  predicate MarksNull(v: Vec, e: Edit)
  {
    e.NullAt? && e.isNull && e.idx < |v.cells| && SentinelOf(v.ty).Some?
  }

  /** The gate never closes over an unreported sentinel. */
  predicate Reported(v: Vec)
  {
    forall i :: 0 <= i < |v.cells| && IsSentinel(v.ty, v.cells[i]) ==> IsNullAt(v, i)
  }

  /** Was the gate raised during the run: by construction, or by a `set_null` that took? */
  predicate GateRaised(v: Vec, es: seq<Edit>)
    decreases |es|
  {
    v.hasNulls || (es != [] && (MarksNull(v, es[0]) || GateRaised(Apply(v, es[0]), es[1..])))
  }

  lemma {:induction false} RunGate(v: Vec, es: seq<Edit>)
    ensures Run(v, es).ty == v.ty
    ensures Run(v, es).hasNulls <==> GateRaised(v, es)
    decreases |es|
  {
    if es != [] {
      RunGate(Apply(v, es[0]), es[1..]);
    }
  }

  /**
   The exact reading of `is_null_at` after any run: the element is the sentinel, and -- for
   the gated types -- the vector was built with one or some `set_null` took effect.
   */
  lemma {:induction false} IsNullAtExactly(ty: Elem, data: seq<Cell>, es: seq<Edit>, i: nat)
    ensures var v := Run(FromRaw(ty, data), es);
      IsNullAt(v, i) <==>
        && i < |v.cells| && IsSentinel(ty, v.cells[i])
        && (Gated(ty) ==> GateRaised(FromRaw(ty, data), es))
  {
    RunGate(FromRaw(ty, data), es);
  }

  lemma {:induction false} RunReported(v: Vec, es: seq<Edit>)
    requires Reported(v)
    requires forall e :: e in es ==> !WritesSentinel(v.ty, e)
    ensures Reported(Run(v, es))
    decreases |es|
  {
    if es != [] {
      var w := Apply(v, es[0]);
      forall i | 0 <= i < |w.cells| && IsSentinel(w.ty, w.cells[i]) ensures IsNullAt(w, i) {
        assert !WritesSentinel(v.ty, es[0]);
        if i < |v.cells| && w.cells[i] == v.cells[i] {
          assert IsNullAt(v, i);
        }
      }
      RunReported(w, es[1..]);
    }
  }

  /** With no sentinel written by `set` or `push`, `is_null_at` sees every null. */
  lemma IsNullAtAgrees(ty: Elem, data: seq<Cell>, es: seq<Edit>, i: nat)
    requires forall e :: e in es ==> !WritesSentinel(ty, e)
    requires i < |Run(FromRaw(ty, data), es).cells|
    ensures var v := Run(FromRaw(ty, data), es);
      IsNullAt(v, i) <==> IsSentinel(ty, v.cells[i])
  {
    RunGate(FromRaw(ty, data), es);
    assert Reported(FromRaw(ty, data));
    RunReported(FromRaw(ty, data), es);
  }

  /** Without that condition it does not: a pushed sentinel reads None but is not reported. */
  lemma PushedSentinelUnreported(ty: Elem, x: Cell)
    requires Gated(ty) && IsSentinel(ty, x)
    ensures var v := Run(FromRaw(ty, []), [PushBack(x)]);
      && !IsNullAt(v, 0)
      && Get(v, 0) == Ok(Atom(ty, x)) && AtomIsNull(Atom(ty, x))
      && ReadOption(Atom(ty, x), Scalars(ty)) == Ok(None)
  {
    var v := FromRaw(ty, []);
    assert Run(v, [PushBack(x)]) == Run(Appended(v, x), []);
  }
}
