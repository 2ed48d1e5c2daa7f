/**
 The operators and the builtin names they lower to (ops.rs), by the sections of the table.

 Lowering replaces an operator by its name and the engine goes back from the name to the builtin,
 so the table has to be invertible; `OpNamed` is the inverse.
 */
module Ops {
  import opened Common

  datatype Operation =
    | Add | Subtract | Multiply | Divide | Modulo | DivInt | Negate
    | Equals | NotEquals | GreaterThan | GreaterEqual | LessThan | LessEqual | Like
    | And | Or | Not
    | Sum | Avg | Count | Min | Max | First | Last | Median | Deviation | Stddev | PearsonCorr | Row
    | Xbar | Ceil | Floor | Round | Rand
    | In | Distinct | Reverse | Group | Take | Top | Bot | Remove | Filter | Find | Within | Sect | Except |
    Union | Raze
    | Select | Update | Insert | Upsert | Where
    | InnerJoin | LeftJoin | AsofJoin | WindowJoin | WindowJoin1
    | Asc | Desc | Xasc | Xdesc | Iasc | Idesc | Rank | Xrank
    | At | Key | ValueOf | Get
    | Map | MapLeft | MapRight | Pmap | Fold | Scan | Apply
    | Til | Enlist
    | List | Type | As | Guid | NilQ
    | Date | Time | Timestamp
    | Ser | De | Parse | Eval | Quote | Load
    | Do | If | Try | Return | Raise
    | Set | Let | Env
    | Dict | Table | Concat
    | Meta | Rc

  predicate IsArithmetic(op: Operation)
  {
    op.Add? || op.Subtract? || op.Multiply? || op.Divide? || op.Modulo? || op.DivInt? || op.Negate?
  }

  function ArithmeticName(op: Operation): string
    requires IsArithmetic(op)
  {
    match op
    case Add => "+"
    case Subtract => "-"
    case Multiply => "*"
    case Divide => "/"
    case Modulo => "%"
    case DivInt => "div"
    case Negate => "neg"
  }

  predicate IsComparison(op: Operation)
  {
    op.Equals? || op.NotEquals? || op.GreaterThan? || op.GreaterEqual? || op.LessThan? || op.LessEqual? ||
    op.Like?
  }

  function ComparisonName(op: Operation): string
    requires IsComparison(op)
  {
    match op
    case Equals => "=="
    case NotEquals => "!="
    case GreaterThan => ">"
    case GreaterEqual => ">="
    case LessThan => "<"
    case LessEqual => "<="
    case Like => "like"
  }

  predicate IsLogical(op: Operation)
  {
    op.And? || op.Or? || op.Not?
  }

  function LogicalName(op: Operation): string
    requires IsLogical(op)
  {
    match op
    case And => "and"
    case Or => "or"
    case Not => "not"
  }

  predicate IsAggregation(op: Operation)
  {
    op.Sum? || op.Avg? || op.Count? || op.Min? || op.Max? || op.First? || op.Last? || op.Median? ||
    op.Deviation? || op.Stddev? || op.PearsonCorr? || op.Row?
  }

  function AggregationName(op: Operation): string
    requires IsAggregation(op)
  {
    match op
    case Sum => "sum"
    case Avg => "avg"
    case Count => "count"
    case Min => "min"
    case Max => "max"
    case First => "first"
    case Last => "last"
    case Median => "med"
    case Deviation => "dev"
    case Stddev => "stddev"
    case PearsonCorr => "pearson_corr"
    case Row => "row"
  }

  predicate IsMath(op: Operation)
  {
    op.Xbar? || op.Ceil? || op.Floor? || op.Round? || op.Rand?
  }

  function MathName(op: Operation): string
    requires IsMath(op)
  {
    match op
    case Xbar => "xbar"
    case Ceil => "ceil"
    case Floor => "floor"
    case Round => "round"
    case Rand => "rand"
  }

  predicate IsCollection(op: Operation)
  {
    op.In? || op.Distinct? || op.Reverse? || op.Group? || op.Take? || op.Top? || op.Bot? || op.Remove? ||
    op.Filter? || op.Find? || op.Within? || op.Sect? || op.Except? || op.Union? || op.Raze?
  }

  function CollectionName(op: Operation): string
    requires IsCollection(op)
  {
    match op
    case In => "in"
    case Distinct => "distinct"
    case Reverse => "reverse"
    case Group => "group"
    case Take => "take"
    case Top => "top"
    case Bot => "bot"
    case Remove => "remove"
    case Filter => "filter"
    case Find => "find"
    case Within => "within"
    case Sect => "sect"
    case Except => "except"
    case Union => "union"
    case Raze => "raze"
  }

  predicate IsQuery(op: Operation)
  {
    op.Select? || op.Update? || op.Insert? || op.Upsert? || op.Where?
  }

  function QueryName(op: Operation): string
    requires IsQuery(op)
  {
    match op
    case Select => "select"
    case Update => "update"
    case Insert => "insert"
    case Upsert => "upsert"
    case Where => "where"
  }

  predicate IsJoin(op: Operation)
  {
    op.InnerJoin? || op.LeftJoin? || op.AsofJoin? || op.WindowJoin? || op.WindowJoin1?
  }

  function JoinName(op: Operation): string
    requires IsJoin(op)
  {
    match op
    case InnerJoin => "inner-join"
    case LeftJoin => "left-join"
    case AsofJoin => "asof-join"
    case WindowJoin => "window-join"
    case WindowJoin1 => "window-join1"
  }

  predicate IsSort(op: Operation)
  {
    op.Asc? || op.Desc? || op.Xasc? || op.Xdesc? || op.Iasc? || op.Idesc? || op.Rank? || op.Xrank?
  }

  function SortName(op: Operation): string
    requires IsSort(op)
  {
    match op
    case Asc => "asc"
    case Desc => "desc"
    case Xasc => "xasc"
    case Xdesc => "xdesc"
    case Iasc => "iasc"
    case Idesc => "idesc"
    case Rank => "rank"
    case Xrank => "xrank"
  }

  predicate IsAccessor(op: Operation)
  {
    op.At? || op.Key? || op.ValueOf? || op.Get?
  }

  function AccessorName(op: Operation): string
    requires IsAccessor(op)
  {
    match op
    case At => "at"
    case Key => "key"
    case ValueOf => "value"
    case Get => "get"
  }

  predicate IsFunctional(op: Operation)
  {
    op.Map? || op.MapLeft? || op.MapRight? || op.Pmap? || op.Fold? || op.Scan? || op.Apply?
  }

  function FunctionalName(op: Operation): string
    requires IsFunctional(op)
  {
    match op
    case Map => "map"
    case MapLeft => "map-left"
    case MapRight => "map-right"
    case Pmap => "pmap"
    case Fold => "fold"
    case Scan => "scan"
    case Apply => "apply"
  }

  predicate IsComposition(op: Operation)
  {
    op.Til? || op.Enlist?
  }

  function CompositionName(op: Operation): string
    requires IsComposition(op)
  {
    match op
    case Til => "til"
    case Enlist => "enlist"
  }

  predicate IsType(op: Operation)
  {
    op.List? || op.Type? || op.As? || op.Guid? || op.NilQ?
  }

  function TypeName(op: Operation): string
    requires IsType(op)
  {
    match op
    case List => "list"
    case Type => "type"
    case As => "as"
    case Guid => "guid"
    case NilQ => "nil?"
  }

  predicate IsTemporal(op: Operation)
  {
    op.Date? || op.Time? || op.Timestamp?
  }

  function TemporalName(op: Operation): string
    requires IsTemporal(op)
  {
    match op
    case Date => "date"
    case Time => "time"
    case Timestamp => "timestamp"
  }

  predicate IsSerialization(op: Operation)
  {
    op.Ser? || op.De? || op.Parse? || op.Eval? || op.Quote? || op.Load?
  }

  function SerializationName(op: Operation): string
    requires IsSerialization(op)
  {
    match op
    case Ser => "ser"
    case De => "de"
    case Parse => "parse"
    case Eval => "eval"
    case Quote => "quote"
    case Load => "load"
  }

  predicate IsControl(op: Operation)
  {
    op.Do? || op.If? || op.Try? || op.Return? || op.Raise?
  }

  function ControlName(op: Operation): string
    requires IsControl(op)
  {
    match op
    case Do => "do"
    case If => "if"
    case Try => "try"
    case Return => "return"
    case Raise => "raise"
  }

  predicate IsVariable(op: Operation)
  {
    op.Set? || op.Let? || op.Env?
  }

  function VariableName(op: Operation): string
    requires IsVariable(op)
  {
    match op
    case Set => "set"
    case Let => "let"
    case Env => "env"
  }

  predicate IsStructure(op: Operation)
  {
    op.Dict? || op.Table? || op.Concat?
  }

  function StructureName(op: Operation): string
    requires IsStructure(op)
  {
    match op
    case Dict => "dict"
    case Table => "table"
    case Concat => "concat"
  }

  predicate IsMetadata(op: Operation)
  {
    op.Meta? || op.Rc?
  }

  function MetadataName(op: Operation): string
    requires IsMetadata(op)
  {
    match op
    case Meta => "meta"
    case Rc => "rc"
  }

  /** `as_str`. */
  function AsStr(op: Operation): string
  {
    if IsArithmetic(op) then ArithmeticName(op)
    else if IsComparison(op) then ComparisonName(op)
    else if IsLogical(op) then LogicalName(op)
    else if IsAggregation(op) then AggregationName(op)
    else if IsMath(op) then MathName(op)
    else if IsCollection(op) then CollectionName(op)
    else if IsQuery(op) then QueryName(op)
    else if IsJoin(op) then JoinName(op)
    else if IsSort(op) then SortName(op)
    else if IsAccessor(op) then AccessorName(op)
    else if IsFunctional(op) then FunctionalName(op)
    else if IsComposition(op) then CompositionName(op)
    else if IsType(op) then TypeName(op)
    else if IsTemporal(op) then TemporalName(op)
    else if IsSerialization(op) then SerializationName(op)
    else if IsControl(op) then ControlName(op)
    else if IsVariable(op) then VariableName(op)
    else if IsStructure(op) then StructureName(op)
    else MetadataName(op)
  }

  function Named1(s: string): Option<Operation>
    requires |s| == 1
  {
    if s == "+" then Some(Add)
    else if s == "-" then Some(Subtract)
    else if s == "*" then Some(Multiply)
    else if s == "/" then Some(Divide)
    else if s == "%" then Some(Modulo)
    else if s == ">" then Some(GreaterThan)
    else if s == "<" then Some(LessThan)
    else None
  }

  function Named2(s: string): Option<Operation>
    requires |s| == 2
  {
    if s[0] == '=' then (if s == "==" then Some(Equals) else None)
    else if s[0] == '!' then (if s == "!=" then Some(NotEquals) else None)
    else if s[0] == '>' then (if s == ">=" then Some(GreaterEqual) else None)
    else if s[0] == '<' then (if s == "<=" then Some(LessEqual) else None)
    else if s[0] == 'o' then (if s == "or" then Some(Or) else None)
    else if s[0] == 'i' then (if s == "in" then Some(In) else if s == "if" then Some(If) else None)
    else if s[0] == 'a' then (if s == "at" then Some(At) else if s == "as" then Some(As) else None)
    else if s[0] == 'd' then (if s == "de" then Some(De) else if s == "do" then Some(Do) else None)
    else if s[0] == 'r' then (if s == "rc" then Some(Rc) else None)
    else None
  }

  function Named3(s: string): Option<Operation>
    requires |s| == 3
  {
    if s[0] == 'd' then (if s == "div" then Some(DivInt) else if s == "dev" then Some(Deviation) else None)
    else if s[0] == 'n' then (if s == "neg" then Some(Negate) else if s == "not" then Some(Not) else None)
    else if s[0] == 'a' then (
      if s == "and" then Some(And)
      else if s == "avg" then Some(Avg)
      else if s == "asc" then Some(Asc)
      else None)
    else if s[0] == 's' then (
      if s == "sum" then Some(Sum)
      else if s == "ser" then Some(Ser)
      else if s == "set" then Some(Set)
      else None)
    else if s[0] == 'm' then (
      if s == "min" then Some(Min)
      else if s == "max" then Some(Max)
      else if s == "med" then Some(Median)
      else if s == "map" then Some(Map)
      else None)
    else if s[0] == 'r' then (if s == "row" then Some(Row) else None)
    else if s[0] == 't' then (
      if s == "top" then Some(Top)
      else if s == "til" then Some(Til)
      else if s == "try" then Some(Try)
      else None)
    else if s[0] == 'b' then (if s == "bot" then Some(Bot) else None)
    else if s[0] == 'k' then (if s == "key" then Some(Key) else None)
    else if s[0] == 'g' then (if s == "get" then Some(Get) else None)
    else if s[0] == 'l' then (if s == "let" then Some(Let) else None)
    else if s[0] == 'e' then (if s == "env" then Some(Env) else None)
    else None
  }

  function Named4(s: string): Option<Operation>
    requires |s| == 4
  {
    if s[0] == 'l' then (
      if s == "like" then Some(Like)
      else if s == "last" then Some(Last)
      else if s == "list" then Some(List)
      else if s == "load" then Some(Load)
      else None)
    else if s[0] == 'x' then (if s == "xbar" then Some(Xbar) else if s == "xasc" then Some(Xasc) else None)
    else if s[0] == 'c' then (if s == "ceil" then Some(Ceil) else None)
    else if s[0] == 'r' then (
      if s == "rand" then Some(Rand)
      else if s == "raze" then Some(Raze)
      else if s == "rank" then Some(Rank)
      else None)
    else if s[0] == 't' then (
      if s == "take" then Some(Take)
      else if s == "type" then Some(Type)
      else if s == "time" then Some(Time)
      else None)
    else if s[0] == 'f' then (if s == "find" then Some(Find) else if s == "fold" then Some(Fold) else None)
    else if s[0] == 's' then (if s == "sect" then Some(Sect) else if s == "scan" then Some(Scan) else None)
    else if s[0] == 'd' then (
      if s == "desc" then Some(Desc)
      else if s == "date" then Some(Date)
      else if s == "dict" then Some(Dict)
      else None)
    else if s[0] == 'i' then (if s == "iasc" then Some(Iasc) else None)
    else if s[0] == 'p' then (if s == "pmap" then Some(Pmap) else None)
    else if s[0] == 'g' then (if s == "guid" then Some(Guid) else None)
    else if s[0] == 'n' then (if s == "nil?" then Some(NilQ) else None)
    else if s[0] == 'e' then (if s == "eval" then Some(Eval) else None)
    else if s[0] == 'm' then (if s == "meta" then Some(Meta) else None)
    else None
  }

  function Named5(s: string): Option<Operation>
    requires |s| == 5
  {
    if s[0] == 'c' then (if s == "count" then Some(Count) else None)
    else if s[0] == 'f' then (if s == "first" then Some(First) else if s == "floor" then Some(Floor) else None)
    else if s[0] == 'r' then (if s == "round" then Some(Round) else if s == "raise" then Some(Raise) else None)
    else if s[0] == 'g' then (if s == "group" then Some(Group) else None)
    else if s[0] == 'u' then (if s == "union" then Some(Union) else None)
    else if s[0] == 'w' then (if s == "where" then Some(Where) else None)
    else if s[0] == 'x' then (if s == "xdesc" then Some(Xdesc) else if s == "xrank" then Some(Xrank) else None)
    else if s[0] == 'i' then (if s == "idesc" then Some(Idesc) else None)
    else if s[0] == 'v' then (if s == "value" then Some(ValueOf) else None)
    else if s[0] == 'a' then (if s == "apply" then Some(Apply) else None)
    else if s[0] == 'p' then (if s == "parse" then Some(Parse) else None)
    else if s[0] == 'q' then (if s == "quote" then Some(Quote) else None)
    else if s[0] == 't' then (if s == "table" then Some(Table) else None)
    else None
  }

  function Named6(s: string): Option<Operation>
    requires |s| == 6
  {
    if s[0] == 's' then (if s == "stddev" then Some(Stddev) else if s == "select" then Some(Select) else None)
    else if s[0] == 'r' then (
      if s == "remove" then Some(Remove)
      else if s == "return" then Some(Return)
      else None)
    else if s[0] == 'f' then (if s == "filter" then Some(Filter) else None)
    else if s[0] == 'w' then (if s == "within" then Some(Within) else None)
    else if s[0] == 'e' then (
      if s == "except" then Some(Except)
      else if s == "enlist" then Some(Enlist)
      else None)
    else if s[0] == 'u' then (
      if s == "update" then Some(Update)
      else if s == "upsert" then Some(Upsert)
      else None)
    else if s[0] == 'i' then (if s == "insert" then Some(Insert) else None)
    else if s[0] == 'c' then (if s == "concat" then Some(Concat) else None)
    else None
  }

  function Named7(s: string): Option<Operation>
    requires |s| == 7
  {
    if s == "reverse" then Some(Reverse)
    else None
  }

  function Named8(s: string): Option<Operation>
    requires |s| == 8
  {
    if s == "distinct" then Some(Distinct)
    else if s == "map-left" then Some(MapLeft)
    else None
  }

  function Named9(s: string): Option<Operation>
    requires |s| == 9
  {
    if s == "left-join" then Some(LeftJoin)
    else if s == "asof-join" then Some(AsofJoin)
    else if s == "map-right" then Some(MapRight)
    else if s == "timestamp" then Some(Timestamp)
    else None
  }

  function Named10(s: string): Option<Operation>
    requires |s| == 10
  {
    if s == "inner-join" then Some(InnerJoin)
    else None
  }

  function Named11(s: string): Option<Operation>
    requires |s| == 11
  {
    if s == "window-join" then Some(WindowJoin)
    else None
  }

  function Named12(s: string): Option<Operation>
    requires |s| == 12
  {
    if s == "pearson_corr" then Some(PearsonCorr)
    else if s == "window-join1" then Some(WindowJoin1)
    else None
  }

  /** The table read backwards, by length. */
  function Named(s: string): Option<Operation>
  {
    if |s| == 1 then Named1(s)
    else if |s| == 2 then Named2(s)
    else if |s| == 3 then Named3(s)
    else if |s| == 4 then Named4(s)
    else if |s| == 5 then Named5(s)
    else if |s| == 6 then Named6(s)
    else if |s| == 7 then Named7(s)
    else if |s| == 8 then Named8(s)
    else if |s| == 9 then Named9(s)
    else if |s| == 10 then Named10(s)
    else if |s| == 11 then Named11(s)
    else if |s| == 12 then Named12(s)
    else None
  }

  /** The builtin called `s`, if any. */
  function OpNamed(s: string): Option<Operation>
  {
    var c := Named(s);
    if c.Some? && AsStr(c.value) == s then c else None
  }

  lemma ArithmeticInverts(op: Operation)
    requires IsArithmetic(op)
    ensures Named(ArithmeticName(op)) == Some(op)
  {
    match op
    case Add => case Subtract => case Multiply => case Divide => case Modulo => case DivInt => case Negate =>
  }

  lemma ComparisonInverts(op: Operation)
    requires IsComparison(op)
    ensures Named(ComparisonName(op)) == Some(op)
  {
    match op
    case Equals => case NotEquals => case GreaterThan => case GreaterEqual => case LessThan =>
    case LessEqual => case Like =>
  }

  lemma LogicalInverts(op: Operation)
    requires IsLogical(op)
    ensures Named(LogicalName(op)) == Some(op)
  {
    match op
    case And => case Or => case Not =>
  }

  lemma AggregationInverts(op: Operation)
    requires IsAggregation(op)
    ensures Named(AggregationName(op)) == Some(op)
  {
    match op
    case Sum => case Avg => case Count => case Min => case Max => case First => case Last => case Median =>
    case Deviation => case Stddev => case PearsonCorr => case Row =>
  }

  lemma MathInverts(op: Operation)
    requires IsMath(op)
    ensures Named(MathName(op)) == Some(op)
  {
    match op
    case Xbar => case Ceil => case Floor => case Round => case Rand =>
  }

  lemma CollectionInverts(op: Operation)
    requires IsCollection(op)
    ensures Named(CollectionName(op)) == Some(op)
  {
    match op
    case In => case Distinct => case Reverse => case Group => case Take => case Top => case Bot =>
    case Remove => case Filter => case Find => case Within => case Sect => case Except => case Union =>
    case Raze =>
  }

  lemma QueryInverts(op: Operation)
    requires IsQuery(op)
    ensures Named(QueryName(op)) == Some(op)
  {
    match op
    case Select => case Update => case Insert => case Upsert => case Where =>
  }

  lemma JoinInverts(op: Operation)
    requires IsJoin(op)
    ensures Named(JoinName(op)) == Some(op)
  {
    match op
    case InnerJoin => case LeftJoin => case AsofJoin => case WindowJoin => case WindowJoin1 =>
  }

  lemma SortInverts(op: Operation)
    requires IsSort(op)
    ensures Named(SortName(op)) == Some(op)
  {
    match op
    case Asc => case Desc => case Xasc => case Xdesc => case Iasc => case Idesc => case Rank => case Xrank =>
  }

  lemma AccessorInverts(op: Operation)
    requires IsAccessor(op)
    ensures Named(AccessorName(op)) == Some(op)
  {
    match op
    case At => case Key => case ValueOf => case Get =>
  }

  lemma FunctionalInverts(op: Operation)
    requires IsFunctional(op)
    ensures Named(FunctionalName(op)) == Some(op)
  {
    match op
    case Map => case MapLeft => case MapRight => case Pmap => case Fold => case Scan => case Apply =>
  }

  lemma CompositionInverts(op: Operation)
    requires IsComposition(op)
    ensures Named(CompositionName(op)) == Some(op)
  {
    match op
    case Til => case Enlist =>
  }

  lemma TypeInverts(op: Operation)
    requires IsType(op)
    ensures Named(TypeName(op)) == Some(op)
  {
    match op
    case List => case Type => case As => case Guid => case NilQ =>
  }

  lemma TemporalInverts(op: Operation)
    requires IsTemporal(op)
    ensures Named(TemporalName(op)) == Some(op)
  {
    match op
    case Date => case Time => case Timestamp =>
  }

  lemma SerializationInverts(op: Operation)
    requires IsSerialization(op)
    ensures Named(SerializationName(op)) == Some(op)
  {
    match op
    case Ser => case De => case Parse => case Eval => case Quote => case Load =>
  }

  lemma ControlInverts(op: Operation)
    requires IsControl(op)
    ensures Named(ControlName(op)) == Some(op)
  {
    match op
    case Do => case If => case Try => case Return => case Raise =>
  }

  lemma VariableInverts(op: Operation)
    requires IsVariable(op)
    ensures Named(VariableName(op)) == Some(op)
  {
    match op
    case Set => case Let => case Env =>
  }

  lemma StructureInverts(op: Operation)
    requires IsStructure(op)
    ensures Named(StructureName(op)) == Some(op)
  {
    match op
    case Dict => case Table => case Concat =>
  }

  lemma MetadataInverts(op: Operation)
    requires IsMetadata(op)
    ensures Named(MetadataName(op)) == Some(op)
  {
    match op
    case Meta => case Rc =>
  }

  lemma SectionsInvert(op: Operation)
    ensures Named(AsStr(op)) == Some(op)
  {
    if IsArithmetic(op) { ArithmeticInverts(op); }
    else if IsComparison(op) { ComparisonInverts(op); }
    else if IsLogical(op) { LogicalInverts(op); }
    else if IsAggregation(op) { AggregationInverts(op); }
    else if IsMath(op) { MathInverts(op); }
    else if IsCollection(op) { CollectionInverts(op); }
    else if IsQuery(op) { QueryInverts(op); }
    else if IsJoin(op) { JoinInverts(op); }
    else if IsSort(op) { SortInverts(op); }
    else if IsAccessor(op) { AccessorInverts(op); }
    else if IsFunctional(op) { FunctionalInverts(op); }
    else if IsComposition(op) { CompositionInverts(op); }
    else if IsType(op) { TypeInverts(op); }
    else if IsTemporal(op) { TemporalInverts(op); }
    else if IsSerialization(op) { SerializationInverts(op); }
    else if IsControl(op) { ControlInverts(op); }
    else if IsVariable(op) { VariableInverts(op); }
    else if IsStructure(op) { StructureInverts(op); }
    else { MetadataInverts(op); }
  }

  /** Every operator is found under its own name ... */
  lemma NamesInvert(op: Operation)
    ensures OpNamed(AsStr(op)) == Some(op)
  {
    SectionsInvert(op);
  }

  /** ... so no two operators share one. */
  lemma NamesDistinct(a: Operation, b: Operation)
    requires AsStr(a) == AsStr(b)
    ensures a == b
  {
    NamesInvert(a);
    NamesInvert(b);
  }
}
