/** The expression value model of package `expression`: symbols, lists and
    expressions, the wire form they carry, the symbol grammar, the conversion
    from tokenizer forms, and canonical printing. */
module Expression {
  import opened Wrappers

  /** A string tag partitioning the symbol name space. */
  type Namespace = string

  /** Symbols written with a bare leading colon live here, as in Common Lisp. */
  const KeywordNamespace: Namespace := "keyword"

  // ---------------------------------------------------------------------------
  // Wire form (the `expression.Expression` protocol message)
  // ---------------------------------------------------------------------------

  datatype SymbolProto = SymbolProto(name: string, namespace: string)

  /** The `value` oneof of the wire message. `Unset` stands for an empty oneof
      and for any variant this version does not know. Integer widths are not
      enforced: every integer field holds an unbounded `int`. */
  datatype ProtoValue =
    | PBool(b: bool)
    | PSfixed32(i: int)
    | PBytes(bytes: seq<bv8>)
    | PString(s: string)
    | PDouble(f: real)
    | PFixed32(i: int)
    | PFixed64(i: int)
    | PFloat(f: real)
    | PInt32(i: int)
    | PInt64(i: int)
    | PSfixed64(i: int)
    | PSint32(i: int)
    | PSint64(i: int)
    | PUint32(i: int)
    | PUint64(i: int)
    | PSymbol(symbol: SymbolProto)
    | PList(elements: seq<ExpressionProto>)
    | Unset

  /** An opaque reference to the place in a source file an expression came from. */
  type SourceRef = string

  datatype ExpressionProto = ExpressionProto(value: ProtoValue, sourceContext: Option<SourceRef>)

  /** A wire message without source context. */
  function Wire(v: ProtoValue): ExpressionProto {
    ExpressionProto(v, None)
  }

  // ---------------------------------------------------------------------------
  // Native values
  // ---------------------------------------------------------------------------

  /** A namespaced identifier; equality is structural. */
  datatype Symbol = Symbol(name: string, namespace: Namespace) {

    /** `Symbol.Equals`: structural on the name and the namespace. */
    function Equals(other: Symbol): (r: bool)
      ensures r <==> this == other
    {
      name == other.name && namespace == other.namespace
    }

    /** Canonical text: `name` without a namespace, `:name` in the keyword
        namespace, `ns:name` otherwise. */
    function ExpressionString(): (r: string)
      ensures namespace == "" <==> r == name
      ensures |r| >= |name| && r[|r| - |name|..] == name
      ensures namespace != "" ==> |r| > |name| && r[|r| - |name| - 1] == ':'
      ensures namespace != KeywordNamespace ==> |namespace| <= |r| && r[..|namespace|] == namespace
    {
      if namespace != "" then
        (if namespace == KeywordNamespace then "" else namespace) + ":" + name
      else name
    }

    /** `Symbol.Proto`: the wire symbol with the same name and namespace. */
    function Proto(): (p: SymbolProto)
      ensures p.name == name && p.namespace == namespace
    {
      SymbolProto(name, namespace)
    }
  }

  /** The Go value held by an expression, one constructor per Go type the value
      can have. Every integer width holds an unbounded `int`; a float holds the
      exact `real` it denotes. */
  datatype Value =
    | BoolValue(b: bool)
    | IntValue(i: int)
    | Int8Value(i: int)
    | Int16Value(i: int)
    | Int32Value(i: int)
    | Int64Value(i: int)
    | UintValue(i: int)
    | Uint8Value(i: int)
    | Uint16Value(i: int)
    | Uint32Value(i: int)
    | Uint64Value(i: int)
    | Float32Value(f: real)
    | Float64Value(f: real)
    | BytesValue(bytes: seq<bv8>)
    | StringValue(s: string)
    | SymbolValue(symbol: Symbol)
    | ListValue(list: List)

  /** An ordered sequence of expressions. */
  datatype List = List(elems: seq<Expression>) {

    /** `List.Len`: the number of elements. */
    function Len(): (n: nat)
      ensures n == |elems|
    {
      |elems|
    }

    /** `List.Nth`: the element at offset `n`; Go panics on an offset outside
        the list, which callers must therefore rule out. */
    function Nth(n: nat): (e: Expression)
      requires n < |elems|
      ensures e == elems[n] && e in elems
    {
      elems[n]
    }

    /** `List.Slice`: the elements themselves, in order. */
    function Slice(): (es: seq<Expression>)
      ensures es == elems
    {
      elems
    }

    /** The wire elements, in order (the loop of `List.Proto`). */
    function Proto(): (ps: seq<ExpressionProto>)
      ensures |ps| == |elems|
      ensures forall i :: 0 <= i < |elems| ==> ps[i] == elems[i].proto
    {
      seq(|elems|, i requires 0 <= i < |elems| => elems[i].proto)
    }
  }

  /** An expression: its wire form and the Go value parsed from it. */
  datatype Expression = Expression(proto: ExpressionProto, value: Value) {

    /** `Expression.Symbol`: the symbol if and only if the value is one. */
    function AsSymbol(): (r: Option<Symbol>)
      ensures r.Some? <==> value.SymbolValue?
      ensures r.Some? ==> value == SymbolValue(r.value)
    {
      if value.SymbolValue? then Some(value.symbol) else None
    }
  }

  /** The wire form and the value agree: parsing the wire form gives back this
      very expression. */
  predicate Agrees(e: Expression) {
    FromProto(e.proto) == Ok(e)
  }

  // ---------------------------------------------------------------------------
  // Errors
  // ---------------------------------------------------------------------------

  datatype Error =
    | BadSymbol(literal: string)
    | DoubleColonKeyword(literal: string)
    | UnsupportedProto(proto: ExpressionProto)
    | ListElementError(index: nat, cause: Error)
    | UnsupportedNumber
    | FormElementError(index: nat, cause: Error)
    | UnsupportedForm

  // ---------------------------------------------------------------------------
  // Wire form to value (`parseValue`, `FromProto`)
  // ---------------------------------------------------------------------------

  /** `parseValue`: Int64 and Sint64 collapse to Go `int`; list elements are
      converted in order and the first failure is reported with its index. */
  function ParseValue(p: ExpressionProto): Result<Value, Error>
    decreases p, 0
  {
    match p.value
    case PBool(b) => Ok(BoolValue(b))
    case PSfixed32(i) => Ok(Int32Value(i))
    case PBytes(bs) => Ok(BytesValue(bs))
    case PString(s) => Ok(StringValue(s))
    case PDouble(f) => Ok(Float64Value(f))
    case PFixed32(i) => Ok(Uint32Value(i))
    case PFixed64(i) => Ok(Uint64Value(i))
    case PFloat(f) => Ok(Float32Value(f))
    case PInt32(i) => Ok(Int32Value(i))
    case PInt64(i) => Ok(IntValue(i))
    case PSfixed64(i) => Ok(Int64Value(i))
    case PSint32(i) => Ok(Int32Value(i))
    case PSint64(i) => Ok(IntValue(i))
    case PUint32(i) => Ok(Uint32Value(i))
    case PUint64(i) => Ok(Uint64Value(i))
    case PSymbol(sp) => Ok(SymbolValue(Symbol(sp.name, sp.namespace)))
    case PList(ps) =>
      (match ParseElements(ps)
       case Ok(l) => Ok(ListValue(l))
       case Err(e) => Err(e))
    case Unset => Err(UnsupportedProto(p))
  }

  /** The list case of `parseValue`. */
  function ParseElements(ps: seq<ExpressionProto>): Result<List, Error>
    decreases ps, 1
  {
    match Sequence(ElementResults(ps))
    case Ok(es) => Ok(List(es))
    case Err(err) => Err(ListElementError(err.0, err.1))
  }

  /** `FromProto` of each element, in order. */
  function ElementResults(ps: seq<ExpressionProto>): (rs: seq<Result<Expression, Error>>)
    decreases ps, 0
    ensures |rs| == |ps| && forall i :: 0 <= i < |ps| ==> rs[i] == FromProto(ps[i])
  {
    seq(|ps|, i requires 0 <= i < |ps| => FromProto(ps[i]))
  }

  /** `FromProto`: the expression keeps the message it was parsed from. */
  function FromProto(p: ExpressionProto): Result<Expression, Error>
    decreases p, 1
  {
    match ParseValue(p)
    case Ok(v) => Ok(Expression(p, v))
    case Err(e) => Err(e)
  }

  /** The loop of `parseValue` that fills `elems`. */
  method ParseListElements(ps: seq<ExpressionProto>) returns (r: Result<List, Error>)
    ensures r == ParseElements(ps)
    ensures r.Ok? ==> |r.value.elems| == |ps|
    ensures r.Ok? ==> forall i :: 0 <= i < |ps| ==> FromProto(ps[i]) == Ok(r.value.elems[i])
    ensures r.Err? <==> exists i :: 0 <= i < |ps| && FromProto(ps[i]).Err?
  {
    ghost var rs := ElementResults(ps);
    var elems: seq<Expression> := [];
    var i := 0;
    while i < |ps|
      invariant 0 <= i <= |ps|
      invariant |elems| == i
      invariant forall j :: 0 <= j < i ==> rs[j] == Ok(elems[j])
    {
      var exp := FromProto(ps[i]);
      if exp.Err? {
        SequenceFirstError(rs, i);
        return Err(ListElementError(i, exp.error));
      }
      elems := elems + [exp.value];
      i := i + 1;
    }
    SequenceAllOk(rs, elems);
    r := Ok(List(elems));
  }

  /** The loop of `List.Proto`. */
  method ListProto(l: List) returns (r: seq<ExpressionProto>)
    ensures |r| == |l.elems|
    ensures forall i :: 0 <= i < |l.elems| ==> r[i] == l.elems[i].proto
  {
    r := [];
    for i := 0 to |l.elems|
      invariant |r| == i
      invariant forall j :: 0 <= j < i ==> r[j] == l.elems[j].proto
    {
      r := r + [l.elems[i].proto];
    }
  }

  // ---------------------------------------------------------------------------
  // Constructors
  // ---------------------------------------------------------------------------

  function FromInt(v: int): (e: Expression)
    ensures e.value == IntValue(v) && e.proto.value == PInt64(v)
    ensures Agrees(e)
  {
    Expression(Wire(PInt64(v)), IntValue(v))
  }

  function FromFloat64(v: real): (e: Expression)
    ensures e.value == Float64Value(v) && e.proto.value == PDouble(v)
    ensures Agrees(e)
  {
    Expression(Wire(PDouble(v)), Float64Value(v))
  }

  /** The value is widened to float64 while the wire form keeps the Float
      variant, which parses back to a float32: the two do not agree. */
  function FromFloat32(v: real): (e: Expression)
    ensures e.value == Float64Value(v) && e.proto.value == PFloat(v)
    ensures !Agrees(e) && FromProto(e.proto) == Ok(Expression(e.proto, Float32Value(v)))
  {
    var e := Expression(Wire(PFloat(v)), Float64Value(v));
    assert FromProto(e.proto) == Ok(Expression(e.proto, Float32Value(v)));
    e
  }

  function FromString(v: string): (e: Expression)
    ensures e.value == StringValue(v) && e.proto.value == PString(v)
    ensures Agrees(e)
  {
    Expression(Wire(PString(v)), StringValue(v))
  }

  function FromList(l: List): (e: Expression)
    ensures e.value == ListValue(l)
  {
    Expression(Wire(PList(l.Proto())), ListValue(l))
  }

  // ---------------------------------------------------------------------------
  // Symbol grammar: `^([^:]*)(::?)?(.*)$`
  // ---------------------------------------------------------------------------

  /** The length of the longest colon-free prefix: the first group of the
      symbol pattern. */
  function FirstColon(s: string): (k: nat)
    ensures k <= |s|
    ensures forall j :: 0 <= j < k ==> s[j] != ':'
    ensures k < |s| ==> s[k] == ':'
  {
    if |s| == 0 || s[0] == ':' then 0 else 1 + FirstColon(s[1..])
  }

  /** `parseSymbol`. The split happens at the first colon and the separator is
      `::` when two colons follow. The pattern fails to match, as Go's `.` does
      not match a newline, exactly when the text after the first colon holds one. */
  function ParseSymbol(literal: string): Result<Symbol, Error> {
    var k := FirstColon(literal);
    if k == |literal| then Ok(Symbol(literal, ""))
    else if '\n' in literal[k + 1..] then Err(BadSymbol(literal))
    else
      var namespace := literal[..k];
      var doubleColon := k + 1 < |literal| && literal[k + 1] == ':';
      var name := if doubleColon then literal[k + 2..] else literal[k + 1..];
      if namespace == "" then
        if doubleColon then Err(DoubleColonKeyword(literal))
        else Ok(Symbol(name, KeywordNamespace))
      else Ok(Symbol(name, namespace))
  }

  // ---------------------------------------------------------------------------
  // Tokenizer forms to expressions (`parseForm`)
  // ---------------------------------------------------------------------------

  /** The kind of numeric constant the tokenizer found (`go/constant` kinds). */
  datatype Number = IntNumber(i: int) | FloatNumber(f: real) | OtherNumber

  /** A node handed back by the external tokenizer. */
  datatype Form =
    | StringForm(s: string)
    | NumberForm(n: Number)
    | SymbolForm(literal: string)
    | ListForm(subforms: seq<Form>)
    | OtherForm

  /** `parseForm`: every result is rebuilt from a wire message by `FromProto`. */
  function ParseForm(f: Form): Result<Expression, Error>
    decreases f
  {
    match f
    case StringForm(s) => FromProto(Wire(PString(s)))
    case NumberForm(n) =>
      (match n
       case FloatNumber(d) => FromProto(Wire(PDouble(d)))
       case IntNumber(i) => FromProto(Wire(PInt64(i)))
       case OtherNumber => Err(UnsupportedNumber))
    case SymbolForm(literal) =>
      (match ParseSymbol(literal)
       case Err(e) => Err(e)
       case Ok(sym) => FromProto(Wire(PSymbol(sym.Proto()))))
    case ListForm(subforms) =>
      (match Sequence(SubformResults(subforms))
       case Err(err) => Err(FormElementError(err.0, err.1))
       case Ok(es) => FromProto(Wire(PList(List(es).Proto()))))
    case OtherForm => Err(UnsupportedForm)
  }

  /** `parseForm` of each child, in order. */
  function SubformResults(subforms: seq<Form>): (rs: seq<Result<Expression, Error>>)
    decreases subforms
    ensures |rs| == |subforms| && forall i :: 0 <= i < |subforms| ==> rs[i] == ParseForm(subforms[i])
  {
    seq(|subforms|, i requires 0 <= i < |subforms| => ParseForm(subforms[i]))
  }

  /** The loop of `parseForm` over a list form's children, appending to
      `exprs` and `protos`. */
  method ParseListForm(subforms: seq<Form>) returns (r: Result<Expression, Error>)
    ensures r == ParseForm(ListForm(subforms))
  {
    ghost var rs := SubformResults(subforms);
    var exprs: seq<Expression> := [];
    var protos: seq<ExpressionProto> := [];
    for i := 0 to |subforms|
      invariant |exprs| == |protos| == i
      invariant forall j :: 0 <= j < i ==> rs[j] == Ok(exprs[j]) && protos[j] == exprs[j].proto
    {
      var e := ParseForm(subforms[i]);
      if e.Err? {
        SequenceFirstError(rs, i);
        return Err(FormElementError(i, e.error));
      }
      exprs := exprs + [e.value];
      protos := protos + [e.value.proto];
    }
    SequenceAllOk(rs, exprs);
    assert protos == List(exprs).Proto();
    r := FromProto(Wire(PList(protos)));
  }

  // ---------------------------------------------------------------------------
  // Canonical printing (`ExpressionString`)
  // ---------------------------------------------------------------------------

  /** The formatting of Go's `fmt` package that the model does not spell out:
      `%q` on a string and `%v` on each float width. */
  datatype Format = Format(quote: string -> string, float32: real -> string, float64: real -> string)

  function Digit(d: nat): char
    requires d < 10
  {
    "0123456789"[d]
  }

  predicate IsDigit(c: char) {
    '0' <= c <= '9'
  }

  /** Decimal text of a natural number: digits only, with no leading zero. */
  function NatString(n: nat): (r: string)
    decreases n
    ensures |r| > 0 && forall i :: 0 <= i < |r| ==> IsDigit(r[i])
    ensures n > 0 ==> r[0] != '0'
  {
    if n < 10 then [Digit(n)] else NatString(n / 10) + [Digit(n % 10)]
  }

  /** `%v` of a Go integer. */
  function IntString(i: int): (r: string)
    ensures |r| > 0 && (r[0] == '-' <==> i < 0)
    ensures forall j :: 0 < j < |r| ==> IsDigit(r[j])
  {
    if i < 0 then "-" + NatString(-i) else NatString(i)
  }

  /** `strings.Join`. */
  function Join(items: seq<string>, sep: string): string {
    if |items| == 0 then ""
    else if |items| == 1 then items[0]
    else items[0] + sep + Join(items[1..], sep)
  }

  function ExpressionString(e: Expression, fmt: Format): (r: string)
    decreases e
    ensures e.value.ListValue? ==> |r| >= 2 && r[0] == '(' && r[|r| - 1] == ')'
    ensures e.value.SymbolValue? ==> r == e.value.symbol.ExpressionString()
    ensures e.value.IntValue? || e.value.Int64Value? || e.value.Uint64Value? ==> |r| > 0 && (r[0] == '-' <==> e.value.i < 0)
  {
    match e.value
    case SymbolValue(s) => s.ExpressionString()
    case ListValue(l) => ListString(l, fmt)
    case StringValue(s) => fmt.quote(s)
    case BoolValue(b) => if b then "true" else "false"
    case Float32Value(f) => fmt.float32(f)
    case Float64Value(f) => fmt.float64(f)
    case BytesValue(bs) =>
      "[" + Join(seq(|bs|, i requires 0 <= i < |bs| => NatString(bs[i] as nat)), " ") + "]"
    case IntValue(i) => IntString(i)
    case Int8Value(i) => IntString(i)
    case Int16Value(i) => IntString(i)
    case Int32Value(i) => IntString(i)
    case Int64Value(i) => IntString(i)
    case UintValue(i) => IntString(i)
    case Uint8Value(i) => IntString(i)
    case Uint16Value(i) => IntString(i)
    case Uint32Value(i) => IntString(i)
    case Uint64Value(i) => IntString(i)
  }

  /** `List.ExpressionString`. */
  function ListString(l: List, fmt: Format): (r: string)
    decreases l, 1
    ensures |r| >= 2 && r[0] == '(' && r[|r| - 1] == ')'
    ensures r[1..|r| - 1] == Join(ChildStrings(l, fmt), " ")
  {
    "(" + Join(ChildStrings(l, fmt), " ") + ")"
  }

  /** The children's canonical texts, in order. */
  function ChildStrings(l: List, fmt: Format): (items: seq<string>)
    decreases l, 0
    ensures |items| == |l.elems| && forall i :: 0 <= i < |l.elems| ==> items[i] == ExpressionString(l.elems[i], fmt)
  {
    seq(|l.elems|, i requires 0 <= i < |l.elems| => ExpressionString(l.elems[i], fmt))
  }

  /** The loop of `List.ExpressionString` that collects the children's texts. */
  method ListExpressionString(l: List, fmt: Format) returns (s: string)
    ensures |s| >= 2 && s[0] == '(' && s[|s| - 1] == ')'
    ensures s[1..|s| - 1] == Join(ChildStrings(l, fmt), " ")
    ensures s == ExpressionString(FromList(l), fmt)
  {
    var items: seq<string> := [];
    for i := 0 to |l.elems|
      invariant |items| == i
      invariant forall j :: 0 <= j < i ==> items[j] == ExpressionString(l.elems[j], fmt)
    {
      items := items + [ExpressionString(l.elems[i], fmt)];
    }
    assert items == ChildStrings(l, fmt);
    s := "(" + Join(items, " ") + ")";
    assert s[1..|s| - 1] == Join(items, " ");
  }
}
