/** The one-level evaluator of `formula.go` and the `+` builtin of
    `formula_builtins.go`. An evaluated Go value is modelled by the expression
    package's `Value`, which covers every type these functions return. */
module Formula {
  import opened Wrappers
  import opened Expression

  /** The namespace of the formula language's own symbols. */
  const FormulaNamespace: Namespace := "formula"

  /** `normalizeSym`: a symbol without a namespace is read in the formula
      namespace; any other symbol is left as it is. */
  function NormalizeSym(s: Symbol): (r: Symbol)
    ensures r.name == s.name
    ensures s.namespace == "" ==> r.namespace == FormulaNamespace
    ensures s.namespace != "" ==> r == s
  {
    if s.namespace == "" then Symbol(s.name, FormulaNamespace) else s
  }

  // ---------------------------------------------------------------------------
  // Function definitions and the lexical environment
  // ---------------------------------------------------------------------------

  /** The implementations a function definition can have: the builtins. */
  datatype Builtin = PlusBuiltin

  /** `fnDef`. */
  datatype FnDef = FnDef(name: Symbol, impl: Builtin)

  /** `sym`: a symbol in the formula namespace. */
  function Sym(name: string): Symbol {
    Symbol(name, FormulaNamespace)
  }

  /** `builtinFunctions`: `+` is the only one. */
  const BuiltinFunctions: seq<FnDef> := [FnDef(Sym("+"), PlusBuiltin)]

  /** `fnDefs[i]` is the first definition named `name`. */
  predicate IsFirstNamed(fnDefs: seq<FnDef>, name: Symbol, i: int) {
    0 <= i < |fnDefs| && fnDefs[i].name == name &&
    forall j :: 0 <= j < i ==> fnDefs[j].name != name
  }

  /** The first definition, in order, whose name is the normalized symbol. */
  function FindFnDef(fnDefs: seq<FnDef>, name: Symbol): (r: Option<FnDef>)
    ensures r.Some? ==> exists i :: IsFirstNamed(fnDefs, NormalizeSym(name), i) && fnDefs[i] == r.value
    ensures r.None? <==> forall i :: 0 <= i < |fnDefs| ==> fnDefs[i].name != NormalizeSym(name)
  {
    if |fnDefs| == 0 then None
    else if fnDefs[0].name.Equals(NormalizeSym(name)) then
      assert IsFirstNamed(fnDefs, NormalizeSym(name), 0);
      Some(fnDefs[0])
    else
      var r := FindFnDef(fnDefs[1..], name);
      if r.Some? then
        var i :| IsFirstNamed(fnDefs[1..], NormalizeSym(name), i) && fnDefs[1..][i] == r.value;
        assert IsFirstNamed(fnDefs, NormalizeSym(name), i + 1) by {
          forall j | 0 <= j < i + 1 ensures fnDefs[j].name != NormalizeSym(name) {
            if j > 0 {
              assert fnDefs[j] == fnDefs[1..][j - 1];
            }
          }
        }
        r
      else
        assert forall i :: 1 <= i < |fnDefs| ==> fnDefs[i] == fnDefs[1..][i - 1];
        r
  }

  /** `lexEnv`: the function bindings visible to an evaluation. */
  class LexEnv {
    var fnDefs: seq<FnDef>

    constructor(fnDefs: seq<FnDef>)
      ensures this.fnDefs == fnDefs
    {
      this.fnDefs := fnDefs;
    }

    /** `lexEnv.copy`: a new environment with the same definitions in the same order. */
    method Copy() returns (out: LexEnv)
      ensures fresh(out) && out.fnDefs == fnDefs
    {
      out := new LexEnv([]);
      out.fnDefs := out.fnDefs + fnDefs;
    }

    /** Appending a definition, as `append(le.fnDefs, fd)` would. */
    method AddFnDef(fd: FnDef)
      modifies this
      ensures fnDefs == old(fnDefs) + [fd]
    {
      fnDefs := fnDefs + [fd];
    }

    /** `lexEnv.resolveFnDef`: the first definition whose name is the
        normalized symbol, or none. */
    method ResolveFnDef(name: Symbol) returns (r: Option<FnDef>)
      ensures r == FindFnDef(fnDefs, name)
    {
      var normalized := NormalizeSym(name);
      for i := 0 to |fnDefs|
        invariant FindFnDef(fnDefs, name) == FindFnDef(fnDefs[i..], name)
      {
        assert fnDefs[i..][1..] == fnDefs[i + 1..];
        if fnDefs[i].name.Equals(normalized) {
          return Some(fnDefs[i]);
        }
      }
      assert fnDefs[|fnDefs|..] == [];
      return None;
    }
  }

  /** A copy is a separate environment: defining a function in the copy leaves
      the original as it was. */
  method CopyThenDefine(le: LexEnv, fd: FnDef) returns (c: LexEnv)
    ensures fresh(c) && c.fnDefs == le.fnDefs + [fd]
    ensures le.fnDefs == old(le.fnDefs)
  {
    c := le.Copy();
    c.AddFnDef(fd);
  }

  // ---------------------------------------------------------------------------
  // `+`
  // ---------------------------------------------------------------------------

  datatype EvalError =
    | EmptyList
    | OperatorNotSymbol(operator: Expression)
    | UnresolvedFunction(symbol: Symbol)
    | UnsupportedExpression(exp: Expression)
    | InvalidPlusArgument(arg: Value)

  /** The argument types `+` accepts as integers: `int8` and `uint8` are not among them. */
  predicate IsPlusInteger(v: Value) {
    v.IntValue? || v.Int16Value? || v.Int32Value? || v.Int64Value? ||
    v.UintValue? || v.Uint16Value? || v.Uint32Value? || v.Uint64Value?
  }

  predicate IsPlusFloat(v: Value) {
    v.Float32Value? || v.Float64Value?
  }

  predicate IsPlusOperand(v: Value) {
    IsPlusInteger(v) || IsPlusFloat(v)
  }

  /** The loop state of `+`: the integer sum, the float sum and whether a
      float has been seen. */
  datatype PlusAcc = PlusAcc(iSum: int, fSum: real, outputFloat: bool)

  /** One turn of the loop of `+`. */
  function PlusStep(acc: PlusAcc, a: Value): (r: Result<PlusAcc, EvalError>)
    ensures r.Ok? <==> IsPlusOperand(a)
    ensures r.Err? ==> r.error == InvalidPlusArgument(a)
    ensures r.Ok? ==> r.value.outputFloat == (acc.outputFloat || IsPlusFloat(a))
    ensures r.Ok? && IsPlusInteger(a) ==> r.value.iSum == acc.iSum + a.i && r.value.fSum == acc.fSum
    ensures r.Ok? && IsPlusFloat(a) ==> r.value.iSum == acc.iSum && r.value.fSum == acc.fSum + a.f
  {
    if IsPlusFloat(a) then Ok(PlusAcc(acc.iSum, acc.fSum + a.f, true))
    else if IsPlusInteger(a) then Ok(PlusAcc(acc.iSum + a.i, acc.fSum, acc.outputFloat))
    else Err(InvalidPlusArgument(a))
  }

  /** The loop state after the arguments, left to right. */
  function PlusFold(args: seq<Value>): (r: Result<PlusAcc, EvalError>)
    ensures r.Err? ==> exists i :: 0 <= i < |args| && !IsPlusOperand(args[i]) && r.error == InvalidPlusArgument(args[i])
    ensures r.Ok? && r.value.outputFloat ==> exists i :: 0 <= i < |args| && IsPlusFloat(args[i])
  {
    if |args| == 0 then Ok(PlusAcc(0, 0.0, false))
    else
      match PlusFold(args[..|args| - 1])
      case Err(e) => Err(e)
      case Ok(acc) => PlusStep(acc, args[|args| - 1])
  }

  /** The result of `+`: `float64(iSum) + fSum` once a float was seen, else `iSum`. */
  function Plus(args: seq<Value>): (r: Result<Value, EvalError>)
    ensures r.Ok? ==> r.value.IntValue? || r.value.Float64Value?
    ensures r.Ok? && r.value.Float64Value? ==> exists i :: 0 <= i < |args| && IsPlusFloat(args[i])
    ensures r.Err? ==> exists i :: 0 <= i < |args| && !IsPlusOperand(args[i]) && r.error == InvalidPlusArgument(args[i])
  {
    match PlusFold(args)
    case Err(e) => Err(e)
    case Ok(acc) => if acc.outputFloat then Ok(Float64Value(acc.iSum as real + acc.fSum)) else Ok(IntValue(acc.iSum))
  }

  /** The closure registered for `+`, as the loop it is. */
  method PlusImpl(args: seq<Value>) returns (r: Result<Value, EvalError>)
    ensures r == Plus(args)
  {
    var fSum := 0.0;
    var iSum := 0;
    var outputFloat := false;
    for k := 0 to |args|
      invariant PlusFold(args[..k]) == Ok(PlusAcc(iSum, fSum, outputFloat))
    {
      assert args[..k + 1][..k] == args[..k];
      var a := args[k];
      if a.Float32Value? || a.Float64Value? {
        fSum := fSum + a.f;
        outputFloat := true;
      } else if IsPlusInteger(a) {
        iSum := iSum + a.i;
      } else {
        assert PlusFold(args[..k + 1]) == Err(InvalidPlusArgument(a));
        FoldErrorPersists(args, k + 1);
        return Err(InvalidPlusArgument(a));
      }
    }
    assert args[..|args|] == args;
    if outputFloat {
      return Ok(Float64Value(iSum as real + fSum));
    }
    return Ok(IntValue(iSum));
  }

  /** Once the loop has failed it fails with the same error to the end. */
  lemma {:induction false} FoldErrorPersists(args: seq<Value>, k: nat)
    requires k <= |args| && PlusFold(args[..k]).Err?
    decreases |args| - k
    ensures PlusFold(args) == PlusFold(args[..k])
  {
    if k == |args| {
      assert args[..k] == args;
    } else {
      assert args[..k + 1][..k] == args[..k];
      FoldErrorPersists(args, k + 1);
    }
  }

  /** `fnDef.impl`: the one builtin, `+`, yields an `int` or a `float64`, and
      fails only by naming an argument it does not accept. */
  function Apply(impl: Builtin, args: seq<Value>): (r: Result<Value, EvalError>)
    ensures impl == PlusBuiltin ==> r == Plus(args)
    ensures r.Ok? ==> r.value.IntValue? || r.value.Float64Value?
    ensures r.Err? ==> exists i :: 0 <= i < |args| && !IsPlusOperand(args[i]) && r.error == InvalidPlusArgument(args[i])
  {
    match impl
    case PlusBuiltin => Plus(args)
  }

  // ---------------------------------------------------------------------------
  // `Eval`
  // ---------------------------------------------------------------------------

  /** The Go types `Eval` returns as they are: every numeric type except
      `uint8`, `string` and `[]byte`. */
  predicate IsLiteral(v: Value) {
    v.IntValue? || v.Int8Value? || v.Int16Value? || v.Int32Value? || v.Int64Value? ||
    v.UintValue? || v.Uint16Value? || v.Uint32Value? || v.Uint64Value? ||
    v.StringValue? || v.Float32Value? || v.Float64Value? || v.BytesValue?
  }

  /** `listValues`: the value of each element, in order. */
  function ValuesOf(l: List): (vs: seq<Value>)
    ensures |vs| == |l.elems|
    ensures forall i :: 0 <= i < |l.elems| ==> vs[i] == l.elems[i].value
  {
    seq(|l.elems|, i requires 0 <= i < |l.elems| => l.elems[i].value)
  }

  /** The loop of `listValues`. */
  method ListValues(l: List) returns (out: seq<Value>)
    ensures out == ValuesOf(l)
  {
    out := [];
    for i := 0 to |l.elems|
      invariant |out| == i
      invariant forall j :: 0 <= j < i ==> out[j] == l.elems[j].value
    {
      out := out + [l.elems[i].value];
    }
  }

  /** `Eval` in the default context, whose environment holds the builtins. */
  function Eval(exp: Expression): (r: Result<Value, EvalError>)
    ensures IsLiteral(exp.value) ==> r == Ok(exp.value)
    ensures !IsLiteral(exp.value) && !exp.value.ListValue? ==> r == Err(UnsupportedExpression(exp))
    ensures exp.value == ListValue(List([])) ==> r == Err(EmptyList)
    ensures exp.value.ListValue? && |exp.value.list.elems| > 0 ==>
      var head := exp.value.list.elems[0];
      if !head.value.SymbolValue? then r == Err(OperatorNotSymbol(head))
      else if NormalizeSym(head.value.symbol) == Sym("+") then r == Plus(ValuesOf(exp.value.list)[1..])
      else r == Err(UnresolvedFunction(head.value.symbol))
  {
    var v := exp.value;
    if IsLiteral(v) then Ok(v)
    else if v.ListValue? then
      var vals := v.list.elems;
      if |vals| == 0 then Err(EmptyList)
      else if !vals[0].value.SymbolValue? then Err(OperatorNotSymbol(vals[0]))
      else
        match FindFnDef(BuiltinFunctions, vals[0].value.symbol)
        case None => Err(UnresolvedFunction(vals[0].value.symbol))
        case Some(fn) => Apply(fn.impl, ValuesOf(v.list)[1..])
    else Err(UnsupportedExpression(exp))
  }

  /** `Eval` as the Go code runs it: a fresh default context, the operator
      resolved by the scanning loop and the builtin run as its loop. */
  method EvalExpression(exp: Expression) returns (r: Result<Value, EvalError>)
    ensures r == Eval(exp)
  {
    var lexEnv := new LexEnv(BuiltinFunctions);
    var unevaled := exp.value;
    if IsLiteral(unevaled) {
      return Ok(unevaled);
    }
    if !unevaled.ListValue? {
      return Err(UnsupportedExpression(exp));
    }
    var v := unevaled.list;
    if |v.elems| == 0 {
      return Err(EmptyList);
    }
    var vals := v.elems;
    if !vals[0].value.SymbolValue? {
      return Err(OperatorNotSymbol(vals[0]));
    }
    var operator := vals[0].value.symbol;
    var fn := lexEnv.ResolveFnDef(operator);
    if fn.None? {
      return Err(UnresolvedFunction(operator));
    }
    var values := ListValues(v);
    match fn.value.impl {
      case PlusBuiltin => r := PlusImpl(values[1..]);
    }
  }
}
