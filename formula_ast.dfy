/** The compiler of `formula_ast.go`: from an expression to a formula syntax
    tree, with `if` parsed by the generic binder. */
module FormulaCompile {
  import opened Wrappers
  import opened Expression
  import opened Expressions
  import opened Formula
  import opened FormulaAst

  // ---------------------------------------------------------------------------
  // The compile-time environment
  // ---------------------------------------------------------------------------

  /** The special forms the compiler knows. */
  datatype SpecialForm = IfElseForm

  /** What a symbol in operator position can be bound to. */
  datatype BoundValue = FunctionDef(def: FnDef) | SpecialFormDef(form: SpecialForm)

  datatype EnvBinding = EnvBinding(name: Symbol, value: BoundValue)

  /** `bindings[i]` is the first binding named `name`. */
  predicate IsFirstBinding(bindings: seq<EnvBinding>, name: Symbol, i: int) {
    0 <= i < |bindings| && bindings[i].name == name &&
    forall j :: 0 <= j < i ==> bindings[j].name != name
  }

  /** `lexEnv.resolve` in the function namespace: the first binding, in order,
      of the normalized symbol. */
  function Resolve(bindings: seq<EnvBinding>, sym: Symbol): (r: Option<BoundValue>)
    ensures r.Some? ==> exists i :: IsFirstBinding(bindings, NormalizeSym(sym), i) && bindings[i].value == r.value
    ensures r.None? <==> forall i :: 0 <= i < |bindings| ==> bindings[i].name != NormalizeSym(sym)
  {
    if |bindings| == 0 then None
    else if bindings[0].name.Equals(NormalizeSym(sym)) then
      assert IsFirstBinding(bindings, NormalizeSym(sym), 0);
      Some(bindings[0].value)
    else
      var r := Resolve(bindings[1..], sym);
      if r.Some? then
        var i :| IsFirstBinding(bindings[1..], NormalizeSym(sym), i) && bindings[1..][i].value == r.value;
        assert IsFirstBinding(bindings, NormalizeSym(sym), i + 1) by {
          forall j | 0 <= j < i + 1 ensures bindings[j].name != NormalizeSym(sym) {
            if j > 0 {
              assert bindings[j] == bindings[1..][j - 1];
            }
          }
        }
        r
      else
        assert forall i :: 1 <= i < |bindings| ==> bindings[i] == bindings[1..][i - 1];
        r
  }

  /** The environment of the default evaluation context: the builtin
      functions, then the special form `if`. */
  function DefaultBindings(): (r: seq<EnvBinding>)
    ensures |r| == |BuiltinFunctions| + 1
    ensures forall i :: 0 <= i < |BuiltinFunctions| ==> r[i] == EnvBinding(BuiltinFunctions[i].name, FunctionDef(BuiltinFunctions[i]))
    ensures r[|BuiltinFunctions|] == EnvBinding(Sym("if"), SpecialFormDef(IfElseForm))
  {
    seq(|BuiltinFunctions|, i requires 0 <= i < |BuiltinFunctions| => EnvBinding(BuiltinFunctions[i].name, FunctionDef(BuiltinFunctions[i])))
    + [EnvBinding(Sym("if"), SpecialFormDef(IfElseForm))]
  }

  // ---------------------------------------------------------------------------
  // Errors
  // ---------------------------------------------------------------------------

  datatype CompileError =
    | EmptyListForm
    | NonSymbolOperator(operand: Expression)
    | UnsupportedOperator(operator: Symbol, form: Expression)
    | UncompilableForm(form: Expression)
    | UnsupportedConstant(value: Value)
    | FuncallArgumentError(index: nat, cause: CompileError)
    | IfElseParseError(bindError: BindError)
    | IfElseMissingThen
    | IfElseTooManyForms
    | IfElseTestError(cause: CompileError)
    | IfElseThenError(cause: CompileError)
    | IfElseElseError(cause: CompileError)

  /** `compileContext.commonExpr`: the node's source context is the form's. */
  function CommonExpr(form: Expression): (c: AstSourceContext)
    ensures c.context == form.proto.sourceContext
  {
    AstSourceContext(form.proto.sourceContext)
  }

  // ---------------------------------------------------------------------------
  // Constants
  // ---------------------------------------------------------------------------

  /** The Go integer types of the expression package. */
  predicate IsIntegerValue(v: Value) {
    v.IntValue? || v.Int8Value? || v.Int16Value? || v.Int32Value? || v.Int64Value? ||
    v.UintValue? || v.Uint8Value? || v.Uint16Value? || v.Uint32Value? || v.Uint64Value?
  }

  /** `compileConst`: integers of every width but `uint8` become a Go `int`,
      a `float32` is widened, strings are kept; anything else, `[]byte`
      included, is not a constant. */
  function CompileConst(form: Expression): (r: Result<Expr, CompileError>)
    ensures r.Ok? <==> IsLiteral(form.value) && !form.value.BytesValue?
    ensures r.Err? ==> r.error == UnsupportedConstant(form.value)
    ensures r.Ok? ==> r.value.ConstantExpr? && r.value.ctx == CommonExpr(form)
    ensures r.Ok? && IsIntegerValue(form.value) ==> r.value.value.value == IntValue(form.value.i) && Agrees(r.value.value)
    ensures r.Ok? && form.value.StringValue? ==> r.value.value.value == form.value && Agrees(r.value.value)
    ensures r.Ok? && form.value.Float64Value? ==> r.value.value.value == form.value && Agrees(r.value.value)
    ensures r.Ok? && form.value.Float32Value? ==> r.value.value.value == Float64Value(form.value.f) && !Agrees(r.value.value)
    ensures r.Ok? && IsIntegerValue(form.value) ==> r.value.value == FromInt(form.value.i)
    ensures r.Ok? && form.value.StringValue? ==> r.value.value == FromString(form.value.s)
    ensures r.Ok? && form.value.Float64Value? ==> r.value.value == FromFloat64(form.value.f)
    ensures r.Ok? && form.value.Float32Value? ==> r.value.value == FromFloat32(form.value.f)
  {
    var v := form.value;
    var constExpr :=
      if v.IntValue? || v.Int8Value? || v.Int16Value? || v.Int32Value? || v.Int64Value? ||
         v.UintValue? || v.Uint16Value? || v.Uint32Value? || v.Uint64Value? then Some(FromInt(v.i))
      else if v.StringValue? then Some(FromString(v.s))
      else if v.Float32Value? then Some(FromFloat32(v.f))
      else if v.Float64Value? then Some(FromFloat64(v.f))
      else None;
    if constExpr.None? then Err(UnsupportedConstant(v))
    else Ok(ConstantExpr(CommonExpr(form), constExpr.value))
  }

  // ---------------------------------------------------------------------------
  // The `if` special form
  // ---------------------------------------------------------------------------

  /** The Go struct `compileIfElse` binds the form into:
      `{Op *Symbol; Test *Expression; Rest []*Expression \`sexpr:"&rest"\`}`. */
  function IfShape(): Shape {
    Struct([
      Field("Op", SymbolRef, None),
      Field("Test", ExpressionRef, None),
      Field("Rest", Slice(ExpressionRef), Some(SymbolForm("&rest")))])
  }

  /** The forms the binder accepts for `if`: a list of at least two elements
      whose head is a symbol. */
  predicate IsIfShaped(form: Expression) {
    form.value.ListValue? && 2 <= |form.value.list.elems| <= MaxInt64 &&
    form.value.list.elems[0].value.SymbolValue?
  }

  /** The struct the binder fills for such a form: the operator, the test and
      the remaining elements. */
  function IfDatum(elems: seq<Expression>): Datum
    requires |elems| >= 2
  {
    Fields([Native(elems[0].value), Handle(elems[1]),
            Items(seq(|elems| - 2, i requires 0 <= i < |elems| - 2 => Handle(elems[i + 2])))])
  }

  /** The binder compiled for the `if` struct: fields at 0, 1 and a rest field
      from 2, so any length from 2 up to `math.MaxInt64`. */
  lemma IfStructBinder()
    ensures CompileStruct(IfShape().fields) == Ok(StructBinder([FieldAnnotation(0, false), FieldAnnotation(1, false), FieldAnnotation(2, true)], 2, MaxInt64))
  {
    var fs := IfShape().fields;
    assert ParseForm(SymbolForm("&rest")) == Ok(Expression(Wire(PSymbol(SymbolProto("&rest", ""))), SymbolValue(RestSymbol))) by {
      assert FirstColon("&rest") == 5;
    }
    assert ParseFieldAnnotation(fs[2], 2, false) == Ok(FieldAnnotation(2, true));
    assert Annotations(fs, 3, true) == Ok([]);
    assert [FieldAnnotation(2, true)] + [] == [FieldAnnotation(2, true)];
    assert Annotations(fs, 2, false) == Ok([FieldAnnotation(2, true)]);
    assert ParseFieldAnnotation(fs[1], 1, false) == Ok(FieldAnnotation(1, false));
    assert [FieldAnnotation(1, false)] + [FieldAnnotation(2, true)] == [FieldAnnotation(1, false), FieldAnnotation(2, true)];
    assert Annotations(fs, 1, false) == Ok([FieldAnnotation(1, false), FieldAnnotation(2, true)]);
    var anns := [FieldAnnotation(0, false), FieldAnnotation(1, false), FieldAnnotation(2, true)];
    assert ParseFieldAnnotation(fs[0], 0, false) == Ok(FieldAnnotation(0, false));
    assert [FieldAnnotation(0, false)] + [FieldAnnotation(1, false), FieldAnnotation(2, true)] == anns;
    assert Annotations(fs, 0, false) == Ok(anns);
    assert anns[..2] == [FieldAnnotation(0, false), FieldAnnotation(1, false)];
    assert anns[..2][..1] == [FieldAnnotation(0, false)];
    assert anns[..2][..1][..0] == [];
    assert MinLengthOf(anns) == 2;
    assert HasRest(anns) by {
      assert anns[2].rest;
    }
  }

  /** Elements bound one by one into `*Expression` slots all succeed. */
  lemma ExpressionSliceBinding(es: seq<Expression>)
    ensures Binding(FromList(List(es)), Slice(ExpressionRef), Nil) ==
      Bound(Items(seq(|es|, i requires 0 <= i < |es| => Handle(es[i]))), None)
  {
    var rs := ElementBindings(List(es), ExpressionRef);
    var vs := seq(|es|, i requires 0 <= i < |es| => Handle(es[i]));
    assert forall j :: 0 <= j < |rs| ==> rs[j] == Ok(vs[j]);
    SequenceAllOk(rs, vs);
  }

  /** The empty symbol `Op` is left holding when the head is not a symbol. */
  const EmptyOp: Datum := Native(SymbolValue(Symbol("", "")))

  /** Why a head that is not a symbol does not bind to a `*Symbol`: the
      `Symbol` struct binder wants a list of exactly two elements, and then
      panics on its unexported `name` field. */
  function OpError(head: Expression): (e: BindError)
    ensures !head.value.ListValue? ==> e == StructFromNonList(head)
    ensures head.value.ListValue? && |head.value.list.elems| < 2 ==> e == TooShort(|head.value.list.elems|, 2)
    ensures head.value.ListValue? && |head.value.list.elems| > 2 ==> e == TooLong(|head.value.list.elems|, 2)
    ensures head.value.ListValue? && |head.value.list.elems| == 2 ==> e == UnexportedFieldPanic("name")
  {
    PackageStructError(head, PackageStructFields(SymbolRef))
  }

  /** The `Op` field takes the head when it is a symbol; otherwise it is given
      a fresh empty symbol and the head's error, wrapped with the field. */
  lemma OpFieldBinding(list: List)
    requires |list.elems| >= 1
    ensures FieldBinding(list, IfShape().fields[0], FieldAnnotation(0, false), Nil) ==
      if list.elems[0].value.SymbolValue? then Bound(Native(list.elems[0].value), None)
      else Bound(EmptyOp, Some(FieldError("Op", 0, OpError(list.elems[0]))))
  {
    var b := Binding(list.elems[0], SymbolRef, Nil);
    assert b == if list.elems[0].value.SymbolValue? then Bound(Native(list.elems[0].value), None)
      else Bound(EmptyOp, Some(OpError(list.elems[0])));
  }

  /** The `Test` field takes the second element. */
  lemma TestFieldBinding(list: List)
    requires |list.elems| >= 2
    ensures FieldBinding(list, IfShape().fields[1], FieldAnnotation(1, false), Nil) == Bound(Handle(list.elems[1]), None)
  {
    assert Binding(list.elems[1], ExpressionRef, Nil) == Bound(Handle(list.elems[1]), None);
  }

  /** The `Rest` field takes every element from the third on. */
  lemma RestFieldBinding(list: List)
    requires |list.elems| >= 2
    ensures FieldBinding(list, IfShape().fields[2], FieldAnnotation(2, true), Nil) == Bound(IfDatum(list.elems).fields[2], None)
  {
    var es := list.elems;
    ExpressionSliceBinding(es[2..]);
    assert seq(|es[2..]|, i requires 0 <= i < |es[2..]| => Handle(es[2..][i])) ==
      seq(|es| - 2, i requires 0 <= i < |es| - 2 => Handle(es[i + 2]));
  }

  /** The annotations the `if` struct compiles to. */
  function IfAnnotations(): seq<FieldAnnotation> {
    [FieldAnnotation(0, false), FieldAnnotation(1, false), FieldAnnotation(2, true)]
  }

  /** The fields of the `if` struct bound in order from a long enough list. */
  lemma IfFieldsBinding(list: List)
    requires 2 <= |list.elems|
    ensures FieldsBinding(list, IfShape().fields, IfAnnotations(), 0, [Nil, Nil, Nil]) ==
      if list.elems[0].value.SymbolValue? then FieldsBound(IfDatum(list.elems).fields, None)
      else FieldsBound([EmptyOp, Nil, Nil], Some(FieldError("Op", 0, OpError(list.elems[0]))))
  {
    var es := list.elems;
    OpFieldBinding(list);
    if es[0].value.SymbolValue? {
      var ds1 := [Native(es[0].value), Nil, Nil];
      assert [Nil, Nil, Nil][0 := Native(es[0].value)] == ds1;
      IfFieldsFromTest(list);
    } else {
      assert [Nil, Nil, Nil][0 := EmptyOp] == [EmptyOp, Nil, Nil];
    }
  }

  /** Binding from the `Test` field on, once `Op` holds the head. */
  lemma IfFieldsFromTest(list: List)
    requires 2 <= |list.elems| && list.elems[0].value.SymbolValue?
    ensures FieldsBinding(list, IfShape().fields, IfAnnotations(), 1, [Native(list.elems[0].value), Nil, Nil]) ==
      FieldsBound(IfDatum(list.elems).fields, None)
  {
    var es := list.elems;
    TestFieldBinding(list);
    var ds2 := [Native(es[0].value), Handle(es[1]), Nil];
    assert [Native(es[0].value), Nil, Nil][1 := Handle(es[1])] == ds2;
    IfFieldsFromRest(list);
  }

  /** Binding the `Rest` field, once `Op` and `Test` hold the first two elements. */
  lemma IfFieldsFromRest(list: List)
    requires 2 <= |list.elems| && list.elems[0].value.SymbolValue?
    ensures FieldsBinding(list, IfShape().fields, IfAnnotations(), 2, [Native(list.elems[0].value), Handle(list.elems[1]), Nil]) ==
      FieldsBound(IfDatum(list.elems).fields, None)
  {
    var es := list.elems;
    RestFieldBinding(list);
    var ds3 := IfDatum(es).fields;
    assert [Native(es[0].value), Handle(es[1]), Nil][2 := ds3[2]] == ds3;
    assert FieldsBinding(list, IfShape().fields, IfAnnotations(), 3, ds3) == FieldsBound(ds3, None);
  }

  /** `expressions.Bind(form, &parsed)` for the `if` struct: it succeeds exactly
      on `if`-shaped forms, filling the struct from the elements, and otherwise
      reports why the form does not fit. */
  lemma IfFormBinding(form: Expression)
    ensures var b := Binding(form, IfShape(), Zero(IfShape()));
      && (b.err.None? <==> IsIfShaped(form))
      && (IsIfShaped(form) ==> b.datum == IfDatum(form.value.list.elems))
      && (!form.value.ListValue? ==> b.err == Some(StructFromNonList(form)))
      && (form.value.ListValue? && |form.value.list.elems| < 2 ==> b.err == Some(TooShort(|form.value.list.elems|, 2)))
      && (form.value.ListValue? && 2 <= |form.value.list.elems| <= MaxInt64 && !form.value.list.elems[0].value.SymbolValue? ==>
            b.err == Some(FieldError("Op", 0, OpError(form.value.list.elems[0]))) && b.datum == Fields([EmptyOp, Nil, Nil]))
  {
    IfStructBinder();
    var d := Zero(IfShape());
    assert d == Fields([Nil, Nil, Nil]);
    var sb := StructBinder(IfAnnotations(), 2, MaxInt64);
    assert Binding(form, IfShape(), d) == StructParse(form, IfShape().fields, sb, d);
    if form.value.ListValue? && 2 <= |form.value.list.elems| {
      IfFieldsBinding(form.value.list);
    }
  }

  // ---------------------------------------------------------------------------
  // `compile`
  // ---------------------------------------------------------------------------

  /** Which element of the `if` form's `Rest` the compiler reads for the else
      branch. The Go code reads `Rest[0]` (formula_ast.go:200), the then form a
      second time; the else form the programmer writes is `Rest[1]`. The rule
      applies at every nesting level. */
  datatype ElseRule = AsWritten | Intended {
    function Index(): (i: nat)
      ensures i < 2
      ensures i == 0 <==> this == AsWritten
    {
      if AsWritten? then 0 else 1
    }
  }

  /** `compile` in an environment, with `if` read by `rule`. */
  function CompileIn(rule: ElseRule, env: seq<EnvBinding>, exp: Expression): (r: Result<Expr, CompileError>)
    decreases exp, 2
    ensures r.Ok? ==> r.value.ctx == CommonExpr(exp)
  {
    var v := exp.value;
    if IsLiteral(v) then CompileConst(exp)
    else if v.SymbolValue? then Ok(VariableRefExpr(CommonExpr(exp), v.symbol))
    else if v.ListValue? then
      var vals := v.list.elems;
      if |vals| == 0 then Err(EmptyListForm)
      else if !vals[0].value.SymbolValue? then Err(NonSymbolOperator(vals[0]))
      else
        var operator := vals[0].value.symbol;
        match Resolve(env, operator)
        case Some(SpecialFormDef(IfElseForm)) => CompileIfElse(rule, env, exp)
        case Some(FunctionDef(_)) => CompileFuncall(rule, env, exp, VariableRefExpr(CommonExpr(vals[0]), operator))
        case None => Err(UnsupportedOperator(operator, exp))
    else Err(UncompilableForm(exp))
  }

  /** Each argument of a call, `vals[1:]`, compiled in order. */
  function ArgResults(rule: ElseRule, env: seq<EnvBinding>, form: Expression): (rs: seq<Result<Expr, CompileError>>)
    requires form.value.ListValue? && |form.value.list.elems| > 0
    decreases form, 0
    ensures |rs| == |form.value.list.elems| - 1
    ensures forall i :: 0 <= i < |rs| ==> rs[i] == CompileIn(rule, env, form.value.list.elems[i + 1])
  {
    var vals := form.value.list.elems;
    seq(|vals| - 1, i requires 0 <= i < |vals| - 1 => CompileIn(rule, env, vals[i + 1]))
  }

  /** `compileFuncall`: the first argument that fails to compile is reported
      with its position among the arguments. */
  function CompileFuncall(rule: ElseRule, env: seq<EnvBinding>, form: Expression, fn: Expr): (r: Result<Expr, CompileError>)
    requires form.value.ListValue? && |form.value.list.elems| > 0
    decreases form, 1
    ensures r.Ok? ==> r.value.FuncallExpr? && r.value.ctx == CommonExpr(form) && r.value.fn == fn
  {
    match Sequence(ArgResults(rule, env, form))
    case Err((i, e)) => Err(FuncallArgumentError(i, e))
    case Ok(argExprs) => Ok(FuncallExpr(CommonExpr(form), fn, argExprs))
  }

  /** The loop of `compileFuncall`. */
  method CompileFuncallLoop(rule: ElseRule, env: seq<EnvBinding>, form: Expression, fn: Expr) returns (r: Result<Expr, CompileError>)
    requires form.value.ListValue? && |form.value.list.elems| > 0
    ensures r == CompileFuncall(rule, env, form, fn)
  {
    var args := form.value.list.elems[1..];
    var rs := ArgResults(rule, env, form);
    var argExprs: seq<Expr> := [];
    for i := 0 to |args|
      invariant |argExprs| == i
      invariant forall j :: 0 <= j < i ==> rs[j] == Ok(argExprs[j])
    {
      assert rs[i] == CompileIn(rule, env, args[i]);
      var compiledArg := CompileIn(rule, env, args[i]);
      if compiledArg.Err? {
        SequenceFirstError(rs, i);
        return Err(FuncallArgumentError(i, compiledArg.error));
      }
      argExprs := argExprs + [compiledArg.value];
    }
    SequenceAllOk(rs, argExprs);
    return Ok(FuncallExpr(CommonExpr(form), fn, argExprs));
  }

  /** The `parsed` struct of `compileIfElse` after a successful bind. */
  datatype IfParts = IfParts(op: Symbol, test: Expression, rest: seq<Expression>)

  /** `expressions.Bind(form, &parsed)`, read back from the struct it fills. */
  function IfParse(form: Expression): (r: Result<IfParts, BindError>)
    ensures r.Ok? <==> IsIfShaped(form)
    ensures r.Ok? ==> r.value == IfParts(form.value.list.elems[0].value.symbol, form.value.list.elems[1], form.value.list.elems[2..])
    ensures r.Err? ==> Some(r.error) == Binding(form, IfShape(), Zero(IfShape())).err
  {
    var b := Binding(form, IfShape(), Zero(IfShape()));
    IfFormBinding(form);
    if b.err.Some? then Err(b.err.value)
    else
      ReadIfDatum(form.value.list.elems, b.datum)
  }

  /** The operator, test and rest forms held by the filled struct. */
  function ReadIfDatum(elems: seq<Expression>, parsed: Datum): (r: Result<IfParts, BindError>)
    requires |elems| >= 2 && elems[0].value.SymbolValue? && parsed == IfDatum(elems)
    ensures r == Ok(IfParts(elems[0].value.symbol, elems[1], elems[2..]))
  {
    var rest := parsed.fields[2].items;
    assert seq(|rest|, i requires 0 <= i < |rest| => rest[i].exp) == elems[2..];
    Ok(IfParts(parsed.fields[0].v.symbol, parsed.fields[1].exp, seq(|rest|, i requires 0 <= i < |rest| => rest[i].exp)))
  }

  /** `compileIfElse`: after the arity checks, the test, then and else nodes
      are compiled from `Test`, `Rest[0]` and `Rest[rule.Index()]`. */
  function CompileIfElse(rule: ElseRule, env: seq<EnvBinding>, form: Expression): (r: Result<Expr, CompileError>)
    decreases form, 0
    ensures r.Ok? ==> r.value.IfElseExpr? && r.value.ctx == CommonExpr(form)
  {
    match IfParse(form)
    case Err(e) => Err(IfElseParseError(e))
    case Ok(parsed) =>
      var elems := form.value.list.elems;
      var rest := parsed.rest;
      if |rest| == 0 then Err(IfElseMissingThen)
      else if |rest| > 2 then Err(IfElseTooManyForms)
      else
        assert parsed.test == elems[1] && rest[0] == elems[2];
        match CompileIn(rule, env, parsed.test)
        case Err(e) => Err(IfElseTestError(e))
        case Ok(testExpr) =>
          match CompileIn(rule, env, rest[0])
          case Err(e) => Err(IfElseThenError(e))
          case Ok(thenExpr) =>
            if |rest| == 2 then
              assert rest[rule.Index()] == elems[rule.Index() + 2];
              match CompileIn(rule, env, rest[rule.Index()])
              case Err(e) => Err(IfElseElseError(e))
              case Ok(elseExpr) => Ok(IfElseExpr(CommonExpr(form), testExpr, thenExpr, Some(elseExpr)))
            else Ok(IfElseExpr(CommonExpr(form), testExpr, thenExpr, None))
  }

  /** `CompiledExpression`. */
  datatype CompiledExpression = CompiledExpression(expr: Expr)

  /** `Compile` as the Go code runs it: compile in the default context's
      environment, reading every `if`'s else branch from `Rest[0]`. */
  function Compile(exp: Expression): (r: Result<CompiledExpression, CompileError>)
    ensures r.Ok? <==> CompileIn(AsWritten, DefaultBindings(), exp).Ok?
    ensures r.Ok? ==> r.value.expr == CompileIn(AsWritten, DefaultBindings(), exp).value
  {
    match CompileIn(AsWritten, DefaultBindings(), exp)
    case Err(e) => Err(e)
    case Ok(ex) => Ok(CompiledExpression(ex))
  }

  /** `Compile` as its tests expect it: every `if`'s else branch is compiled
      from its else form, `Rest[1]`. */
  function CompileIntended(exp: Expression): (r: Result<CompiledExpression, CompileError>)
    ensures r.Ok? <==> CompileIn(Intended, DefaultBindings(), exp).Ok?
    ensures r.Ok? ==> r.value.expr == CompileIn(Intended, DefaultBindings(), exp).value
  {
    match CompileIn(Intended, DefaultBindings(), exp)
    case Err(e) => Err(e)
    case Ok(ex) => Ok(CompiledExpression(ex))
  }

  /** `CompiledExpression.astProto`: the IR message of the compiled tree,
      carrying the root's source context. */
  function CompiledAst(ce: CompiledExpression): (p: AstExpression)
    ensures p.sourceContext == ce.expr.ctx
  {
    AstProjection(ce.expr)
  }
}
