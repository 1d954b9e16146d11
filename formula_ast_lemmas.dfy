/** Properties of the formula compiler and of its syntax tree's IR form. */
module FormulaAstLemmas {
  import opened Wrappers
  import opened Expression
  import opened Expressions
  import opened Formula
  import opened FormulaAst
  import opened FormulaCompile

  // ---------------------------------------------------------------------------
  // The IR form describes the tree
  // ---------------------------------------------------------------------------

  /** A tree of nodes the message can describe reads back from its projection
      unchanged. */
  lemma {:induction false} AstRoundTrip(e: Expr)
    requires Describable(e)
    decreases e
    ensures ExprFromAst(AstProjection(e)) == Ok(e)
  {
    match e
    case VoidExpr(_) =>
    case ConstantExpr(_, v) =>
    case VariableRefExpr(_, _) =>
    case FuncallExpr(ctx, fn, args) =>
      AstRoundTrip(fn);
      var ps := seq(|args|, i requires 0 <= i < |args| => AstProjection(args[i]));
      var rs := seq(|ps|, i requires 0 <= i < |ps| => ExprFromAst(ps[i]));
      forall i | 0 <= i < |args| ensures rs[i] == Ok(args[i]) {
        AstRoundTrip(args[i]);
      }
      SequenceAllOk(rs, args);
    case IfElseExpr(_, test, thenExpr, elseExpr) =>
      AstRoundTrip(test);
      AstRoundTrip(thenExpr);
      if elseExpr.Some? {
        AstRoundTrip(elseExpr.value);
      }
  }

  /** Every tree read from a message projects back to that very message. */
  lemma {:induction false} MessageRoundTrip(p: AstExpression)
    decreases p
    ensures ExprFromAst(p).Ok? ==> AstProjection(ExprFromAst(p).value) == p
  {
    if ExprFromAst(p).Ok? {
      match p.value
      case NoValue =>
      case ConstantValue(c) =>
      case VariableValue(sp) =>
      case FuncallValue(fn, args) =>
        MessageRoundTrip(fn);
        var rs := seq(|args|, i requires 0 <= i < |args| => ExprFromAst(args[i]));
        var es := Sequence(rs).value;
        var e := ExprFromAst(p).value;
        assert e == FuncallExpr(p.sourceContext, ExprFromAst(fn).value, es);
        forall i | 0 <= i < |args| ensures AstProjection(es[i]) == args[i] {
          assert rs[i] == Ok(es[i]);
          MessageRoundTrip(args[i]);
        }
        assert seq(|es|, i requires 0 <= i < |es| => AstProjection(es[i])) == args;
      case IfElseValue(test, thenExpression, elseExpression) =>
        MessageRoundTrip(test);
        MessageRoundTrip(thenExpression);
        if elseExpression.Some? {
          MessageRoundTrip(elseExpression.value);
        }
    }
  }

  /** Function, while-loop and let nodes project to the same message as a
      void node with their source context. */
  lemma PlaceholdersProjectAlike(ctx: AstSourceContext)
    ensures AstProjection(FunctionExpr(ctx)) == AstProjection(VoidExpr(ctx))
    ensures AstProjection(WhileLoopExpr(ctx)) == AstProjection(VoidExpr(ctx))
    ensures AstProjection(LetExpr(ctx)) == AstProjection(VoidExpr(ctx))
    ensures ExprFromAst(AstProjection(FunctionExpr(ctx))) == Ok(VoidExpr(ctx))
  {
  }

  /** What each node's message holds: a constant's wire form, the callee and
      every argument in order, the variable's name and namespace, an else
      branch exactly when the node has one, and nothing for the placeholders. */
  lemma ProjectionContents(e: Expr)
    ensures var p := AstProjection(e);
      && (e.ConstantExpr? ==> p.value == ConstantValue(e.value.proto))
      && (e.FuncallExpr? ==> (p.value.FuncallValue? && p.value.callee == AstProjection(e.fn) &&
                               |p.value.positionalArgs| == |e.args| &&
                               forall i :: 0 <= i < |e.args| ==> p.value.positionalArgs[i] == AstProjection(e.args[i])))
      && (e.VariableRefExpr? ==> p.value == VariableValue(SymbolProto(e.sym.name, e.sym.namespace)))
      && (e.IfElseExpr? ==> (p.value.IfElseValue? && p.value.test == AstProjection(e.test) &&
                              p.value.thenExpression == AstProjection(e.thenExpr) &&
                              (p.value.elseExpression.None? <==> e.elseExpr.None?)))
      && (e.VoidExpr? || e.FunctionExpr? || e.WhileLoopExpr? || e.LetExpr? ==> p.value == NoValue)
  {
  }

  // ---------------------------------------------------------------------------
  // The default environment
  // ---------------------------------------------------------------------------

  /** In the default environment `+` names the builtin function and `if` the
      special form, with or without the formula namespace; nothing else is bound. */
  lemma DefaultResolution(sym: Symbol)
    ensures Resolve(DefaultBindings(), sym) ==
      if NormalizeSym(sym) == Sym("+") then Some(FunctionDef(FnDef(Sym("+"), PlusBuiltin)))
      else if NormalizeSym(sym) == Sym("if") then Some(SpecialFormDef(IfElseForm))
      else None
  {
    var bs := DefaultBindings();
    assert bs == [EnvBinding(Sym("+"), FunctionDef(FnDef(Sym("+"), PlusBuiltin))), EnvBinding(Sym("if"), SpecialFormDef(IfElseForm))];
    if NormalizeSym(sym) == Sym("+") {
      assert IsFirstBinding(bs, NormalizeSym(sym), 0);
    } else if NormalizeSym(sym) == Sym("if") {
      assert !IsFirstBinding(bs, NormalizeSym(sym), 0);
    }
  }

  // ---------------------------------------------------------------------------
  // Calls and `if`
  // ---------------------------------------------------------------------------

  /** How `compile` dispatches on the value: constants, symbols, the three
      list errors, special forms, function calls and the unsupported rest. */
  lemma CompileDispatch(rule: ElseRule, env: seq<EnvBinding>, exp: Expression)
    ensures exp.value.SymbolValue? ==> CompileIn(rule, env, exp) == Ok(VariableRefExpr(CommonExpr(exp), exp.value.symbol))
    ensures exp.value.BoolValue? || exp.value.Uint8Value? ==> CompileIn(rule, env, exp) == Err(UncompilableForm(exp))
    ensures exp.value.BytesValue? ==> CompileIn(rule, env, exp) == Err(UnsupportedConstant(exp.value))
    ensures exp.value == ListValue(List([])) ==> CompileIn(rule, env, exp) == Err(EmptyListForm)
    ensures exp.value.ListValue? && |exp.value.list.elems| > 0 ==>
      var head := exp.value.list.elems[0];
      if !head.value.SymbolValue? then CompileIn(rule, env, exp) == Err(NonSymbolOperator(head))
      else match Resolve(env, head.value.symbol)
        case None => CompileIn(rule, env, exp) == Err(UnsupportedOperator(head.value.symbol, exp))
        case Some(SpecialFormDef(_)) => CompileIn(rule, env, exp) == CompileIfElse(rule, env, exp)
        case Some(FunctionDef(_)) => CompileIn(rule, env, exp) == CompileFuncall(rule, env, exp, VariableRefExpr(CommonExpr(head), head.value.symbol))
  {
  }

  /** A call compiles exactly when every argument does, into the compiled
      arguments in order; otherwise the first failing argument is reported. */
  lemma FuncallArguments(rule: ElseRule, env: seq<EnvBinding>, form: Expression, fn: Expr)
    requires form.value.ListValue? && |form.value.list.elems| > 0
    ensures var args := form.value.list.elems[1..];
      && (CompileFuncall(rule, env, form, fn).Ok? <==> forall i :: 0 <= i < |args| ==> CompileIn(rule, env, args[i]).Ok?)
      && (CompileFuncall(rule, env, form, fn).Ok? ==>
            |CompileFuncall(rule, env, form, fn).value.args| == |args| &&
            forall i :: 0 <= i < |args| ==> CompileIn(rule, env, args[i]) == Ok(CompileFuncall(rule, env, form, fn).value.args[i]))
      && (forall i :: 0 <= i < |args| && CompileIn(rule, env, args[i]).Err? && (forall j :: 0 <= j < i ==> CompileIn(rule, env, args[j]).Ok?) ==>
            CompileFuncall(rule, env, form, fn) == Err(FuncallArgumentError(i, CompileIn(rule, env, args[i]).error)))
  {
    var args := form.value.list.elems[1..];
    var rs := ArgResults(rule, env, form);
    assert forall i :: 0 <= i < |args| ==> rs[i] == CompileIn(rule, env, args[i]);
    forall i | 0 <= i < |args| && CompileIn(rule, env, args[i]).Err? && (forall j :: 0 <= j < i ==> CompileIn(rule, env, args[j]).Ok?)
      ensures CompileFuncall(rule, env, form, fn) == Err(FuncallArgumentError(i, CompileIn(rule, env, args[i]).error))
    {
      SequenceFirstError(rs, i);
    }
  }

  /** `(if TEST)` has no then branch and `(if TEST THEN ELSE EXTRA...)` has too
      many forms, whatever the subforms are and whichever else rule applies. */
  lemma IfElseArity(rule: ElseRule, env: seq<EnvBinding>, form: Expression)
    requires IsIfShaped(form)
    ensures |form.value.list.elems| == 2 ==> CompileIfElse(rule, env, form) == Err(IfElseMissingThen)
    ensures |form.value.list.elems| > 4 ==> CompileIfElse(rule, env, form) == Err(IfElseTooManyForms)
  {
  }

  /** The intended `if`: the test, then and else nodes are compiled from the
      second, third and fourth elements. */
  lemma IfElseBranches(env: seq<EnvBinding>, form: Expression, t: Expr, th: Expr)
    requires IsIfShaped(form) && 3 <= |form.value.list.elems| <= 4
    requires CompileIn(Intended, env, form.value.list.elems[1]) == Ok(t)
    requires CompileIn(Intended, env, form.value.list.elems[2]) == Ok(th)
    ensures |form.value.list.elems| == 3 ==> CompileIfElse(Intended, env, form) == Ok(IfElseExpr(CommonExpr(form), t, th, None))
    ensures |form.value.list.elems| == 4 && CompileIn(Intended, env, form.value.list.elems[3]).Ok? ==>
      CompileIfElse(Intended, env, form) == Ok(IfElseExpr(CommonExpr(form), t, th, Some(CompileIn(Intended, env, form.value.list.elems[3]).value)))
    ensures |form.value.list.elems| == 4 && CompileIn(Intended, env, form.value.list.elems[3]).Err? ==>
      CompileIfElse(Intended, env, form) == Err(IfElseElseError(CompileIn(Intended, env, form.value.list.elems[3]).error))
  {
    var es := form.value.list.elems;
    assert es[2..][0] == es[2];
    if |es| == 4 {
      assert es[2..][1] == es[3];
    }
  }

  /** The `if` as written: whenever there is an else form, the else node is a
      second compilation of the then form, and the else form is never looked at. */
  lemma IfElseAsWrittenRepeatsThen(env: seq<EnvBinding>, form: Expression, t: Expr, th: Expr)
    requires IsIfShaped(form) && |form.value.list.elems| == 4
    requires CompileIn(AsWritten, env, form.value.list.elems[1]) == Ok(t)
    requires CompileIn(AsWritten, env, form.value.list.elems[2]) == Ok(th)
    ensures CompileIfElse(AsWritten, env, form) == Ok(IfElseExpr(CommonExpr(form), t, th, Some(th)))
  {
    assert form.value.list.elems[2..][0] == form.value.list.elems[2];
  }

  // ---------------------------------------------------------------------------
  // Compiled trees without `float32` constants are described by their IR form
  // ---------------------------------------------------------------------------

  /** No `float32` value occurs in the expression. */
  predicate Float32Free(exp: Expression)
    decreases exp
  {
    match exp.value
    case Float32Value(_) => false
    case ListValue(l) => forall i :: 0 <= i < |l.elems| ==> Float32Free(l.elems[i])
    case _ => true
  }

  /** Every tree compiled from an expression without `float32` values reads
      back from its IR form. A `float32` constant does not: it is widened to
      `float64` while its wire form still says float. */
  lemma {:induction false} CompiledDescribable(rule: ElseRule, env: seq<EnvBinding>, exp: Expression)
    requires Float32Free(exp) && CompileIn(rule, env, exp).Ok?
    decreases exp, 2
    ensures Describable(CompileIn(rule, env, exp).value)
  {
    var v := exp.value;
    if !IsLiteral(v) && v.ListValue? {
      var vals := v.list.elems;
      var operator := vals[0].value.symbol;
      match Resolve(env, operator)
      case Some(SpecialFormDef(IfElseForm)) => IfElseDescribable(rule, env, exp);
      case Some(FunctionDef(_)) => FuncallDescribable(rule, env, exp, VariableRefExpr(CommonExpr(vals[0]), operator));
    }
  }

  lemma {:induction false} FuncallDescribable(rule: ElseRule, env: seq<EnvBinding>, form: Expression, fn: Expr)
    requires form.value.ListValue? && |form.value.list.elems| > 0
    requires Float32Free(form) && Describable(fn) && CompileFuncall(rule, env, form, fn).Ok?
    decreases form, 1
    ensures Describable(CompileFuncall(rule, env, form, fn).value)
  {
    var vals := form.value.list.elems;
    var rs := ArgResults(rule, env, form);
    var call := CompileFuncall(rule, env, form, fn).value;
    forall i | 0 <= i < |call.args| ensures Describable(call.args[i]) {
      assert rs[i] == CompileIn(rule, env, vals[i + 1]) == Ok(call.args[i]);
      CompiledDescribable(rule, env, vals[i + 1]);
    }
  }

  lemma {:induction false} IfElseDescribable(rule: ElseRule, env: seq<EnvBinding>, form: Expression)
    requires Float32Free(form) && CompileIfElse(rule, env, form).Ok?
    decreases form, 0
    ensures Describable(CompileIfElse(rule, env, form).value)
  {
    var es := form.value.list.elems;
    var k := rule.Index();
    assert es[2..][0] == es[2];
    CompiledDescribable(rule, env, es[1]);
    CompiledDescribable(rule, env, es[2]);
    if |es| == 4 {
      assert es[2..][k] == es[k + 2];
      CompiledDescribable(rule, env, es[k + 2]);
    }
  }

  /** What `Compile` returns reads back from its IR message, `astProto`, when
      the input holds no `float32` value; so does what the intended compiler
      returns. */
  lemma CompiledRoundTrip(exp: Expression)
    ensures Float32Free(exp) && Compile(exp).Ok? ==> ExprFromAst(CompiledAst(Compile(exp).value)) == Ok(Compile(exp).value.expr)
    ensures Float32Free(exp) && CompileIntended(exp).Ok? ==> ExprFromAst(CompiledAst(CompileIntended(exp).value)) == Ok(CompileIntended(exp).value.expr)
  {
    if Float32Free(exp) && Compile(exp).Ok? {
      CompiledDescribable(AsWritten, DefaultBindings(), exp);
      AstRoundTrip(Compile(exp).value.expr);
    }
    if Float32Free(exp) && CompileIntended(exp).Ok? {
      CompiledDescribable(Intended, DefaultBindings(), exp);
      AstRoundTrip(CompileIntended(exp).value.expr);
    }
  }

  // ---------------------------------------------------------------------------
  // The compiler on the forms of its tests
  // ---------------------------------------------------------------------------

  /** The expression read from a symbol's text without a colon. */
  function SymbolExpr(name: string): Expression {
    Expression(Wire(PSymbol(SymbolProto(name, ""))), SymbolValue(Symbol(name, "")))
  }

  /** The list expression of the given elements. */
  function ListExpr(elems: seq<Expression>): Expression {
    FromList(List(elems))
  }

  const NoContext := AstSourceContext(None)

  /** `1` compiles to a constant whose IR form holds the Int64 wire value 1. */
  lemma CompileIntExample()
    ensures Compile(FromInt(1)) == Ok(CompiledExpression(ConstantExpr(NoContext, FromInt(1))))
    ensures CompiledAst(Compile(FromInt(1)).value) == AstExpression(NoContext, ConstantValue(Wire(PInt64(1))))
  {
  }

  /** `(+ 1 2)` compiles to a call of the variable `+` on the constants 1 and 2. */
  lemma CompileFuncallExample()
    ensures Compile(ListExpr([SymbolExpr("+"), FromInt(1), FromInt(2)])) ==
      Ok(CompiledExpression(FuncallExpr(NoContext, VariableRefExpr(NoContext, Symbol("+", "")),
        [ConstantExpr(NoContext, FromInt(1)), ConstantExpr(NoContext, FromInt(2))])))
  {
    var form := ListExpr([SymbolExpr("+"), FromInt(1), FromInt(2)]);
    DefaultResolution(Symbol("+", ""));
    var rs := ArgResults(AsWritten, DefaultBindings(), form);
    SequenceAllOk(rs, [ConstantExpr(NoContext, FromInt(1)), ConstantExpr(NoContext, FromInt(2))]);
  }

  /** The form `(if true 1 0)`. */
  function IfTrueOneZero(): Expression {
    ListExpr([SymbolExpr("if"), SymbolExpr("true"), FromInt(1), FromInt(0)])
  }

  /** The intended compiler gives `(if true 1 0)` the variable `true` as test,
      then branch 1 and else branch 0, the IR its test expects. */
  lemma CompileIfElseExample()
    ensures CompileIntended(IfTrueOneZero()) ==
      Ok(CompiledExpression(IfElseExpr(NoContext, VariableRefExpr(NoContext, Symbol("true", "")),
        ConstantExpr(NoContext, FromInt(1)), Some(ConstantExpr(NoContext, FromInt(0))))))
  {
    var form := IfTrueOneZero();
    var es := form.value.list.elems;
    DefaultResolution(Symbol("if", ""));
    assert IsIfShaped(form);
    CompileDispatch(Intended, DefaultBindings(), form);
    CompileDispatch(Intended, DefaultBindings(), es[1]);
    assert CompileIn(Intended, DefaultBindings(), es[2]) == Ok(ConstantExpr(NoContext, FromInt(1)));
    assert CompileIn(Intended, DefaultBindings(), es[3]) == Ok(ConstantExpr(NoContext, FromInt(0)));
    IfElseBranches(DefaultBindings(), form, VariableRefExpr(NoContext, Symbol("true", "")), ConstantExpr(NoContext, FromInt(1)));
  }

  /** As written, `Compile` gives `(if true 1 0)` else branch 1, not the 0 its
      test expects. */
  lemma AsWrittenIfElseExample()
    ensures Compile(IfTrueOneZero()) ==
      Ok(CompiledExpression(IfElseExpr(NoContext, VariableRefExpr(NoContext, Symbol("true", "")),
        ConstantExpr(NoContext, FromInt(1)), Some(ConstantExpr(NoContext, FromInt(1))))))
  {
    var form := IfTrueOneZero();
    var es := form.value.list.elems;
    DefaultResolution(Symbol("if", ""));
    assert IsIfShaped(form);
    CompileDispatch(AsWritten, DefaultBindings(), form);
    CompileDispatch(AsWritten, DefaultBindings(), es[1]);
    assert CompileIn(AsWritten, DefaultBindings(), es[2]) == Ok(ConstantExpr(NoContext, FromInt(1)));
    IfElseAsWrittenRepeatsThen(DefaultBindings(), form, VariableRefExpr(NoContext, Symbol("true", "")), ConstantExpr(NoContext, FromInt(1)));
  }

  /** The form `(if true (if a 1 2) 3)`. */
  function NestedIf(): Expression {
    ListExpr([SymbolExpr("if"), SymbolExpr("true"),
      ListExpr([SymbolExpr("if"), SymbolExpr("a"), FromInt(1), FromInt(2)]), FromInt(3)])
  }

  /** The as-written rule holds at every level: in `(if true (if a 1 2) 3)`
      the inner `if` also reads its else from its then form, so both of its
      branches are 1, and the outer else repeats the inner `if`. */
  lemma AsWrittenNestedIfExample()
    ensures var inner := IfElseExpr(NoContext, VariableRefExpr(NoContext, Symbol("a", "")),
        ConstantExpr(NoContext, FromInt(1)), Some(ConstantExpr(NoContext, FromInt(1))));
      Compile(NestedIf()) == Ok(CompiledExpression(IfElseExpr(NoContext,
        VariableRefExpr(NoContext, Symbol("true", "")), inner, Some(inner))))
  {
    var env := DefaultBindings();
    var form := NestedIf();
    var es := form.value.list.elems;
    var innerForm := es[2];
    var ies := innerForm.value.list.elems;
    DefaultResolution(Symbol("if", ""));
    var inner := IfElseExpr(NoContext, VariableRefExpr(NoContext, Symbol("a", "")),
      ConstantExpr(NoContext, FromInt(1)), Some(ConstantExpr(NoContext, FromInt(1))));
    assert IsIfShaped(innerForm);
    CompileDispatch(AsWritten, env, innerForm);
    CompileDispatch(AsWritten, env, ies[1]);
    assert CompileIn(AsWritten, env, ies[2]) == Ok(ConstantExpr(NoContext, FromInt(1)));
    IfElseAsWrittenRepeatsThen(env, innerForm, VariableRefExpr(NoContext, Symbol("a", "")), ConstantExpr(NoContext, FromInt(1)));
    assert CompileIn(AsWritten, env, innerForm) == Ok(inner);
    assert IsIfShaped(form);
    CompileDispatch(AsWritten, env, form);
    CompileDispatch(AsWritten, env, es[1]);
    IfElseAsWrittenRepeatsThen(env, form, VariableRefExpr(NoContext, Symbol("true", "")), inner);
  }

  /** `()`, `(1 2)` and `(foo 1)` are rejected: an empty form, a head that
      is not a symbol and an unbound operator. */
  lemma CompileListErrorExamples()
    ensures Compile(ListExpr([])) == Err(EmptyListForm)
    ensures Compile(ListExpr([FromInt(1), FromInt(2)])) == Err(NonSymbolOperator(FromInt(1)))
    ensures Compile(ListExpr([SymbolExpr("foo"), FromInt(1)])) == Err(UnsupportedOperator(Symbol("foo", ""), ListExpr([SymbolExpr("foo"), FromInt(1)])))
  {
    DefaultResolution(Symbol("foo", ""));
  }

  /** `(if)` does not fit the struct the form is bound into. */
  lemma CompileIfTooShortExample()
    ensures Compile(ListExpr([SymbolExpr("if")])) == Err(IfElseParseError(TooShort(1, 2)))
  {
    DefaultResolution(Symbol("if", ""));
    IfFormBinding(ListExpr([SymbolExpr("if")]));
  }

  /** `(if true)` lacks a then form. */
  lemma CompileIfMissingThenExample()
    ensures Compile(ListExpr([SymbolExpr("if"), SymbolExpr("true")])) == Err(IfElseMissingThen)
  {
    var form := ListExpr([SymbolExpr("if"), SymbolExpr("true")]);
    var env := DefaultBindings();
    DefaultResolution(Symbol("if", ""));
    assert form.value.list.elems[0] == SymbolExpr("if");
    CompileDispatch(AsWritten, env, form);
    assert CompileIn(AsWritten, env, form) == CompileIfElse(AsWritten, env, form);
    IfElseArity(AsWritten, env, form);
  }

  /** `(if true 1 2 3)` has one form too many. */
  lemma CompileIfTooManyFormsExample()
    ensures Compile(ListExpr([SymbolExpr("if"), SymbolExpr("true"), FromInt(1), FromInt(2), FromInt(3)])) == Err(IfElseTooManyForms)
  {
    var form := ListExpr([SymbolExpr("if"), SymbolExpr("true"), FromInt(1), FromInt(2), FromInt(3)]);
    var env := DefaultBindings();
    DefaultResolution(Symbol("if", ""));
    assert form.value.list.elems[0] == SymbolExpr("if");
    CompileDispatch(AsWritten, env, form);
    assert CompileIn(AsWritten, env, form) == CompileIfElse(AsWritten, env, form);
    IfElseArity(AsWritten, env, form);
  }
}
