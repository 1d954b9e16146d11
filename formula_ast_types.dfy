/** The formula syntax tree of `formula_ast_types.go` and its projection onto
    the `AST.Expression` protocol message of the formula IR. */
module FormulaAst {
  import opened Wrappers
  import opened Expression

  // ---------------------------------------------------------------------------
  // The IR message
  // ---------------------------------------------------------------------------

  /** `AST.SourceContext`: where the compiled form came from. */
  datatype AstSourceContext = AstSourceContext(context: Option<SourceRef>)

  /** `AST.Expression`: a source context and the `value` oneof, which `NoValue`
      leaves unset. */
  datatype AstExpression = AstExpression(sourceContext: AstSourceContext, value: AstValue)

  datatype AstValue =
    | NoValue
    | ConstantValue(constant: ExpressionProto)
    | FuncallValue(callee: AstExpression, positionalArgs: seq<AstExpression>)
    | VariableValue(symbol: SymbolProto)
    | IfElseValue(test: AstExpression, thenExpression: AstExpression, elseExpression: Option<AstExpression>)

  // ---------------------------------------------------------------------------
  // The syntax tree
  // ---------------------------------------------------------------------------

  /** `expr`: one constructor per node type, each with the source context
      `commonExpr` holds. Function, while-loop and let nodes have no further
      content in this version; a missing else branch is `None`. */
  datatype Expr =
    | VoidExpr(ctx: AstSourceContext)
    | ConstantExpr(ctx: AstSourceContext, value: Expression)
    | FuncallExpr(ctx: AstSourceContext, fn: Expr, args: seq<Expr>)
    | FunctionExpr(ctx: AstSourceContext)
    | VariableRefExpr(ctx: AstSourceContext, sym: Symbol)
    | IfElseExpr(ctx: AstSourceContext, test: Expr, thenExpr: Expr, elseExpr: Option<Expr>)
    | WhileLoopExpr(ctx: AstSourceContext)
    | LetExpr(ctx: AstSourceContext)

  /** `astProto`: every node starts from `baseProto`, its source context; the
      constant, call, variable and if/else nodes fill in the value. */
  function AstProjection(e: Expr): (p: AstExpression)
    decreases e
    ensures p.sourceContext == e.ctx
  {
    match e
    case ConstantExpr(ctx, v) => AstExpression(ctx, ConstantValue(v.proto))
    case FuncallExpr(ctx, fn, args) =>
      AstExpression(ctx, FuncallValue(AstProjection(fn), seq(|args|, i requires 0 <= i < |args| => AstProjection(args[i]))))
    case VariableRefExpr(ctx, sym) => AstExpression(ctx, VariableValue(sym.Proto()))
    case IfElseExpr(ctx, test, thenExpr, elseExpr) =>
      AstExpression(ctx, IfElseValue(AstProjection(test), AstProjection(thenExpr),
        if elseExpr.Some? then Some(AstProjection(elseExpr.value)) else None))
    case _ => AstExpression(e.ctx, NoValue)
  }

  /** `funcallExpr.astProto`, with the loop that collects the argument protos. */
  method FuncallProto(e: Expr) returns (out: AstExpression)
    requires e.FuncallExpr?
    ensures out == AstProjection(e)
  {
    var argProtos: seq<AstExpression> := [];
    for i := 0 to |e.args|
      invariant |argProtos| == i
      invariant forall j :: 0 <= j < i ==> argProtos[j] == AstProjection(e.args[j])
    {
      argProtos := argProtos + [AstProjection(e.args[i])];
    }
    assert argProtos == seq(|e.args|, i requires 0 <= i < |e.args| => AstProjection(e.args[i]));
    out := AstExpression(e.ctx, FuncallValue(AstProjection(e.fn), argProtos));
  }

  // ---------------------------------------------------------------------------
  // Reading the projection back
  // ---------------------------------------------------------------------------

  /** The tree a message describes: an unset value reads as a void node and a
      constant is parsed with `FromProto`. */
  function ExprFromAst(p: AstExpression): (r: Result<Expr, Error>)
    decreases p
    ensures r.Ok? ==> r.value.ctx == p.sourceContext
    ensures r.Ok? && p.value.ConstantValue? ==> r.value.ConstantExpr? && r.value.value.proto == p.value.constant
  {
    match p.value
    case NoValue => Ok(VoidExpr(p.sourceContext))
    case ConstantValue(c) =>
      (match FromProto(c)
       case Err(e) => Err(e)
       case Ok(v) => Ok(ConstantExpr(p.sourceContext, v)))
    case FuncallValue(fn, args) =>
      (match ExprFromAst(fn)
       case Err(e) => Err(e)
       case Ok(f) =>
         match Sequence(seq(|args|, i requires 0 <= i < |args| => ExprFromAst(args[i])))
         case Err(e) => Err(e.1)
         case Ok(argExprs) => Ok(FuncallExpr(p.sourceContext, f, argExprs)))
    case VariableValue(sp) => Ok(VariableRefExpr(p.sourceContext, Symbol(sp.name, sp.namespace)))
    case IfElseValue(test, thenExpression, elseExpression) =>
      (match ExprFromAst(test)
       case Err(e) => Err(e)
       case Ok(t) =>
         match ExprFromAst(thenExpression)
         case Err(e) => Err(e)
         case Ok(th) =>
           if elseExpression.None? then Ok(IfElseExpr(p.sourceContext, t, th, None))
           else
             match ExprFromAst(elseExpression.value)
             case Err(e) => Err(e)
             case Ok(el) => Ok(IfElseExpr(p.sourceContext, t, th, Some(el))))
  }

  /** The trees the message describes exactly: every constant's wire form
      parses back to it, and no node is one of the kinds the message cannot
      tell from a void node. */
  predicate Describable(e: Expr)
    decreases e
  {
    match e
    case VoidExpr(_) => true
    case ConstantExpr(_, v) => Agrees(v)
    case FuncallExpr(_, fn, args) => Describable(fn) && forall i :: 0 <= i < |args| ==> Describable(args[i])
    case VariableRefExpr(_, _) => true
    case IfElseExpr(_, test, thenExpr, elseExpr) =>
      Describable(test) && Describable(thenExpr) && (elseExpr.Some? ==> Describable(elseExpr.value))
    case _ => false
  }
}
