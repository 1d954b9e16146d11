/** What `+` computes, stated against independent sums, and the evaluator's
    behaviour on the forms its tests use. */
module FormulaLemmas {
  import opened Wrappers
  import opened Expression
  import opened Formula

  /** The integer arguments' sum, first to last. */
  function IntSum(args: seq<Value>): int {
    if |args| == 0 then 0
    else (if IsPlusInteger(args[0]) then args[0].i else 0) + IntSum(args[1..])
  }

  /** The float arguments' sum, first to last. */
  function FloatSum(args: seq<Value>): real {
    if |args| == 0 then 0.0
    else (if IsPlusFloat(args[0]) then args[0].f else 0.0) + FloatSum(args[1..])
  }

  predicate AllOperands(args: seq<Value>) {
    forall i :: 0 <= i < |args| ==> IsPlusOperand(args[i])
  }

  predicate AnyFloat(args: seq<Value>) {
    exists i :: 0 <= i < |args| && IsPlusFloat(args[i])
  }

  /** `args[i]` is the first argument `+` does not accept. */
  predicate IsFirstNonOperand(args: seq<Value>, i: int) {
    0 <= i < |args| && !IsPlusOperand(args[i]) &&
    forall j :: 0 <= j < i ==> IsPlusOperand(args[j])
  }

  lemma {:induction false} SumsAppend(args: seq<Value>, a: Value)
    ensures IntSum(args + [a]) == IntSum(args) + (if IsPlusInteger(a) then a.i else 0)
    ensures FloatSum(args + [a]) == FloatSum(args) + (if IsPlusFloat(a) then a.f else 0.0)
  {
    if |args| == 0 {
      assert [] + [a] == [a];
      assert [a][1..] == [];
    } else {
      assert (args + [a])[1..] == args[1..] + [a];
      SumsAppend(args[1..], a);
    }
  }

  /** On arguments `+` accepts, its loop ends holding the integer sum, the
      float sum and whether any argument was a float. */
  lemma {:induction false} PlusFoldSums(args: seq<Value>)
    requires AllOperands(args)
    ensures PlusFold(args) == Ok(PlusAcc(IntSum(args), FloatSum(args), AnyFloat(args)))
  {
    if |args| > 0 {
      var init := args[..|args| - 1];
      var a := args[|args| - 1];
      assert args == init + [a];
      assert AllOperands(init) by {
        forall i | 0 <= i < |init| ensures IsPlusOperand(init[i]) {
          assert init[i] == args[i];
        }
      }
      PlusFoldSums(init);
      SumsAppend(init, a);
      assert AnyFloat(args) <==> AnyFloat(init) || IsPlusFloat(a) by {
        if AnyFloat(init) {
          var i :| 0 <= i < |init| && IsPlusFloat(init[i]);
          assert args[i] == init[i];
        }
        if AnyFloat(args) {
          var i :| 0 <= i < |args| && IsPlusFloat(args[i]);
          if i < |init| {
            assert init[i] == args[i];
          }
        }
      }
    }
  }

  /** `+` returns the integer sum as an `int` when every argument is an
      integer, and `float64(integer sum) + float sum` once one is a float. */
  lemma PlusSums(args: seq<Value>)
    requires AllOperands(args)
    ensures !AnyFloat(args) ==> Plus(args) == Ok(IntValue(IntSum(args)))
    ensures AnyFloat(args) ==> Plus(args) == Ok(Float64Value(IntSum(args) as real + FloatSum(args)))
  {
    PlusFoldSums(args);
  }

  /** `+` fails exactly when an argument is of a type it does not accept, and
      then it names the first such argument. */
  lemma {:induction false} PlusRejects(args: seq<Value>)
    ensures Plus(args).Err? <==> !AllOperands(args)
    ensures forall i :: IsFirstNonOperand(args, i) ==> Plus(args) == Err(InvalidPlusArgument(args[i]))
  {
    if AllOperands(args) {
      PlusFoldSums(args);
    } else {
      var i :| 0 <= i < |args| && !IsPlusOperand(args[i]);
      var k := FirstNonOperand(args, i);
      assert PlusFold(args[..k + 1]) == Err(InvalidPlusArgument(args[k])) by {
        assert args[..k + 1][..k] == args[..k];
        assert AllOperands(args[..k]) by {
          forall j | 0 <= j < k ensures IsPlusOperand(args[..k][j]) {
            assert args[..k][j] == args[j];
          }
        }
        PlusFoldSums(args[..k]);
      }
      FoldErrorPersists(args, k + 1);
      assert forall i' :: IsFirstNonOperand(args, i') ==> i' == k;
    }
  }

  /** Some argument `+` does not accept comes first among them. */
  lemma {:induction false} FirstNonOperand(args: seq<Value>, i: int) returns (k: int)
    requires 0 <= i < |args| && !IsPlusOperand(args[i])
    decreases i
    ensures k <= i && IsFirstNonOperand(args, k)
  {
    if forall j :: 0 <= j < i ==> IsPlusOperand(args[j]) {
      k := i;
    } else {
      var j :| 0 <= j < i && !IsPlusOperand(args[j]);
      k := FirstNonOperand(args, j);
    }
  }

  // ---------------------------------------------------------------------------
  // Resolution of `+`
  // ---------------------------------------------------------------------------

  /** The builtin `+` is found under `+` and `formula:+` and under no other
      namespace. */
  lemma PlusResolution(ns: Namespace)
    ensures FindFnDef(BuiltinFunctions, Symbol("+", ns)).Some? <==> ns == "" || ns == FormulaNamespace
  {
    if FindFnDef(BuiltinFunctions, Symbol("+", ns)).None? {
      assert BuiltinFunctions[0].name != NormalizeSym(Symbol("+", ns));
    }
  }

  // ---------------------------------------------------------------------------
  // The evaluator on the forms of its tests
  // ---------------------------------------------------------------------------

  /** The expression `+`, as read from the text `+`. */
  function PlusSymbol(): Expression {
    Expression(Wire(PSymbol(SymbolProto("+", ""))), SymbolValue(Symbol("+", "")))
  }

  /** `(+ 1 1)` evaluates to the Go int 2; `1` and `"the string"` evaluate to
      themselves. */
  lemma EvalExamples()
    ensures Eval(FromInt(1)) == Ok(IntValue(1))
    ensures Eval(FromString("the string")) == Ok(StringValue("the string"))
    ensures Eval(FromList(List([PlusSymbol(), FromInt(1), FromInt(1)]))) == Ok(IntValue(2))
  {
    var l := List([PlusSymbol(), FromInt(1), FromInt(1)]);
    var args := ValuesOf(l)[1..];
    assert args == [IntValue(1), IntValue(1)];
    assert args[..1] == [IntValue(1)];
    assert [IntValue(1)][..0] == [];
  }

  /** A call of `+` on numbers evaluates to their sum. */
  lemma EvalPlusCall(l: List)
    requires |l.elems| > 0 && l.elems[0] == PlusSymbol()
    requires AllOperands(ValuesOf(l)[1..])
    ensures var args := ValuesOf(l)[1..];
      Eval(FromList(l)) == if AnyFloat(args) then Ok(Float64Value(IntSum(args) as real + FloatSum(args))) else Ok(IntValue(IntSum(args)))
  {
    PlusSums(ValuesOf(l)[1..]);
  }
}
