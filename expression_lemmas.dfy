/** Properties of the expression value model: the symbol grammar and its
    printer, the agreement of wire form and value, and form conversion. */
module ExpressionLemmas {
  import opened Wrappers
  import opened Expression

  // ---------------------------------------------------------------------------
  // Symbol grammar
  // ---------------------------------------------------------------------------

  /** A colon-free prefix shifts the first colon by its length. */
  lemma {:induction false} FirstColonAfter(a: string, b: string)
    requires ':' !in a
    ensures FirstColon(a + b) == |a| + FirstColon(b)
  {
    if a == [] {
      assert a + b == b;
    } else {
      assert (a + b)[0] == a[0];
      assert (a + b)[1..] == a[1..] + b;
      FirstColonAfter(a[1..], b);
    }
  }

  /** A literal with no colon is a symbol with an empty namespace named by the
      whole literal; a literal with a colon never has an empty namespace. */
  lemma ParseSymbolUnqualified(literal: string)
    ensures ':' !in literal ==> ParseSymbol(literal) == Ok(Symbol(literal, ""))
    ensures ':' in literal && ParseSymbol(literal).Ok? ==> ParseSymbol(literal).value.namespace != ""
  {
    var k := FirstColon(literal);
    if ':' in literal {
      var j :| 0 <= j < |literal| && literal[j] == ':';
      assert k <= j;
    }
  }

  /** `:name` is a keyword; a literal that begins with two colons is an error. */
  lemma ParseSymbolKeyword(name: string)
    requires '\n' !in name
    ensures (|name| == 0 || name[0] != ':') ==> ParseSymbol(":" + name) == Ok(Symbol(name, KeywordNamespace))
    ensures ParseSymbol("::" + name).Err?
  {
    FirstColonAfter("", ":" + name);
    assert (":" + name)[1..] == name;
    FirstColonAfter("", "::" + name);
    assert ("::" + name)[1..] == ":" + name;
  }

  /** `ns:name` and `ns::name` both give `Symbol(name, ns)`: the split is at the
      first colon, so `a:b:c` has namespace `a` and name `b:c`. */
  lemma ParseSymbolQualified(ns: string, name: string)
    requires ns != "" && ':' !in ns && '\n' !in name
    ensures (|name| == 0 || name[0] != ':') ==> ParseSymbol(ns + ":" + name) == Ok(Symbol(name, ns))
    ensures ParseSymbol(ns + "::" + name) == Ok(Symbol(name, ns))
  {
    ParseSymbolSingleColon(ns, name);
    ParseSymbolDoubleColon(ns, name);
  }

  /** `ns:name` splits at its one separating colon. */
  lemma ParseSymbolSingleColon(ns: string, name: string)
    requires ns != "" && ':' !in ns && '\n' !in name
    ensures (|name| == 0 || name[0] != ':') ==> ParseSymbol(ns + ":" + name) == Ok(Symbol(name, ns))
  {
    var t1 := ns + ":" + name;
    assert t1 == ns + (":" + name);
    FirstColonAfter(ns, ":" + name);
    assert t1[..|ns|] == ns;
    assert t1[|ns| + 1..] == name;
  }

  /** `ns::name` drops both separating colons. */
  lemma ParseSymbolDoubleColon(ns: string, name: string)
    requires ns != "" && ':' !in ns && '\n' !in name
    ensures ParseSymbol(ns + "::" + name) == Ok(Symbol(name, ns))
  {
    var t2 := ns + "::" + name;
    assert t2 == ns + ("::" + name);
    FirstColonAfter(ns, "::" + name);
    assert t2[..|ns|] == ns;
    assert t2[|ns| + 1..] == ":" + name;
    assert t2[|ns| + 2..] == name;
  }

  /** Whatever `parseSymbol` returns: the namespace holds no colon; the name is
      a suffix of the literal and, in a namespace, holds no newline; the only
      errors are a newline after the first colon and a leading `::`. */
  lemma ParseSymbolResult(literal: string)
    ensures ParseSymbol(literal).Ok? ==> ':' !in ParseSymbol(literal).value.namespace
    ensures ParseSymbol(literal).Ok? ==>
      var name := ParseSymbol(literal).value.name;
      |name| <= |literal| && name == literal[|literal| - |name|..]
    ensures ParseSymbol(literal).Ok? && ParseSymbol(literal).value.namespace != "" ==> '\n' !in ParseSymbol(literal).value.name
    ensures ParseSymbol(literal).Err? ==> ParseSymbol(literal).error in {BadSymbol(literal), DoubleColonKeyword(literal)}
    ensures ParseSymbol(literal) == Err(DoubleColonKeyword(literal)) ==> |literal| >= 2 && literal[..2] == "::"
    ensures ParseSymbol(literal) == Err(BadSymbol(literal)) ==> '\n' in literal
  {
  }

  /** What `parseSymbol` gives for `abc`, `:hello`, `a:b`, `a::b`, `a:b:c` and `::x`. */
  lemma ParseSymbolExamples()
    ensures ParseSymbol("abc") == Ok(Symbol("abc", ""))
    ensures ParseSymbol(":hello") == Ok(Symbol("hello", KeywordNamespace))
    ensures ParseSymbol("a:b") == Ok(Symbol("b", "a")) == ParseSymbol("a::b")
    ensures ParseSymbol("a:b:c") == Ok(Symbol("b:c", "a"))
    ensures ParseSymbol("::x").Err? && ParseSymbol(":::x").Err?
  {
    ParseSymbolUnqualified("abc");
    ExampleKeyword();
    ExampleQualified();
    ExampleDoubleColon();
  }

  lemma ExampleKeyword()
    ensures ParseSymbol(":hello") == Ok(Symbol("hello", KeywordNamespace))
  {
    ParseSymbolKeyword("hello");
  }

  lemma ExampleQualified()
    ensures ParseSymbol("a:b") == Ok(Symbol("b", "a")) == ParseSymbol("a::b")
    ensures ParseSymbol("a:b:c") == Ok(Symbol("b:c", "a"))
  {
    ParseSymbolQualified("a", "b");
    assert "a:b" == "a" + ":" + "b";
    assert "a::b" == "a" + "::" + "b";
    ParseSymbolQualified("a", "b:c");
    assert "a:b:c" == "a" + ":" + "b:c";
  }

  lemma ExampleDoubleColon()
    ensures ParseSymbol("::x").Err? && ParseSymbol(":::x").Err?
  {
    ParseSymbolKeyword("x");
    assert "::x" == "::" + "x";
    ParseSymbolKeyword(":x");
    assert ":::x" == "::" + ":x";
  }

  /** The symbols whose canonical text the symbol grammar reads back. */
  predicate Printable(s: Symbol) {
    && ':' !in s.namespace
    && (s.namespace == "" ==> ':' !in s.name)
    && (s.namespace != "" ==> (|s.name| == 0 || s.name[0] != ':') && '\n' !in s.name)
  }

  /** The printed text of a symbol parses back to that same symbol exactly when
      the symbol is printable. */
  lemma SymbolRoundTrip(s: Symbol)
    ensures ParseSymbol(s.ExpressionString()) == Ok(s) <==> Printable(s)
  {
    if s.namespace == "" {
      ParseSymbolUnqualified(s.name);
    } else if ':' in s.namespace {
      ColonNamespaceNotRead(s);
    } else {
      QualifiedSymbolRoundTrip(s);
    }
  }

  /** A namespace holding a colon is never read back: the first colon of the
      printed text falls inside it. */
  lemma ColonNamespaceNotRead(s: Symbol)
    requires ':' in s.namespace
    ensures ParseSymbol(s.ExpressionString()) != Ok(s)
  {
    var text := s.ExpressionString();
    var p := if s.namespace == KeywordNamespace then "" else s.namespace;
    assert text == p + (":" + s.name);
    var k := FirstColon(text);
    var j :| 0 <= j < |s.namespace| && s.namespace[j] == ':';
    assert text[j] == ':';
    assert k < |p|;
    assert text[..k] == p[..k];
    if ParseSymbol(text).Ok? {
      assert ParseSymbol(text).value.namespace != s.namespace;
    }
  }

  /** A namespace without a colon reads back exactly when the name neither
      starts with a colon nor holds a newline. */
  lemma QualifiedSymbolRoundTrip(s: Symbol)
    requires s.namespace != "" && ':' !in s.namespace
    ensures ParseSymbol(s.ExpressionString()) == Ok(s) <==> (|s.name| == 0 || s.name[0] != ':') && '\n' !in s.name
  {
    var text := s.ExpressionString();
    var p := if s.namespace == KeywordNamespace then "" else s.namespace;
    assert text == p + (":" + s.name);
    var k := FirstColon(text);
    FirstColonAfter(p, ":" + s.name);
    assert k == |p|;
    assert text[k + 1..] == s.name;
    assert text[..k] == p;
    if '\n' !in s.name && |s.name| > 0 && s.name[0] == ':' {
      assert text[k + 2..] == s.name[1..];
      if ParseSymbol(text).Ok? {
        assert |ParseSymbol(text).value.name| < |s.name|;
      }
    }
  }

  // ---------------------------------------------------------------------------
  // Wire form and value
  // ---------------------------------------------------------------------------

  /** `parseValue` by variant: only an unset value is unsupported, every other
      scalar variant converts, `int64` and `sint64` are exactly the variants
      read as Go `int`, and a list message converts to a list value of the
      elements' expressions, each keeping its message. */
  lemma ParseValueCases(p: ExpressionProto)
    ensures ParseValue(p) == Err(UnsupportedProto(p)) <==> p.value.Unset?
    ensures !p.value.PList? && !p.value.Unset? ==> ParseValue(p).Ok?
    ensures ParseValue(p).Ok? && ParseValue(p).value.IntValue? <==> p.value.PInt64? || p.value.PSint64?
    ensures p.value.PList? && ParseValue(p).Ok? ==>
      var v := ParseValue(p).value;
      && v.ListValue?
      && |v.list.elems| == |p.value.elements|
      && forall i :: 0 <= i < |p.value.elements| ==> FromProto(p.value.elements[i]) == Ok(v.list.elems[i])
  {
    if p.value.PList? && ParseValue(p).Ok? {
      var ps := p.value.elements;
      assert ParseElements(ps).Ok?;
      var es := Sequence(ElementResults(ps)).value;
      assert ParseValue(p).value == ListValue(List(es));
    }
  }

  /** Whatever `FromProto` accepts agrees with the message it came from. */
  lemma FromProtoAgrees(p: ExpressionProto)
    ensures FromProto(p).Ok? ==> Agrees(FromProto(p).value) && FromProto(p).value.proto == p
  {
  }

  /** Integer round trip: `FromProto(FromInt(v).Proto()).Value() == v`; Int64
      and Sint64 both read back as Go `int`. */
  lemma IntRoundTrip(v: int, ctx: Option<SourceRef>)
    ensures FromProto(FromInt(v).proto) == Ok(FromInt(v))
    ensures FromProto(ExpressionProto(PInt64(v), ctx)) == Ok(Expression(ExpressionProto(PInt64(v), ctx), IntValue(v)))
    ensures FromProto(ExpressionProto(PSint64(v), ctx)) == Ok(Expression(ExpressionProto(PSint64(v), ctx), IntValue(v)))
  {
  }

  /** A list message fails at its first failing element, with that index. */
  lemma ParseElementsFirstFailure(ps: seq<ExpressionProto>, i: nat)
    requires i < |ps| && FromProto(ps[i]).Err?
    requires forall j :: 0 <= j < i ==> FromProto(ps[j]).Ok?
    ensures ParseElements(ps) == Err(ListElementError(i, FromProto(ps[i]).error))
    ensures FromProto(Wire(PList(ps))) == Err(ListElementError(i, FromProto(ps[i]).error))
  {
    SequenceFirstError(ElementResults(ps), i);
  }

  /** The list accessors agree: `Slice` has `Len` elements and its `i`th is
      `Nth(i)`; the wire list has one message per element. */
  lemma ListAccessors(l: List)
    ensures |l.Slice()| == l.Len() == |l.Proto()|
    ensures forall i :: 0 <= i < l.Len() ==> l.Slice()[i] == l.Nth(i) && l.Proto()[i] == l.Nth(i).proto
  {
  }

  /** A symbol's wire form reads back as that symbol. */
  lemma SymbolProtoRoundTrip(s: Symbol)
    ensures FromProto(Wire(PSymbol(s.Proto()))) == Ok(Expression(Wire(PSymbol(s.Proto())), SymbolValue(s)))
  {
  }

  /** A list expression agrees with its wire form exactly when each of its
      elements does. */
  lemma FromListAgrees(l: List)
    ensures Agrees(FromList(l)) <==> forall i :: 0 <= i < |l.elems| ==> Agrees(l.elems[i])
  {
    var ps := l.Proto();
    var rs := ElementResults(ps);
    var wire := FromList(l).proto;
    assert wire.value == PList(ps);
    if forall i :: 0 <= i < |l.elems| ==> Agrees(l.elems[i]) {
      forall j | 0 <= j < |rs|
        ensures rs[j] == Ok(l.elems[j])
      {
        assert ps[j] == l.elems[j].proto;
      }
      SequenceAllOk(rs, l.elems);
      assert ParseElements(ps) == Ok(l);
      assert ParseValue(wire) == Ok(ListValue(l));
    }
    if Agrees(FromList(l)) {
      assert ParseValue(wire) == Ok(ListValue(l));
      assert ParseElements(ps) == Ok(l);
      assert Sequence(rs) == Ok(l.elems);
      forall j | 0 <= j < |l.elems|
        ensures Agrees(l.elems[j])
      {
        assert ps[j] == l.elems[j].proto;
        assert rs[j] == Ok(l.elems[j]);
      }
    }
  }

  // ---------------------------------------------------------------------------
  // Forms
  // ---------------------------------------------------------------------------

  /** Every expression `parseForm` builds agrees with its wire form. */
  lemma ParseFormAgrees(f: Form)
    ensures ParseForm(f).Ok? ==> Agrees(ParseForm(f).value)
    ensures ParseForm(f).Ok? ==> ParseForm(f).value.proto.sourceContext.None?
    ensures f.OtherForm? || f == NumberForm(OtherNumber) ==> ParseForm(f).Err?
  {
  }

  /** Numbers: an Int constant becomes Int64 (read back as Go `int`), a Float
      constant becomes Double, any other kind is an error. */
  lemma ParseNumber(n: Number)
    ensures n.IntNumber? ==> ParseForm(NumberForm(n)) == Ok(FromInt(n.i))
    ensures n.FloatNumber? ==> ParseForm(NumberForm(n)) == Ok(FromFloat64(n.f))
    ensures n.OtherNumber? ==> ParseForm(NumberForm(n)) == Err(UnsupportedNumber)
  {
  }

  /** A list form converts its children in order, and the resulting list holds
      exactly the children's expressions; the first failing child is reported
      with its index. */
  lemma {:induction false} ParseListFormChildren(subforms: seq<Form>)
    ensures ParseForm(ListForm(subforms)).Ok? <==> forall i :: 0 <= i < |subforms| ==> ParseForm(subforms[i]).Ok?
    ensures ParseForm(ListForm(subforms)).Ok? ==>
      var e := ParseForm(ListForm(subforms)).value;
      e.value.ListValue? && |e.value.list.elems| == |subforms| &&
      forall i :: 0 <= i < |subforms| ==> ParseForm(subforms[i]) == Ok(e.value.list.elems[i])
    ensures ParseForm(ListForm(subforms)).Err? ==>
      exists i :: 0 <= i < |subforms| && ParseForm(subforms[i]).Err? &&
        (forall j :: 0 <= j < i ==> ParseForm(subforms[j]).Ok?) &&
        ParseForm(ListForm(subforms)) == Err(FormElementError(i, ParseForm(subforms[i]).error))
  {
    var rs := SubformResults(subforms);
    var sr := Sequence(rs);
    if sr.Ok? {
      var es := sr.value;
      var protos := List(es).Proto();
      var prs := ElementResults(protos);
      forall k | 0 <= k < |es|
        ensures prs[k] == Ok(es[k])
      {
        assert rs[k] == ParseForm(subforms[k]) == Ok(es[k]);
        ParseFormAgrees(subforms[k]);
        assert protos[k] == es[k].proto;
      }
      SequenceAllOk(prs, es);
      var wire := Wire(PList(protos));
      assert ParseElements(protos) == Ok(List(es));
      assert ParseValue(wire) == Ok(ListValue(List(es)));
      assert ParseForm(ListForm(subforms)) == Ok(Expression(wire, ListValue(List(es))));
    } else {
      var i := sr.error.0;
      assert ParseForm(subforms[i]).Err?;
    }
  }

  /** A list form whose children all convert becomes the list expression of
      their expressions. */
  lemma ParseListFormOk(subforms: seq<Form>, es: seq<Expression>)
    requires |es| == |subforms|
    requires forall i :: 0 <= i < |subforms| ==> ParseForm(subforms[i]) == Ok(es[i])
    ensures ParseForm(ListForm(subforms)) == Ok(FromList(List(es)))
  {
    var rs := SubformResults(subforms);
    SequenceAllOk(rs, es);
    assert Sequence(SubformResults(subforms)) == Ok(es);
    var protos := List(es).Proto();
    var prs := ElementResults(protos);
    forall k | 0 <= k < |es|
      ensures prs[k] == Ok(es[k])
    {
      ParseFormAgrees(subforms[k]);
      assert protos[k] == es[k].proto;
    }
    SequenceAllOk(prs, es);
    assert ParseElements(protos) == Ok(List(es));
    var wire := Wire(PList(protos));
    assert ParseValue(wire) == Ok(ListValue(List(es)));
    assert FromProto(wire) == Ok(FromList(List(es)));
  }

  // ---------------------------------------------------------------------------
  // Printing
  // ---------------------------------------------------------------------------

  lemma EmptyListPrints(fmt: Format)
    ensures ListString(List([]), fmt) == "()"
  {
  }

  /** `(1 2 a::b)` prints as `(1 2 a:b)`. */
  lemma ListPrintExample(fmt: Format)
    ensures
      var f := ListForm([NumberForm(IntNumber(1)), NumberForm(IntNumber(2)), SymbolForm("a::b")]);
      ParseForm(f).Ok? && ExpressionString(ParseForm(f).value, fmt) == "(1 2 a:b)"
  {
    ExampleListParses();
    ExampleListPrints(fmt);
  }

  function ExampleSymbol(): Expression {
    Expression(Wire(PSymbol(SymbolProto("b", "a"))), SymbolValue(Symbol("b", "a")))
  }

  lemma ExampleSymbolParses()
    ensures ParseForm(SymbolForm("a::b")) == Ok(ExampleSymbol())
  {
    ExampleQualified();
  }

  lemma ExampleListParses()
    ensures
      var f := ListForm([NumberForm(IntNumber(1)), NumberForm(IntNumber(2)), SymbolForm("a::b")]);
      ParseForm(f) == Ok(FromList(List([FromInt(1), FromInt(2), ExampleSymbol()])))
  {
    var subforms := [NumberForm(IntNumber(1)), NumberForm(IntNumber(2)), SymbolForm("a::b")];
    var es := [FromInt(1), FromInt(2), ExampleSymbol()];
    ParseNumber(IntNumber(1));
    ParseNumber(IntNumber(2));
    ExampleSymbolParses();
    ParseListFormOk(subforms, es);
  }

  lemma ExampleListPrints(fmt: Format)
    ensures ExpressionString(FromList(List([FromInt(1), FromInt(2), ExampleSymbol()])), fmt) == "(1 2 a:b)"
  {
    var l := List([FromInt(1), FromInt(2), ExampleSymbol()]);
    var items := ChildStrings(l, fmt);
    assert items[0] == "1" && items[1] == "2";
    assert items[2] == "a:b";
    assert items == ["1", "2", "a:b"];
    assert items[1..] == ["2", "a:b"] && items[2..] == ["a:b"];
    assert Join(items[2..], " ") == "a:b";
    assert Join(items[1..], " ") == "2 a:b";
  }
}
