/** Properties of the binder: the order of its rules, the length bounds of a
    struct binder, the field annotations, and the cases of its tests. */
module ExpressionsLemmas {
  import opened Wrappers
  import opened Expression
  import opened Expressions

  // ---------------------------------------------------------------------------
  // The order of the rules
  // ---------------------------------------------------------------------------

  /** The `**Expression` binder wins over every other rule and stores the
      expression itself, whatever its value. */
  lemma CustomBinderFirst(exp: Expression, d: Datum)
    requires Conforms(d, ExpressionRef)
    ensures Binding(exp, ExpressionRef, d) == Bound(Handle(exp), None)
    ensures Binding(exp, Any, Nil) == Bound(Native(exp.value), None)
  {
  }

  /** A value whose type is assignable to the destination is stored as it is;
      one assignable to the target of a pointer destination is stored behind a
      fresh pointer, whatever the pointer held before. */
  lemma AssignableValueStored(exp: Expression, s: Shape, d: Datum)
    requires Conforms(d, s) && s != ExpressionRef
    ensures Assignable(ValueType(exp.value), s) ==> Binding(exp, s, d) == Bound(Native(exp.value), None)
    ensures s.Ptr? && Assignable(ValueType(exp.value), s.to) ==> Binding(exp, s, d) == Bound(Ref(Native(exp.value)), None)
  {
  }

  /** A type no rule covers is an error that leaves the destination alone. */
  lemma UnboundShape(exp: Expression, t: Shape, d: Datum)
    requires Conforms(d, Ptr(Slice(t)))
    requires ValueType(exp.value) != Slice(t)
    ensures Binding(exp, Ptr(Slice(t)), d) == Bound(d, Some(CannotBind(Ptr(Slice(t)), exp)))
  {
  }

  /** A `*Symbol` or `*List` destination given a value of another type is
      treated as a pointer to a struct: it is set to a fresh empty symbol or
      list, which stays there, and the struct binder of `Symbol` or `List`
      then fails. Lists are assignable to `*List`, so a `*List` destination
      only gets here with a value that is not a list. */
  lemma PackagePointerBinding(exp: Expression, s: Shape, d: Datum)
    requires s == SymbolRef || s == ListRef
    requires Conforms(d, s) && ValueType(exp.value) != s
    ensures Binding(exp, s, d) == Bound(FreshPackageStruct(s), Some(PackageStructError(exp, PackageStructFields(s))))
    ensures s == ListRef ==> Binding(exp, s, d).err == Some(StructFromNonList(exp))
    ensures s == SymbolRef && !exp.value.ListValue? ==> Binding(exp, s, d).err == Some(StructFromNonList(exp))
    ensures s == SymbolRef && exp.value.ListValue? && |exp.value.list.elems| < 2 ==>
      Binding(exp, s, d).err == Some(TooShort(|exp.value.list.elems|, 2))
    ensures s == SymbolRef && exp.value.ListValue? && |exp.value.list.elems| > 2 ==>
      Binding(exp, s, d).err == Some(TooLong(|exp.value.list.elems|, 2))
    ensures s == SymbolRef && exp.value.ListValue? && |exp.value.list.elems| == 2 ==>
      Binding(exp, s, d).err == Some(UnexportedFieldPanic("name"))
  {
  }

  /** The error of that fallback is the one `compileBinderForStruct` builds for
      the package's struct: both of its length bounds are the field count, and
      a value that is not a list, or a list of another length, fails its length
      checks just as `PackageStructError` says. */
  lemma PackageStructBinder(exp: Expression, s: Shape)
    requires s == SymbolRef || s == ListRef
    ensures var fs := PackageStructFields(s);
      && CompileStruct(fs).Ok?
      && CompileStruct(fs).value.minLength == CompileStruct(fs).value.maxLength == |fs|
      && (!exp.value.ListValue? || |exp.value.list.elems| != |fs| ==>
            StructParse(exp, fs, CompileStruct(fs).value, Zero(Struct(fs))).err == Some(PackageStructError(exp, fs)))
  {
    var fs := PackageStructFields(s);
    assert Annotations(fs, |fs|, false) == Ok([]);
    if s == SymbolRef {
      var anns := [FieldAnnotation(0, false), FieldAnnotation(1, false)];
      assert ParseFieldAnnotation(fs[1], 1, false) == Ok(FieldAnnotation(1, false));
      assert [FieldAnnotation(1, false)] + [] == [FieldAnnotation(1, false)];
      assert Annotations(fs, 1, false) == Ok([FieldAnnotation(1, false)]);
      assert ParseFieldAnnotation(fs[0], 0, false) == Ok(FieldAnnotation(0, false));
      assert [FieldAnnotation(0, false)] + [FieldAnnotation(1, false)] == anns;
      assert Annotations(fs, 0, false) == Ok(anns);
      assert anns[..1] == [FieldAnnotation(0, false)];
      assert anns[..1][..0] == [];
      assert MinLengthOf(anns) == 2;
      assert !HasRest(anns);
    } else {
      var anns := [FieldAnnotation(0, false)];
      assert ParseFieldAnnotation(fs[0], 0, false) == Ok(FieldAnnotation(0, false));
      assert [FieldAnnotation(0, false)] + [] == anns;
      assert Annotations(fs, 0, false) == Ok(anns);
      assert anns[..0] == [];
      assert MinLengthOf(anns) == 1;
      assert !HasRest(anns);
    }
  }

  // ---------------------------------------------------------------------------
  // Struct binders
  // ---------------------------------------------------------------------------

  /** The bounds of a compiled struct binder: the least length is the largest
      need of any field (0 for no fields) and the greatest is the same unless a
      rest field lifts it to `math.MaxInt64`. */
  lemma StructBinderBounds(fs: seq<Field>)
    requires CompileStruct(fs).Ok?
    ensures var sb := CompileStruct(fs).value;
      && (forall i :: 0 <= i < |fs| ==> MinLengthForField(sb.annotations[i]) <= sb.minLength)
      && (sb.minLength == 0 || exists i :: 0 <= i < |fs| && MinLengthForField(sb.annotations[i]) == sb.minLength)
      && (sb.maxLength == if HasRest(sb.annotations) then MaxInt64 else sb.minLength)
  {
  }

  /** A list that passes the length check covers every field: a plain field's
      index is below the length and a rest field starts at or before its end. */
  lemma LengthCheckCoversFields(fs: seq<Field>, n: nat)
    requires CompileStruct(fs).Ok? && CompileStruct(fs).value.minLength <= n
    ensures var anns := CompileStruct(fs).value.annotations;
      forall i :: 0 <= i < |fs| ==>
        (!anns[i].rest ==> anns[i].listIndex < n) && (anns[i].rest ==> anns[i].listIndex <= n)
  {
    var sb := CompileStruct(fs).value;
    forall i | 0 <= i < |fs|
      ensures MinLengthForField(sb.annotations[i]) <= n
    {
    }
  }

  predicate OutOfBounds(err: Option<BindError>) {
    err.Some? && err.value.FieldIndexOutOfBounds?
  }

  /** No bind ever fails with the sub-binder's out-of-bounds error: every
      struct binder checks the length first, and that check covers the fields. */
  lemma BindingNeverOutOfBounds(exp: Expression, s: Shape, d: Datum)
    requires Conforms(d, s)
    decreases s, 3
    ensures !OutOfBounds(Binding(exp, s, d).err)
  {
    if s.Struct? && CompileStruct(s.fields).Ok? {
      StructParseNeverOutOfBounds(exp, s.fields, d);
    }
    if s.Ptr? && s.to.Struct? && CompileStruct(s.to.fields).Ok? {
      StructParseNeverOutOfBounds(exp, s.to.fields, Zero(s.to));
    }
  }

  /** Once the length check passes, the sub-binder's own bounds check never
      fires. */
  lemma StructParseNeverOutOfBounds(exp: Expression, fs: seq<Field>, d: Datum)
    requires CompileStruct(fs).Ok? && Conforms(d, Struct(fs))
    decreases Struct(fs), 2
    ensures !OutOfBounds(StructParse(exp, fs, CompileStruct(fs).value, d).err)
  {
    var sb := CompileStruct(fs).value;
    if exp.value.ListValue? && sb.minLength <= |exp.value.list.elems| <= sb.maxLength {
      LengthCheckCoversFields(fs, |exp.value.list.elems|);
      FieldsNeverOutOfBounds(exp.value.list, fs, sb.annotations, 0, d.fields);
    }
  }

  /** Fields whose indices the list covers never reach the out-of-bounds error. */
  lemma {:induction false} FieldsNeverOutOfBounds(list: List, fs: seq<Field>, anns: seq<FieldAnnotation>, k: nat, ds: seq<Datum>)
    requires |anns| == |fs| == |ds| && k <= |fs|
    requires forall i :: 0 <= i < |fs| ==> Conforms(ds[i], fs[i].shape)
    requires forall i :: 0 <= i < |fs| && !anns[i].rest ==> anns[i].listIndex < |list.elems|
    decreases Struct(fs), 1, |fs| - k
    ensures !OutOfBounds(FieldsBinding(list, fs, anns, k, ds).err)
  {
    if k < |fs| {
      assert fs[k] in fs;
      var a := anns[k];
      if a.rest && 0 <= a.listIndex <= |list.elems| {
        BindingNeverOutOfBounds(FromList(List(list.elems[a.listIndex..])), fs[k].shape, ds[k]);
      }
      var b := FieldBinding(list, fs[k], anns[k], ds[k]);
      if b.err.None? {
        FieldsNeverOutOfBounds(list, fs, anns, k + 1, ds[k := b.datum]);
      }
    }
  }

  /** A plain field the list covers is bound from the element at its index;
      its error, if any, is wrapped with the field's name and index. */
  lemma PlainFieldBinding(list: List, f: Field, a: FieldAnnotation, d: Datum)
    requires Conforms(d, f.shape)
    requires !a.rest && 0 <= a.listIndex < |list.elems|
    ensures var b := FieldBinding(list, f, a, d);
      var e := Binding(list.Nth(a.listIndex), f.shape, d);
      && b.datum == e.datum
      && (b.err.None? <==> e.err.None?)
      && (e.err.Some? ==> b.err == Some(FieldError(f.name, a.listIndex, e.err.value)))
  {
  }

  /** The slice binder on the tail of a list from `k`, as a rest field starting
      at `k` gets it: it binds exactly when every element from `k` on binds to
      the element type, and then holds those elements' bindings, in order. */
  lemma SliceOfTail(list: List, k: nat, t: Shape, d: Datum)
    requires Conforms(d, Slice(t)) && k <= |list.elems|
    ensures var b := SliceBinding(FromList(List(list.elems[k..])), t, d);
      && (b.err.None? <==> forall j :: k <= j < |list.elems| ==> Binding(list.elems[j], t, Zero(t)).err.None?)
      && (b.err.None? ==>
            && b.datum.Items?
            && |b.datum.items| == |list.elems| - k
            && forall j :: k <= j < |list.elems| ==> b.datum.items[j - k] == Binding(list.elems[j], t, Zero(t)).datum)
  {
    var es := list.elems[k..];
    var tail := FromList(List(es));
    var b := SliceBinding(tail, t, d);
    SliceBindsEachElement(tail, t, d);
    if b.err.None? {
      forall j | k <= j < |list.elems|
        ensures b.datum.items[j - k] == Binding(list.elems[j], t, Zero(t)).datum
      {
        assert es[j - k] == list.elems[j];
      }
    } else {
      var i :| 0 <= i < |es| && Binding(es[i], t, Zero(t)).err.Some?;
      assert es[i] == list.elems[i + k];
    }
  }

  /** A rest field of slice type within bounds is bound by the slice binder
      from the tail of the list at its index, with no further wrapping. */
  lemma RestFieldIsSlice(list: List, f: Field, a: FieldAnnotation, d: Datum)
    requires Conforms(d, f.shape) && f.shape.Slice?
    requires a.rest && 0 <= a.listIndex <= |list.elems|
    ensures FieldBinding(list, f, a, d) == SliceBinding(FromList(List(list.elems[a.listIndex..])), f.shape.elem, d)
  {
    var tail := FromList(List(list.elems[a.listIndex..]));
    assert FieldBinding(list, f, a, d) == Binding(tail, f.shape, d);
  }

  /** Field `m` is the first of fields `k..` to fail, and the result `r` is
      what the binder leaves: the fields before `m` hold their sub-binders'
      results, `m` holds what its sub-binder left and gives the error, and the
      fields after it keep their old content. */
  predicate FirstFailure(list: List, fs: seq<Field>, anns: seq<FieldAnnotation>, k: nat, ds: seq<Datum>, m: nat, r: FieldsBound)
    requires |anns| == |fs| == |ds| == |r.datums| && k <= m < |fs|
    requires forall i :: 0 <= i < |fs| ==> Conforms(ds[i], fs[i].shape)
  {
    && (forall j :: k <= j < m ==> FieldBinding(list, fs[j], anns[j], ds[j]) == Bound(r.datums[j], None))
    && FieldBinding(list, fs[m], anns[m], ds[m]) == Bound(r.datums[m], r.err)
    && r.err.Some?
    && (forall j :: m < j < |fs| ==> r.datums[j] == ds[j])
  }

  /** Fields are bound in order from their old content: when none fails each
      holds its sub-binder's result, and otherwise there is a first field to
      fail, whose error is the struct's. */
  lemma {:induction false} FieldsBindInOrder(list: List, fs: seq<Field>, anns: seq<FieldAnnotation>, k: nat, ds: seq<Datum>)
    requires |anns| == |fs| == |ds| && k <= |fs|
    requires forall i :: 0 <= i < |fs| ==> Conforms(ds[i], fs[i].shape)
    decreases |fs| - k
    ensures var r := FieldsBinding(list, fs, anns, k, ds);
      r.err.None? ==> forall j :: k <= j < |fs| ==> FieldBinding(list, fs[j], anns[j], ds[j]) == Bound(r.datums[j], None)
    ensures var r := FieldsBinding(list, fs, anns, k, ds);
      r.err.Some? ==> exists m :: k <= m < |fs| && FirstFailure(list, fs, anns, k, ds, m, r)
  {
    var r := FieldsBinding(list, fs, anns, k, ds);
    if k < |fs| {
      var b := FieldBinding(list, fs[k], anns[k], ds[k]);
      var ds' := ds[k := b.datum];
      if b.err.Some? {
        assert r == FieldsBound(ds', b.err);
        assert FirstFailure(list, fs, anns, k, ds, k, r);
      } else {
        assert r == FieldsBinding(list, fs, anns, k + 1, ds');
        FieldsBindInOrder(list, fs, anns, k + 1, ds');
        assert r.datums[k] == b.datum;
        assert forall j :: k < j < |fs| ==> ds'[j] == ds[j];
        if r.err.Some? {
          var m :| k + 1 <= m < |fs| && FirstFailure(list, fs, anns, k + 1, ds', m, r);
          assert FirstFailure(list, fs, anns, k, ds, m, r);
        }
      }
    }
  }

  // ---------------------------------------------------------------------------
  // Field annotations
  // ---------------------------------------------------------------------------

  /** An integer tag sets the index; the `&rest` tag marks a rest field at the
      declaration index, once; a tag that does not convert is an error. */
  lemma AnnotationRules(name: string, s: Shape, declIndex: int, n: int, hasRest: bool)
    ensures ParseFieldAnnotation(Field(name, s, Some(NumberForm(IntNumber(n)))), declIndex, hasRest)
      == Ok(FieldAnnotation(n, false))
    ensures ParseFieldAnnotation(Field(name, s, Some(SymbolForm("&rest"))), declIndex, false)
      == Ok(FieldAnnotation(declIndex, true))
    ensures ParseFieldAnnotation(Field(name, s, Some(SymbolForm("&rest"))), declIndex, true)
      == Err(DuplicateRest(name))
    ensures ParseFieldAnnotation(Field(name, s, Some(OtherForm)), declIndex, hasRest)
      == Err(BadTag(name, UnsupportedForm))
  {
    assert ParseForm(NumberForm(IntNumber(n))) == Ok(FromInt(n));
    assert ':' !in "&rest";
    assert ParseSymbol("&rest") == Ok(RestSymbol);
  }

  /** A struct with two `&rest` fields does not compile. */
  lemma TwoRestFieldsRejected(s: Shape)
    ensures var rest := Field("A", s, Some(SymbolForm("&rest")));
      CompileStruct([rest, rest.(name := "B")]) == Err(TagParseFailed(DuplicateRest("B")))
  {
    var rest := Field("A", s, Some(SymbolForm("&rest")));
    var fs := [rest, rest.(name := "B")];
    AnnotationRules("A", s, 0, 0, false);
    AnnotationRules("B", s, 1, 0, true);
    assert Annotations(fs, 1, true) == Err(DuplicateRest("B"));
    assert Annotations(fs, 0, false) == Err(DuplicateRest("B"));
  }

  // ---------------------------------------------------------------------------
  // Slices
  // ---------------------------------------------------------------------------

  /** A slice destination receives one element per list element, element `i`
      bound from `Nth(i)` into a zero value; it succeeds exactly when the value
      is a list all of whose elements bind. */
  lemma SliceBindsEachElement(exp: Expression, elem: Shape, d: Datum)
    requires Conforms(d, Slice(elem))
    ensures var b := SliceBinding(exp, elem, d);
      b.err.None? <==> (exp.value.ListValue? &&
        forall i :: 0 <= i < |exp.value.list.elems| ==> Binding(exp.value.list.elems[i], elem, Zero(elem)).err.None?)
    ensures var b := SliceBinding(exp, elem, d);
      b.err.None? ==>
        forall i :: 0 <= i < |exp.value.list.elems| ==> b.datum.items[i] == Binding(exp.value.list.elems[i], elem, Zero(elem)).datum
  {
    if exp.value.ListValue? {
      var rs := ElementBindings(exp.value.list, elem);
      if forall i :: 0 <= i < |rs| ==> rs[i].Ok? {
        SequenceAllOk(rs, seq(|rs|, i requires 0 <= i < |rs| => rs[i].value));
      }
    }
  }

  // ---------------------------------------------------------------------------
  // The cases of the binder's tests
  // ---------------------------------------------------------------------------

  /** `1` into a `*Symbol` leaves an empty symbol there and fails as not a
      list; `(1 2)` reaches the `name` field and panics; `1` into a `*List`
      leaves an empty list. */
  lemma BindPackagePointerExamples()
    ensures Binding(FromInt(1), SymbolRef, Nil) == Bound(Native(SymbolValue(Symbol("", ""))), Some(StructFromNonList(FromInt(1))))
    ensures Binding(FromList(List([FromInt(1), FromInt(2)])), SymbolRef, Nil).err == Some(UnexportedFieldPanic("name"))
    ensures Binding(FromInt(1), ListRef, Nil) == Bound(Native(ListValue(List([]))), Some(StructFromNonList(FromInt(1))))
  {
  }

  /** `"a"` binds into a `*string`. */
  lemma BindStringExample()
    ensures Binding(FromString("a"), Basic(String), Native(StringValue(""))) == Bound(Native(StringValue("a")), None)
  {
  }

  /** `123` binds into a `*int`, and into a `**int` behind a fresh pointer. */
  lemma BindIntExample()
    ensures Binding(FromInt(123), Basic(Int), Native(IntValue(0))) == Bound(Native(IntValue(123)), None)
    ensures Binding(FromInt(123), Ptr(Basic(Int)), Nil) == Bound(Ref(Native(IntValue(123))), None)
  {
  }

  /** `struct { A string; B string }`. */
  function PairShape(): Shape {
    Struct([Field("A", Basic(String), None), Field("B", Basic(String), None)])
  }

  lemma PairBinder()
    ensures CompileStruct(PairShape().fields) == Ok(PairBinderValue())
  {
    var fs := PairShape().fields;
    assert fs[0].tag.None? && fs[1].tag.None?;
    assert ParseFieldAnnotation(fs[1], 1, false) == Ok(FieldAnnotation(1, false));
    assert ParseFieldAnnotation(fs[0], 0, false) == Ok(FieldAnnotation(0, false));
    assert Annotations(fs, 2, false) == Ok([]);
    assert [FieldAnnotation(1, false)] + [] == [FieldAnnotation(1, false)];
    assert Annotations(fs, 1, false) == Ok([FieldAnnotation(1, false)]);
    assert [FieldAnnotation(0, false)] + [FieldAnnotation(1, false)] == [FieldAnnotation(0, false), FieldAnnotation(1, false)];
    assert Annotations(fs, 0, false) == Ok([FieldAnnotation(0, false), FieldAnnotation(1, false)]);
    var anns := [FieldAnnotation(0, false), FieldAnnotation(1, false)];
    assert anns[..1] == [FieldAnnotation(0, false)];
    assert MinLengthOf(anns) == 2;
  }

  /** A pair is bound by its compiled struct binder. */
  lemma PairBinding(exp: Expression, d: Datum)
    requires Conforms(d, PairShape())
    ensures Binding(exp, PairShape(), d) == StructParse(exp, PairShape().fields, PairBinderValue(), d)
  {
    PairBinder();
  }

  function PairBinderValue(): StructBinder {
    StructBinder([FieldAnnotation(0, false), FieldAnnotation(1, false)], 2, 2)
  }

  /** `("abc" "123")` fills both fields. */
  lemma BindPairExample()
    ensures Binding(FromList(List([FromString("abc"), FromString("123")])), PairShape(), Zero(PairShape()))
      == Bound(Fields([Native(StringValue("abc")), Native(StringValue("123"))]), None)
  {
    PairBinding(FromList(List([FromString("abc"), FromString("123")])), Zero(PairShape()));
    var l := List([FromString("abc"), FromString("123")]);
    var fs := PairShape().fields;
    var anns := [FieldAnnotation(0, false), FieldAnnotation(1, false)];
    var zero := Zero(PairShape()).fields;
    var one := zero[0 := Native(StringValue("abc"))];
    assert FieldsBinding(l, fs, anns, 2, one[1 := Native(StringValue("123"))]).datums
      == [Native(StringValue("abc")), Native(StringValue("123"))];
  }

  /** `("abc" 123)` fails at field `B`, after `A` has been written. */
  lemma BindPairMismatch()
    ensures var b := Binding(FromList(List([FromString("abc"), FromInt(123)])), PairShape(), Zero(PairShape()));
      && b.err == Some(FieldError("B", 1, CannotBind(Basic(String), FromInt(123))))
      && b.datum == Fields([Native(StringValue("abc")), Native(StringValue(""))])
  {
    var l := List([FromString("abc"), FromInt(123)]);
    var zero := [Native(StringValue("")), Native(StringValue(""))];
    assert Zero(PairShape()) == Fields(zero);
    PairBinding(FromList(l), Fields(zero));
    MismatchFields(l);
    var exp := FromList(l);
    assert exp.value.list == l && |l.elems| == 2;
  }

  lemma MismatchFields(l: List)
    requires l == List([FromString("abc"), FromInt(123)])
    ensures FieldsBinding(l, PairShape().fields, PairBinderValue().annotations, 0, [Native(StringValue("")), Native(StringValue(""))])
      == FieldsBound([Native(StringValue("abc")), Native(StringValue(""))], Some(FieldError("B", 1, CannotBind(Basic(String), FromInt(123)))))
  {
    var fs := PairShape().fields;
    var anns := PairBinderValue().annotations;
    var zero := [Native(StringValue("")), Native(StringValue(""))];
    var one := [Native(StringValue("abc")), Native(StringValue(""))];
    MismatchFieldA(l);
    assert zero[0 := Native(StringValue("abc"))] == one;
    MismatchFieldB(l);
    assert one[1 := Native(StringValue(""))] == one;
    assert FieldsBinding(l, fs, anns, 1, one) == FieldsBound(one, Some(FieldError("B", 1, CannotBind(Basic(String), FromInt(123)))));
  }

  lemma MismatchFieldA(l: List)
    requires l == List([FromString("abc"), FromInt(123)])
    ensures FieldBinding(l, PairShape().fields[0], FieldAnnotation(0, false), Native(StringValue("")))
      == Bound(Native(StringValue("abc")), None)
  {
  }

  lemma MismatchFieldB(l: List)
    requires l == List([FromString("abc"), FromInt(123)])
    ensures FieldBinding(l, PairShape().fields[1], FieldAnnotation(1, false), Native(StringValue("")))
      == Bound(Native(StringValue("")), Some(FieldError("B", 1, CannotBind(Basic(String), FromInt(123)))))
  {
    assert Binding(FromInt(123), Basic(String), Native(StringValue(""))) == Bound(Native(StringValue("")), Some(CannotBind(Basic(String), FromInt(123))));
  }
}
