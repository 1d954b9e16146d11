/** The generic binder of `expressions.go`: it destructures an expression into
    a typed Go destination. Reflection is replaced by a closed `Shape` of the
    destination's type and a `Datum` for the value the destination holds. */
module Expressions {
  import opened Wrappers
  import opened Expression

  // ---------------------------------------------------------------------------
  // Destination types and the values they hold
  // ---------------------------------------------------------------------------

  /** The Go scalar types an expression value can have. */
  datatype ScalarKind =
    | Bool | Int | Int8 | Int16 | Int32 | Int64
    | Uint | Uint8 | Uint16 | Uint32 | Uint64
    | Float32 | Float64 | String

  /** The Go type of a destination: a scalar, one of the pointer types the
      expression package hands out (`*Symbol`, `*List`, `*Expression`), the
      empty interface, a slice, a struct or a pointer. */
  datatype Shape =
    | Basic(kind: ScalarKind)
    | SymbolRef
    | ListRef
    | ExpressionRef
    | Any
    | Slice(elem: Shape)
    | Struct(fields: seq<Field>)
    | Ptr(to: Shape)

  /** A struct field: its name, its type and its `sexpr` tag, which the model
      receives already read by the tokenizer. */
  datatype Field = Field(name: string, shape: Shape, tag: Option<Form>)

  /** The value held by a destination. `Nil` is a nil pointer, slice or
      interface; `Native` is a Go value of the expression package (a scalar,
      `[]byte`, `*Symbol` or `*List`); `Handle` a non-nil `*Expression`;
      `Ref` a non-nil pointer to its target; `Items` a non-nil slice;
      `Fields` a struct. */
  datatype Datum =
    | Nil
    | Native(v: Value)
    | Handle(exp: Expression)
    | Ref(target: Datum)
    | Items(items: seq<Datum>)
    | Fields(fields: seq<Datum>)

  /** `reflect.TypeOf(exp.Value())`. `[]byte` is a slice of `uint8`. */
  function ValueType(v: Value): Shape {
    match v
    case BoolValue(_) => Basic(Bool)
    case IntValue(_) => Basic(Int)
    case Int8Value(_) => Basic(Int8)
    case Int16Value(_) => Basic(Int16)
    case Int32Value(_) => Basic(Int32)
    case Int64Value(_) => Basic(Int64)
    case UintValue(_) => Basic(Uint)
    case Uint8Value(_) => Basic(Uint8)
    case Uint16Value(_) => Basic(Uint16)
    case Uint32Value(_) => Basic(Uint32)
    case Uint64Value(_) => Basic(Uint64)
    case Float32Value(_) => Basic(Float32)
    case Float64Value(_) => Basic(Float64)
    case BytesValue(_) => Slice(Basic(Uint8))
    case StringValue(_) => Basic(String)
    case SymbolValue(_) => SymbolRef
    case ListValue(_) => ListRef
  }

  /** `reflect.Type.AssignableTo` on the modelled types: identical types, or any
      type into the empty interface. */
  predicate Assignable(u: Shape, t: Shape) {
    u == t || t == Any
  }

  /** The datum is a Go value of type `s`. */
  predicate Conforms(d: Datum, s: Shape)
    decreases s
  {
    match s
    case Basic(_) => d.Native? && ValueType(d.v) == s
    case SymbolRef => d.Nil? || (d.Native? && d.v.SymbolValue?)
    case ListRef => d.Nil? || (d.Native? && d.v.ListValue?)
    case ExpressionRef => d.Nil? || d.Handle?
    case Any => d.Nil? || d.Native?
    case Slice(e) =>
      || d.Nil?
      || (d.Items? && forall i :: 0 <= i < |d.items| ==> Conforms(d.items[i], e))
      || (e == Basic(Uint8) && d.Native? && d.v.BytesValue?)
    case Struct(fs) =>
      d.Fields? && |d.fields| == |fs| && forall i :: 0 <= i < |fs| ==> Conforms(d.fields[i], fs[i].shape)
    case Ptr(t) => d.Nil? || (d.Ref? && Conforms(d.target, t))
  }

  function ZeroScalar(k: ScalarKind): (v: Value)
    ensures ValueType(v) == Basic(k)
  {
    match k
    case Bool => BoolValue(false)
    case Int => IntValue(0)
    case Int8 => Int8Value(0)
    case Int16 => Int16Value(0)
    case Int32 => Int32Value(0)
    case Int64 => Int64Value(0)
    case Uint => UintValue(0)
    case Uint8 => Uint8Value(0)
    case Uint16 => Uint16Value(0)
    case Uint32 => Uint32Value(0)
    case Uint64 => Uint64Value(0)
    case Float32 => Float32Value(0.0)
    case Float64 => Float64Value(0.0)
    case String => StringValue("")
  }

  /** The zero value of a type, which `reflect.New` and `reflect.MakeSlice` start from. */
  function Zero(s: Shape): (d: Datum)
    decreases s
    ensures Conforms(d, s)
  {
    match s
    case Basic(k) => Native(ZeroScalar(k))
    case Struct(fs) => Fields(seq(|fs|, i requires 0 <= i < |fs| => Zero(fs[i].shape)))
    case _ => Nil
  }

  // ---------------------------------------------------------------------------
  // Errors and outcomes
  // ---------------------------------------------------------------------------

  datatype AnnotationError =
    | BadTag(field: string, cause: Error)
    | DuplicateRest(field: string)

  datatype BindError =
    | CannotBind(shape: Shape, exp: Expression)
    | SliceFromNonList(shape: Shape, exp: Expression)
    | SliceElementError(index: int, cause: BindError)
    | StructFromNonList(exp: Expression)
    | TooShort(got: nat, want: int)
    | TooLong(got: nat, want: int)
    | FieldIndexOutOfBounds(field: string, index: int)
    | FieldError(field: string, index: int, cause: BindError)
    | TagParseFailed(tagError: AnnotationError)
    | NilExpressionDestination(exp: Expression)
    /** A Go runtime panic: a negative list index or slice bound. */
    | IndexPanic(field: string, index: int)
    /** A Go runtime panic: `reflect` refuses to take the address of an
        unexported field for the struct binder. */
    | UnexportedFieldPanic(field: string)

  /** What a bind leaves behind: the new content of the destination, which a
      failed bind may have partly written, and the error if there was one. */
  datatype Bound = Bound(datum: Datum, err: Option<BindError>)

  function AsResult(b: Bound): (r: Result<Datum, BindError>)
    ensures r.Ok? <==> b.err.None?
    ensures r.Ok? ==> r.value == b.datum
  {
    if b.err.None? then Ok(b.datum) else Err(b.err.value)
  }

  // ---------------------------------------------------------------------------
  // The registry of custom binders
  // ---------------------------------------------------------------------------

  /** The custom binders the package registers: only the one for `**Expression`. */
  datatype CustomBinder = ExpressionBinder

  /** The registry as it stands after the package's `init`, keyed by the type
      the destination pointer points to. */
  function CustomBinderFor(s: Shape): (b: Option<CustomBinder>)
    ensures b.Some? <==> s == ExpressionRef
  {
    if s == ExpressionRef then Some(ExpressionBinder) else None
  }

  /** The `**Expression` binder: `*dst = exp`, unless `dst` itself is nil. */
  function StoreExpression(exp: Expression, dst: Option<Datum>): (r: Result<Datum, BindError>)
    ensures dst.None? <==> r.Err?
    ensures r.Ok? ==> r.value == Handle(exp) && Conforms(r.value, ExpressionRef)
    ensures r.Err? ==> r.error == NilExpressionDestination(exp)
  {
    match dst
    case None => Err(NilExpressionDestination(exp))
    case Some(_) => Ok(Handle(exp))
  }

  /** `binderRegistry`: a map from destination type to binder. */
  class BinderRegistry {
    var m: map<Shape, CustomBinder>

    /** `defaultBinderRegistry` once `init` has registered the `**Expression` binder. */
    constructor Default()
      ensures m == map[ExpressionRef := ExpressionBinder]
      ensures forall s :: Get(s) == CustomBinderFor(s)
    {
      m := map[];
      new;
      RegisterBinder(ExpressionRef, ExpressionBinder);
    }

    method RegisterBinder(t: Shape, b: CustomBinder)
      modifies this
      ensures m == old(m)[t := b]
    {
      m := m[t := b];
    }

    /** The binder registered for a destination type, if any. */
    function Get(t: Shape): (r: Option<CustomBinder>)
      reads this
      ensures r.Some? <==> t in m
      ensures r.Some? ==> r.value == m[t]
    {
      if t in m then Some(m[t]) else None
    }
  }

  // ---------------------------------------------------------------------------
  // Field annotations
  // ---------------------------------------------------------------------------

  /** `fieldAnnotation`: the list position a field is bound from, and whether it
      takes the rest of the list from there. */
  datatype FieldAnnotation = FieldAnnotation(listIndex: int, rest: bool)

  /** The `&rest` designator: the symbol `&rest` with no namespace. */
  const RestSymbol := Symbol("&rest", "")

  /** `parseFieldAnnotation`. `declIndex` is the field's declaration position,
      which is `f.Index[0]` for the direct fields the binder visits. */
  function ParseFieldAnnotation(f: Field, declIndex: int, alreadyHasRest: bool): (r: Result<FieldAnnotation, AnnotationError>)
    ensures f.tag.None? ==> r == Ok(FieldAnnotation(declIndex, false))
    ensures r.Ok? && r.value.rest ==> f.tag.Some? && !alreadyHasRest && r.value.listIndex == declIndex
  {
    match f.tag
    case None => Ok(FieldAnnotation(declIndex, false))
    case Some(form) =>
      match ParseForm(form)
      case Err(e) => Err(BadTag(f.name, e))
      case Ok(x) =>
        var listIndex := if x.value.IntValue? then x.value.i else declIndex;
        if x.value.SymbolValue? && x.value.symbol.Equals(RestSymbol) then
          if alreadyHasRest then Err(DuplicateRest(f.name))
          else Ok(FieldAnnotation(listIndex, true))
        else Ok(FieldAnnotation(listIndex, false))
  }

  // ---------------------------------------------------------------------------
  // Compiling a struct binder
  // ---------------------------------------------------------------------------

  /** `math.MaxInt64`, the maximum length of a struct with a rest field. */
  const MaxInt64: int := 0x7fff_ffff_ffff_ffff

  /** The compiled struct binder: one annotation per field and the bounds on
      the list length. */
  datatype StructBinder = StructBinder(annotations: seq<FieldAnnotation>, minLength: int, maxLength: int)

  /** The least list length a field needs: one past its index, or its index for
      a rest field, which may be empty. */
  function MinLengthForField(a: FieldAnnotation): int {
    if a.rest then a.listIndex else a.listIndex + 1
  }

  /** The running maximum the loop of `compileBinderForStruct` keeps, from 0. */
  function MinLengthOf(anns: seq<FieldAnnotation>): (m: int)
    ensures m >= 0
    ensures forall i :: 0 <= i < |anns| ==> MinLengthForField(anns[i]) <= m
    ensures m == 0 || exists i :: 0 <= i < |anns| && MinLengthForField(anns[i]) == m
  {
    if |anns| == 0 then 0
    else
      var m := MinLengthOf(anns[..|anns| - 1]);
      var here := MinLengthForField(anns[|anns| - 1]);
      if here > m then here else m
  }

  predicate HasRest(anns: seq<FieldAnnotation>) {
    exists i :: 0 <= i < |anns| && anns[i].rest
  }

  /** The annotations of fields `k..`, given whether a rest field came before. */
  function Annotations(fs: seq<Field>, k: nat, hasRest: bool): (r: Result<seq<FieldAnnotation>, AnnotationError>)
    requires k <= |fs|
    decreases |fs| - k
    ensures r.Ok? ==> |r.value| == |fs| - k
  {
    if k == |fs| then Ok([])
    else
      match ParseFieldAnnotation(fs[k], k, hasRest)
      case Err(e) => Err(e)
      case Ok(a) =>
        match Annotations(fs, k + 1, hasRest || a.rest)
        case Err(e) => Err(e)
        case Ok(rest) => Ok([a] + rest)
  }

  /** `compileBinderForStruct`. */
  function CompileStruct(fs: seq<Field>): (r: Result<StructBinder, BindError>)
    ensures r.Ok? ==> |r.value.annotations| == |fs|
  {
    match Annotations(fs, 0, false)
    case Err(e) => Err(TagParseFailed(e))
    case Ok(anns) =>
      var minLength := MinLengthOf(anns);
      Ok(StructBinder(anns, minLength, if HasRest(anns) then MaxInt64 else minLength))
  }

  // ---------------------------------------------------------------------------
  // The expression package's own structs
  // ---------------------------------------------------------------------------

  /** The struct behind `*Symbol` (`name`, `namespace`) or `*List` (`elems`):
      untagged, unexported fields in declaration order. */
  function PackageStructFields(s: Shape): (fs: seq<Field>)
    ensures s == SymbolRef ==> |fs| == 2
    ensures s == ListRef ==> |fs| == 1
    ensures forall i :: 0 <= i < |fs| ==> fs[i].tag.None?
  {
    if s == SymbolRef then [Field("name", Basic(String), None), Field("namespace", Basic(String), None)]
    else if s == ListRef then [Field("elems", Slice(ExpressionRef), None)]
    else []
  }

  /** `reflect.New` of that struct: the empty symbol or the empty list. */
  function FreshPackageStruct(s: Shape): (d: Datum)
    requires s == SymbolRef || s == ListRef
    ensures Conforms(d, s) && d.Native?
  {
    if s == SymbolRef then Native(SymbolValue(Symbol("", ""))) else Native(ListValue(List([])))
  }

  /** The struct binder compiled for such a struct, whose untagged fields give
      it `|fs|` as both length bounds: the value must be a list of exactly that
      length, and then binding the first field panics, as it is unexported. */
  function PackageStructError(exp: Expression, fs: seq<Field>): (e: BindError)
    requires |fs| > 0
    ensures !exp.value.ListValue? ==> e == StructFromNonList(exp)
    ensures exp.value.ListValue? && |exp.value.list.elems| < |fs| ==> e == TooShort(|exp.value.list.elems|, |fs|)
    ensures exp.value.ListValue? && |exp.value.list.elems| > |fs| ==> e == TooLong(|exp.value.list.elems|, |fs|)
    ensures exp.value.ListValue? && |exp.value.list.elems| == |fs| ==> e == UnexportedFieldPanic(fs[0].name)
  {
    if !exp.value.ListValue? then StructFromNonList(exp)
    else if |exp.value.list.elems| < |fs| then TooShort(|exp.value.list.elems|, |fs|)
    else if |exp.value.list.elems| > |fs| then TooLong(|exp.value.list.elems|, |fs|)
    else UnexportedFieldPanic(fs[0].name)
  }

  // ---------------------------------------------------------------------------
  // Binding
  // ---------------------------------------------------------------------------

  /** `Bind(exp, dst)` where `dst` points to a destination of type `s` holding `d`.
      The rules are tried in the Go code's order: a custom binder for the type;
      the value itself when its type is assignable; a fresh pointer to the value;
      a compiled struct or slice binder; a fresh struct behind a pointer, which
      is also where a `*Symbol` or `*List` destination ends up when the value
      is of another type. */
  function Binding(exp: Expression, s: Shape, d: Datum): (b: Bound)
    requires Conforms(d, s)
    decreases s, 3
    ensures Conforms(b.datum, s)
  {
    var ul := exp.value;
    if CustomBinderFor(s).Some? then Bound(StoreExpression(exp, Some(d)).value, None)
    else if Assignable(ValueType(ul), s) then Bound(Native(ul), None)
    else if s.Ptr? && Assignable(ValueType(ul), s.to) then Bound(Ref(Native(ul)), None)
    else if s.Struct? then
      match CompileStruct(s.fields)
      case Err(e) => Bound(d, Some(e))
      case Ok(sb) => StructParse(exp, s.fields, sb, d)
    else if s.Slice? then SliceBinding(exp, s.elem, d)
    else if s.Ptr? && s.to.Struct? then
      match CompileStruct(s.to.fields)
      case Err(e) => Bound(d, Some(e))
      case Ok(sb) =>
        var b := StructParse(exp, s.to.fields, sb, Zero(s.to));
        Bound(Ref(b.datum), b.err)
    else if s == SymbolRef || s == ListRef then
      Bound(FreshPackageStruct(s), Some(PackageStructError(exp, PackageStructFields(s))))
    else Bound(d, Some(CannotBind(s, exp)))
  }

  /** The binder `compileBinderForStruct` returns: the value must be a list whose
      length is within the bounds, then the fields are bound in order until one
      fails. */
  function StructParse(exp: Expression, fs: seq<Field>, sb: StructBinder, d: Datum): (b: Bound)
    requires |sb.annotations| == |fs| && Conforms(d, Struct(fs))
    decreases Struct(fs), 2
    ensures Conforms(b.datum, Struct(fs))
    ensures !exp.value.ListValue? ==> b == Bound(d, Some(StructFromNonList(exp)))
    ensures exp.value.ListValue? && |exp.value.list.elems| < sb.minLength ==>
      b == Bound(d, Some(TooShort(|exp.value.list.elems|, sb.minLength)))
    ensures exp.value.ListValue? && sb.minLength <= |exp.value.list.elems| && |exp.value.list.elems| > sb.maxLength ==>
      b == Bound(d, Some(TooLong(|exp.value.list.elems|, sb.maxLength)))
  {
    if !exp.value.ListValue? then Bound(d, Some(StructFromNonList(exp)))
    else
      var list := exp.value.list;
      var gotLen := |list.elems|;
      if gotLen < sb.minLength then Bound(d, Some(TooShort(gotLen, sb.minLength)))
      else if gotLen > sb.maxLength then Bound(d, Some(TooLong(gotLen, sb.maxLength)))
      else
        var r := FieldsBinding(list, fs, sb.annotations, 0, d.fields);
        Bound(Fields(r.datums), r.err)
  }

  /** The field values after binding fields `k..` in order, stopping at the first error. */
  datatype FieldsBound = FieldsBound(datums: seq<Datum>, err: Option<BindError>)

  function FieldsBinding(list: List, fs: seq<Field>, anns: seq<FieldAnnotation>, k: nat, ds: seq<Datum>): (r: FieldsBound)
    requires |anns| == |fs| == |ds| && k <= |fs|
    requires forall i :: 0 <= i < |fs| ==> Conforms(ds[i], fs[i].shape)
    decreases Struct(fs), 1, |fs| - k
    ensures |r.datums| == |fs|
    ensures forall i :: 0 <= i < |fs| ==> Conforms(r.datums[i], fs[i].shape)
    ensures forall i :: 0 <= i < k ==> r.datums[i] == ds[i]
  {
    if k == |fs| then FieldsBound(ds, None)
    else
      assert fs[k] in fs;
      var b := FieldBinding(list, fs[k], anns[k], ds[k]);
      var ds' := ds[k := b.datum];
      if b.err.Some? then FieldsBound(ds', b.err)
      else FieldsBinding(list, fs, anns, k + 1, ds')
  }

  /** One field's sub-binder. A rest field is bound from a new list of the
      elements from its index on, and its error passes through unwrapped; any
      other field is bound from the element at its index, and its error is
      wrapped with the field's name and index. */
  function FieldBinding(list: List, f: Field, a: FieldAnnotation, d: Datum): (b: Bound)
    requires Conforms(d, f.shape)
    decreases f.shape, 4
    ensures Conforms(b.datum, f.shape)
  {
    if a.rest then
      if a.listIndex < 0 || a.listIndex > |list.elems| then Bound(d, Some(IndexPanic(f.name, a.listIndex)))
      else Binding(FromList(List(list.elems[a.listIndex..])), f.shape, d)
    else if a.listIndex >= |list.elems| then Bound(d, Some(FieldIndexOutOfBounds(f.name, a.listIndex)))
    else if a.listIndex < 0 then Bound(d, Some(IndexPanic(f.name, a.listIndex)))
    else
      var b := Binding(list.elems[a.listIndex], f.shape, d);
      Bound(b.datum, if b.err.Some? then Some(FieldError(f.name, a.listIndex, b.err.value)) else None)
  }

  /** The slice binder: a new slice of the list's length, element `i` bound from
      `Nth(i)`; the destination is written only when every element binds. */
  function SliceBinding(exp: Expression, elem: Shape, d: Datum): (b: Bound)
    requires Conforms(d, Slice(elem))
    decreases Slice(elem), 2
    ensures Conforms(b.datum, Slice(elem))
    ensures b.err.Some? ==> b.datum == d
    ensures b.err.None? ==> exp.value.ListValue? && b.datum.Items? && |b.datum.items| == |exp.value.list.elems|
  {
    if !exp.value.ListValue? then Bound(d, Some(SliceFromNonList(Slice(elem), exp)))
    else
      match Sequence(ElementBindings(exp.value.list, elem))
      case Err(err) => Bound(d, Some(SliceElementError(err.0, err.1)))
      case Ok(items) => Bound(Items(items), None)
  }

  /** Each element bound into a fresh zero value of the element type. */
  function ElementBindings(list: List, elem: Shape): (rs: seq<Result<Datum, BindError>>)
    decreases Slice(elem), 1
    ensures |rs| == |list.elems|
    ensures forall i :: 0 <= i < |rs| ==> rs[i] == AsResult(Binding(list.elems[i], elem, Zero(elem)))
    ensures forall i :: 0 <= i < |rs| && rs[i].Ok? ==> Conforms(rs[i].value, elem)
  {
    seq(|list.elems|, i requires 0 <= i < |list.elems| => AsResult(Binding(list.elems[i], elem, Zero(elem))))
  }

  // ---------------------------------------------------------------------------
  // The binder as the Go code runs it: writing through destination pointers
  // ---------------------------------------------------------------------------

  /** The pointer `dst` handed to `Bind`: a destination of type `shape` whose
      content the binder overwrites. */
  class Slot {
    const shape: Shape
    var content: Datum

    ghost predicate Valid()
      reads this
    {
      Conforms(content, shape)
    }

    constructor(shape: Shape, content: Datum)
      requires Conforms(content, shape)
      ensures this.shape == shape && this.content == content && Valid()
    {
      this.shape := shape;
      this.content := content;
    }

    /** `Bind(exp, dst)`. */
    method Bind(exp: Expression) returns (err: Option<BindError>)
      requires Valid()
      modifies this
      decreases shape, 3
      ensures Valid()
      ensures Bound(content, err) == Binding(exp, shape, old(content))
    {
      var ul := exp.value;
      if CustomBinderFor(shape).Some? {
        content := StoreExpression(exp, Some(content)).value;
        return None;
      }
      if Assignable(ValueType(ul), shape) {
        content := Native(ul);
        return None;
      }
      if shape.Ptr? && Assignable(ValueType(ul), shape.to) {
        content := Ref(Native(ul));
        return None;
      }
      if shape.Struct? {
        var parser := CompileBinderForStruct(shape.fields);
        if parser.Err? {
          return Some(parser.error);
        }
        err := ParseStruct(exp, shape.fields, parser.value);
        return;
      }
      if shape.Slice? {
        err := BindSlice(exp, shape.elem);
        return;
      }
      if shape.Ptr? && shape.to.Struct? {
        var parser := CompileBinderForStruct(shape.to.fields);
        if parser.Err? {
          return Some(parser.error);
        }
        var newInstance := new Slot(shape.to, Zero(shape.to));
        content := Ref(newInstance.content);
        err := newInstance.ParseStruct(exp, shape.to.fields, parser.value);
        content := Ref(newInstance.content);
        return;
      }
      if shape == SymbolRef || shape == ListRef {
        content := FreshPackageStruct(shape);
        return Some(PackageStructError(exp, PackageStructFields(shape)));
      }
      return Some(CannotBind(shape, exp));
    }

    /** The struct binder applied to this destination. */
    method ParseStruct(exp: Expression, fs: seq<Field>, sb: StructBinder) returns (err: Option<BindError>)
      requires shape == Struct(fs) && |sb.annotations| == |fs| && Valid()
      modifies this
      decreases shape, 2
      ensures Valid()
      ensures Bound(content, err) == StructParse(exp, fs, sb, old(content))
    {
      if !exp.value.ListValue? {
        return Some(StructFromNonList(exp));
      }
      var list := exp.value.list;
      var gotLen := |list.elems|;
      if gotLen < sb.minLength {
        return Some(TooShort(gotLen, sb.minLength));
      }
      if gotLen > sb.maxLength {
        return Some(TooLong(gotLen, sb.maxLength));
      }
      ghost var whole := FieldsBinding(list, fs, sb.annotations, 0, content.fields);
      var k := 0;
      while k < |fs|
        invariant 0 <= k <= |fs|
        invariant Valid()
        invariant whole == FieldsBinding(list, fs, sb.annotations, k, content.fields)
        decreases |fs| - k
      {
        assert fs[k] in fs;
        var field := new Slot(fs[k].shape, content.fields[k]);
        var e := field.BindField(list, fs[k], sb.annotations[k]);
        content := Fields(content.fields[k := field.content]);
        if e.Some? {
          return e;
        }
        k := k + 1;
      }
      return None;
    }

    /** One field's sub-binder applied to the field's address. */
    method BindField(list: List, f: Field, a: FieldAnnotation) returns (err: Option<BindError>)
      requires shape == f.shape && Valid()
      modifies this
      decreases shape, 4
      ensures Valid()
      ensures Bound(content, err) == FieldBinding(list, f, a, old(content))
    {
      if a.rest {
        if a.listIndex < 0 || a.listIndex > |list.elems| {
          return Some(IndexPanic(f.name, a.listIndex));
        }
        var restList := List(list.elems[a.listIndex..]);
        err := Bind(FromList(restList));
        return;
      }
      if a.listIndex >= |list.elems| {
        return Some(FieldIndexOutOfBounds(f.name, a.listIndex));
      }
      if a.listIndex < 0 {
        return Some(IndexPanic(f.name, a.listIndex));
      }
      var e := Bind(list.elems[a.listIndex]);
      if e.Some? {
        return Some(FieldError(f.name, a.listIndex, e.value));
      }
      return None;
    }

    /** The slice binder: `reflect.MakeSlice` of the list's length, each element
        bound through its address, and the slice stored once all have bound. */
    method BindSlice(exp: Expression, elem: Shape) returns (err: Option<BindError>)
      requires shape == Slice(elem) && Valid()
      modifies this
      decreases shape, 2
      ensures Valid()
      ensures Bound(content, err) == SliceBinding(exp, elem, old(content))
    {
      if !exp.value.ListValue? {
        return Some(SliceFromNonList(shape, exp));
      }
      var list := exp.value.list;
      ghost var rs := ElementBindings(list, elem);
      var outSlice := new Datum[|list.elems|](i => Zero(elem));
      for i := 0 to outSlice.Length
        invariant content == old(content)
        invariant forall j :: 0 <= j < i ==> rs[j] == Ok(outSlice[j])
        invariant forall j :: i <= j < outSlice.Length ==> outSlice[j] == Zero(elem)
      {
        var element := new Slot(elem, outSlice[i]);
        var e := element.Bind(list.elems[i]);
        if e.Some? {
          SequenceFirstError(rs, i);
          return Some(SliceElementError(i, e.value));
        }
        outSlice[i] := element.content;
      }
      SequenceAllOk(rs, outSlice[..]);
      content := Items(outSlice[..]);
      return None;
    }
  }

  /** The loop of `compileBinderForStruct` over the struct's fields. */
  method CompileBinderForStruct(fs: seq<Field>) returns (r: Result<StructBinder, BindError>)
    ensures r == CompileStruct(fs)
  {
    var fieldBinderSpecs: seq<FieldAnnotation> := [];
    var minLength := 0;
    var hasRestArg := false;
    PrependNothing(Annotations(fs, 0, false));
    for i := 0 to |fs|
      invariant |fieldBinderSpecs| == i
      invariant hasRestArg == HasRest(fieldBinderSpecs)
      invariant minLength == MinLengthOf(fieldBinderSpecs)
      invariant Annotations(fs, 0, false) == Prepend(fieldBinderSpecs, Annotations(fs, i, hasRestArg))
    {
      var fa := ParseFieldAnnotation(fs[i], i, hasRestArg);
      if fa.Err? {
        return Err(TagParseFailed(fa.error));
      }
      AnnotationStep(fs, i, hasRestArg, fieldBinderSpecs);
      var minLengthForField := fa.value.listIndex + 1;
      if fa.value.rest {
        minLengthForField := fa.value.listIndex;
        hasRestArg := true;
      }
      if minLengthForField > minLength {
        minLength := minLengthForField;
      }
      fieldBinderSpecs := fieldBinderSpecs + [fa.value];
    }
    assert fieldBinderSpecs + [] == fieldBinderSpecs;
    var maxLength := minLength;
    if hasRestArg {
      maxLength := MaxInt64;
    }
    return Ok(StructBinder(fieldBinderSpecs, minLength, maxLength));
  }

  lemma PrependNothing(r: Result<seq<FieldAnnotation>, AnnotationError>)
    ensures Prepend([], r) == r
  {
    if r.Ok? {
      assert [] + r.value == r.value;
    }
  }

  /** One turn of the loop above: the field's annotation moves from the
      annotations still to come to those found, and the running facts follow. */
  lemma AnnotationStep(fs: seq<Field>, i: nat, hasRest: bool, done: seq<FieldAnnotation>)
    requires i < |fs| && ParseFieldAnnotation(fs[i], i, hasRest).Ok?
    ensures var a := ParseFieldAnnotation(fs[i], i, hasRest).value;
      && Prepend(done, Annotations(fs, i, hasRest)) == Prepend(done + [a], Annotations(fs, i + 1, hasRest || a.rest))
      && (HasRest(done + [a]) <==> HasRest(done) || a.rest)
      && MinLengthOf(done + [a]) == if MinLengthForField(a) > MinLengthOf(done) then MinLengthForField(a) else MinLengthOf(done)
  {
    var a := ParseFieldAnnotation(fs[i], i, hasRest).value;
    var extended := done + [a];
    assert extended[..|done|] == done && extended[|done|] == a;
    match Annotations(fs, i + 1, hasRest || a.rest) {
      case Err(_) =>
      case Ok(rest) => assert done + ([a] + rest) == extended + rest;
    }
  }

  /** The annotations found so far followed by those still to come. */
  function Prepend(done: seq<FieldAnnotation>, todo: Result<seq<FieldAnnotation>, AnnotationError>): Result<seq<FieldAnnotation>, AnnotationError> {
    match todo
    case Ok(rest) => Ok(done + rest)
    case Err(e) => Err(e)
  }

  // ---------------------------------------------------------------------------
  // Association lists
  // ---------------------------------------------------------------------------

  /** `alist`: a list read as alternating keys and values. */
  datatype AList = AList(list: List)

  datatype AListError = OddLength(length: nat, list: List)

  /** `parseSymbolAList`. */
  function ParseSymbolAList(l: List): (r: Result<AList, AListError>)
    ensures r.Ok? <==> |l.elems| % 2 == 0
    ensures r.Ok? ==> r.value.list == l
  {
    if |l.elems| % 2 != 0 then Err(OddLength(|l.elems|, l)) else Ok(AList(l))
  }

  /** `i` is the first even index below `|elems| - 1` whose key the predicate accepts. */
  predicate IsFirstKey(elems: seq<Expression>, keyPredicate: Expression -> bool, i: int) {
    && 0 <= i < |elems| - 1 && i % 2 == 0 && keyPredicate(elems[i])
    && forall j :: 0 <= j < i && j % 2 == 0 ==> !keyPredicate(elems[j])
  }

  /** `alist.lookup`: the value after the first even-indexed key the predicate
      accepts, or none. */
  method Lookup(al: AList, keyPredicate: Expression -> bool) returns (r: Option<Expression>)
    ensures r.Some? ==> exists i :: IsFirstKey(al.list.elems, keyPredicate, i) && r.value == al.list.elems[i + 1]
    ensures r.None? ==> forall i :: 0 <= i < |al.list.elems| - 1 && i % 2 == 0 ==> !keyPredicate(al.list.elems[i])
  {
    var elems := al.list.elems;
    var i := 0;
    while i < |elems| - 1
      invariant 0 <= i && i % 2 == 0
      invariant i <= |elems| || |elems| == 0
      invariant forall j :: 0 <= j < i && j < |elems| - 1 && j % 2 == 0 ==> !keyPredicate(elems[j])
      decreases |elems| - i
    {
      if keyPredicate(elems[i]) {
        assert IsFirstKey(elems, keyPredicate, i);
        return Some(elems[i + 1]);
      }
      i := i + 2;
    }
    return None;
  }

  predicate IsSymbolKey(key: Symbol, candidate: Expression) {
    candidate.value.SymbolValue? && candidate.value.symbol.Equals(key)
  }

  /** `i` is the first even index below `|elems| - 1` holding the symbol `key`. */
  predicate IsFirstSymbolKey(elems: seq<Expression>, key: Symbol, i: int) {
    && 0 <= i < |elems| - 1 && i % 2 == 0 && elems[i].value == SymbolValue(key)
    && forall j :: 0 <= j < i && j % 2 == 0 ==> elems[j].value != SymbolValue(key)
  }

  /** `alist.lookupSymbol`: the value after the first even-indexed key that is
      the given symbol, or none. */
  method LookupSymbol(al: AList, key: Symbol) returns (r: Option<Expression>)
    ensures r.Some? ==> exists i :: IsFirstSymbolKey(al.list.elems, key, i) && r.value == al.list.elems[i + 1]
    ensures r.None? ==> forall i :: 0 <= i < |al.list.elems| - 1 && i % 2 == 0 ==> al.list.elems[i].value != SymbolValue(key)
  {
    var isKey := candidate => IsSymbolKey(key, candidate);
    r := Lookup(al, isKey);
    if r.Some? {
      var i :| IsFirstKey(al.list.elems, isKey, i) && r.value == al.list.elems[i + 1];
      assert IsFirstSymbolKey(al.list.elems, key, i);
    }
  }
}
