# xtoproto expressions and formulas in Dafny

This project models the expression core of xtoproto. The model covers five parts:

- **`expression`**: the in-memory Lisp-style expression. An expression is a parsed value paired with its `Expression` protocol message. The value is a number of some kind, a string, bytes, a symbol or a list.
  - Building an expression from a Go value, or from a protocol message.
  - Reading an expression from a parsed s-expression form.
  - Printing an expression as text.
  - Symbols, which have a namespace and a name, and the textual syntax of symbols.
- **`expressions`**: the reflective binder. It stores an expression into a Go destination: an `*Expression`, a scalar, a pointer, a slice, or a struct whose `sexpr` field tags name list positions or an `&rest` tail. It also covers symbol-keyed association lists.
- **`formula`**: the evaluator. A literal evaluates to itself. A call `(op args…)` resolves its operator symbol in a lexical environment of function definitions. The one builtin, `+`, sums integers and promotes the sum to `float64` once an argument is a float.
- **`formula_ast_types`**: the compiled syntax tree and its projection onto the `AST.Expression` IR message.
- **`formula_ast`**: the compiler from expressions to that tree. Constants, variable references, function calls and the `if` special form are supported.

Each part maps to Dafny as follows:

- Go values and reflection become datatypes. `Value` holds the parsed value kinds. `Shape` is a destination's Go type and `Datum` is its contents.
- Go's pure dispatch becomes functions.
- Go loops become methods. Each is proved equal to a specification function, and the properties are proved as lemmas about that function.
- The binder's destination, updated in place, becomes the class `Expressions.Slot`.
- The formula lexical environment becomes the class `Formula.LexEnv`.
- The binder registry becomes the class `Expressions.BinderRegistry`.
- The compiler takes an else rule, `ElseRule`, applied at every nesting level. `Compile` is the Go code as written, which compiles an `if`'s else branch from its then form. `CompileIntended` compiles it from the else form, as the tests expect (see "## Findings").

Files:

| file | module | models |
|---|---|---|
| `wrappers.dfy` | `Wrappers` | `Option`, `Result`, and collecting a sequence of results |
| `expression.dfy` | `Expression` | `expression/expression.go` |
| `expression_lemmas.dfy` | `ExpressionLemmas` | symbol syntax, the wire round trips, reading and printing |
| `expressions.dfy` | `Expressions` | `expression/expressions/expressions.go` |
| `expressions_lemmas.dfy` | `ExpressionsLemmas` | the binder's rule order, the struct length bounds, the tests' cases |
| `formula.dfy` | `Formula` | `expression/formula/formula.go`, `formula_builtins.go` |
| `formula_lemmas.dfy` | `FormulaLemmas` | `+` against independent sums, resolution, evaluation examples |
| `formula_ast_types.dfy` | `FormulaAst` | `expression/formula/formula_ast_types.go` |
| `formula_ast.dfy` | `FormulaCompile` | `expression/formula/formula_ast.go` |
| `formula_ast_lemmas.dfy` | `FormulaAstLemmas` | the IR round trip, the compiler's cases, the tests' cases |

## Model

| member | source | states |
|---|---|---|
| Expression.Symbol.Equals | expression/expression.go:196-198 | two symbols are equal exactly when their names and namespaces are |
| Expression.Symbol.ExpressionString | expression/expression.go:200-208 | a symbol prints as its bare name exactly when it has no namespace; the text always ends with the name, with a `:` before it when there is a namespace, and starts with the namespace unless it is the keyword namespace |
| Expression.Expression.AsSymbol | expression/expression.go:57-62 | reading a value as a symbol succeeds exactly for symbol values, and returns that symbol |
| Expression.ElementResults | expression/expression.go:108-117 | one parse result per list element, in order |
| Expression.ParseListElements | expression/expression.go:108-117 | a list message parses when every element does: the elements in order; otherwise there is an error exactly when some element fails |
| Expression.ListProto | expression/expression.go:265-273 | a list's message holds each element's message, in order |
| Expression.List.Proto | expression/expression.go:265-273 | one wire message per element, the `i`th being element `i`'s message |
| Expression.List.Len | expression/expression.go:244 | the number of elements |
| Expression.List.Nth | expression/expression.go:247 | the element at offset `n`, for an offset inside the list (Go panics outside it) |
| Expression.List.Slice | expression/expression.go:250 | the elements themselves, in order |
| ExpressionLemmas.ListAccessors | expression/expression.go:244-273 | `Slice` has `Len` elements, the `i`th of which is `Nth(i)`, and the wire list has one message per element, the `i`th being `Nth(i)`'s |
| Expression.Symbol.Proto | expression/expression.go:210-212 | the wire symbol with the same name and namespace |
| ExpressionLemmas.SymbolProtoRoundTrip | expression/expression.go:210-212 | a symbol's wire form reads back as that very symbol |
| Expression.FromInt | expression/expression.go:275-280 | an `int` becomes an int value with an `int64` wire field, and the two agree |
| Expression.FromFloat64 | expression/expression.go:282-287 | a `float64` becomes a float64 value with a `double` field, and the two agree |
| Expression.FromFloat32 | expression/expression.go:289-294 | a `float32` is stored as a float64 value beside a `float` field, so the value does not agree with what its message parses back to (a `float32`) |
| Expression.FromString | expression/expression.go:296-301 | a string becomes a string value with a `string` field, and the two agree |
| Expression.FromList | expression/expression.go:303-310 | a list becomes a list value |
| Expression.FirstColon | expression/expression.go:214-222 | the index of the first `:` in a literal, or its length when there is none |
| Expression.SubformResults | expression/expression.go:168-180 | one read result per subform, in order |
| Expression.ParseListForm | expression/expression.go:168-180 | the loop reading a list form computes the same result as `ParseForm` |
| Expression.ChildStrings | expression/expression.go:256-263 | one printed string per element, in order |
| Expression.ListExpressionString | expression/expression.go:256-263 | a list prints as `(`, its elements' strings joined by single spaces, and `)` |
| Expression.NatString | expression/expression.go:46-55 | `%v` of a natural number is a non-empty string of decimal digits with no leading zero |
| Expression.IntString | expression/expression.go:46-55 | `%v` of an integer starts with `-` exactly when it is negative, and is digits after that |
| Expression.ExpressionString | expression/expression.go:46-55 | a list prints in parentheses, a symbol prints its own canonical text, and a Go `int`, `int64` or `uint64` prints with a leading `-` exactly when it is negative |
| Expression.ListString | expression/expression.go:256-263 | a list prints as `(`, its elements' texts joined by single spaces, and `)` |
| ExpressionLemmas.FirstColonAfter | expression/expression.go:215-233 | prefixing a colon-free string shifts the first colon by its length |
| ExpressionLemmas.ParseSymbolUnqualified | expression/expression.go:217-233 | a literal without `:` is a symbol in the empty namespace; with one it never reads as unqualified |
| ExpressionLemmas.ParseSymbolKeyword | expression/expression.go:217-233 | `:name` is a keyword symbol; `::name` is an error |
| ExpressionLemmas.ParseSymbolQualified | expression/expression.go:217-233 | `ns:name` and `ns::name` both read as `name` in namespace `ns` |
| ExpressionLemmas.ParseSymbolSingleColon | expression/expression.go:217-233 | `ns:name` reads as `name` in namespace `ns` when the name does not start with a colon |
| ExpressionLemmas.ParseSymbolDoubleColon | expression/expression.go:217-233 | `ns::name` reads as `name` in namespace `ns`: the second colon is dropped |
| ExpressionLemmas.ParseSymbolResult | expression/expression.go:215-233 | whatever `parseSymbol` reads has a colon-free namespace and a name that is a suffix of the literal, and a namespaced name holds no newline; its only errors are the unmatched pattern, which needs a newline, and a leading `::` |
| ExpressionLemmas.ParseSymbolExamples | expression/expression.go:215-233 | the literals `abc`, `:hello`, `a:b`, `a::b`, `a:b:c`, `::x` and `:::x` read as the regular expression directs |
| ExpressionLemmas.ExampleKeyword | expression/expression.go:217-233 | `:hello` is the keyword `hello` |
| ExpressionLemmas.ExampleQualified | expression/expression.go:217-233 | `a:b` and `a::b` read alike; `a:b:c` keeps `b:c` as the name |
| ExpressionLemmas.ExampleDoubleColon | expression/expression.go:217-233 | a literal that starts with `::` is rejected |
| ExpressionLemmas.SymbolRoundTrip | expression/expression.go:200-233 | a symbol's printed form reads back to the same symbol exactly when it is printable (no colon in the namespace, no leading colon or newline in the name, and so on) |
| ExpressionLemmas.ColonNamespaceNotRead | expression/expression.go:200-233 | a symbol whose namespace holds a colon never reads back from its printed form, because the first colon falls inside the namespace |
| ExpressionLemmas.QualifiedSymbolRoundTrip | expression/expression.go:200-233 | a namespaced symbol with no colon in its namespace reads back exactly when its name neither starts with a colon nor holds a newline |
| ExpressionLemmas.ParseValueCases | expression/expression.go:68-121 | only an unset message is unsupported; every scalar variant converts; exactly `int64` and `sint64` read as Go `int`; a list message reads as a list of one expression per element, each parsed from and keeping its element's message |
| ExpressionLemmas.FromProtoAgrees | expression/expression.go:123-129 | `FromProto`: whatever parses from a message keeps that message and agrees with it |
| ExpressionLemmas.IntRoundTrip | expression/expression.go:68-129 | an `int` expression's message parses back to it; `int64` and `sint64` fields both read as ints |
| ExpressionLemmas.ParseElementsFirstFailure | expression/expression.go:108-117 | a list message fails with the index and error of its first bad element |
| ExpressionLemmas.FromListAgrees | expression/expression.go:303-310 | a list agrees with its message exactly when each element does |
| ExpressionLemmas.ParseFormAgrees | expression/expression.go:140-182 | `parseForm`: every expression read from a form agrees with its message, which has no source context; an unknown form or number kind is an error |
| ExpressionLemmas.ParseNumber | expression/expression.go:147-158 | integer and float literals read as `FromInt` and `FromFloat64`; other numbers are an error |
| ExpressionLemmas.ParseListFormChildren | expression/expression.go:168-180 | a list form reads exactly when all its subforms read, as the list of them; otherwise the first failing subform's error is reported |
| ExpressionLemmas.ParseListFormOk | expression/expression.go:168-180 | subforms that read as `es` give the list of `es` |
| ExpressionLemmas.EmptyListPrints | expression/expression.go:256-263 | the empty list prints as `()` |
| ExpressionLemmas.ListPrintExample | expression/expression.go:256-263 | a two-element list prints with one space between the elements |
| ExpressionLemmas.ExampleSymbolParses | expression/expression.go:160-166 | the form `a::b` reads as the symbol `b` in namespace `a` |
| ExpressionLemmas.ExampleListParses | expression/expression.go:160-180 | a list form of numbers and a symbol reads element by element |
| ExpressionLemmas.ExampleListPrints | expression/expression.go:200-263 | `(1 2 a::b)` prints as `(1 2 a:b)` |
| Expressions.ZeroScalar | expression/expressions/expressions.go:27-74 | the zero value of a scalar kind has that kind |
| Expressions.Zero | expression/expressions/expressions.go:27-74 | the zero datum of a shape conforms to it |
| Expressions.AsResult | expression/expressions/expressions.go:27-74 | a binding succeeds exactly when it records no error, and then yields its datum |
| Expressions.CustomBinderFor | expression/expressions/expressions.go:307-317 | the default registry has a binder for `*Expression` destinations and no other |
| Expressions.StoreExpression | expression/expressions/expressions.go:307-317 | the registered binder stores the expression itself; a nil destination is an error |
| Expressions.BinderRegistry.Default | expression/expressions/expressions.go:286-317 | the default registry maps `*Expression` to the expression binder, and its lookups agree with `CustomBinderFor` |
| Expressions.BinderRegistry.RegisterBinder | expression/expressions/expressions.go:294-296 | registering adds or replaces exactly one entry |
| Expressions.BinderRegistry.Get | expression/expressions/expressions.go:298-304 | the binder registered for a destination type exactly when one is, and that binder |
| Expressions.ParseFieldAnnotation | expression/expressions/expressions.go:207-251 | an untagged field takes its declaration index; a rest field sits at its declaration index and comes only when no rest field did before |
| Expressions.MinLengthOf | expression/expressions/expressions.go:128-136 | the least list length is the largest index any field requires, or 0 |
| Expressions.Annotations | expression/expressions/expressions.go:119-127 | one annotation per field still to visit |
| Expressions.CompileStruct | expression/expressions/expressions.go:113-192 | a compiled struct binder holds one annotation per field |
| Expressions.PackageStructFields | expression/expression.go:184-187 | the `Symbol` struct has the two untagged fields `name` and `namespace`; the `List` struct (line 238) has the one field `elems` |
| Expressions.FreshPackageStruct | expression/expressions/expressions.go:59-72 | `reflect.New` of such a struct is a non-nil empty symbol or empty list of the destination's type |
| Expressions.PackageStructError | expression/expressions/expressions.go:138-180 | such a struct's binder rejects a non-list, a list shorter or longer than its field count with the lengths, and panics on the unexported first field when the length fits |
| Expressions.Binding | expression/expressions/expressions.go:27-74 | binding leaves the destination conforming to its shape; the order of the rules is stated by the `ExpressionsLemmas` rows that cite these lines |
| Expressions.StructParse | expression/expressions/expressions.go:171-190 | a non-list is rejected; a list shorter than the least length or longer than the greatest is rejected, with the lengths in the error; the datum still conforms |
| Expressions.FieldsBinding | expression/expressions/expressions.go:185-190 | one datum per field; fields already bound keep their values; each conforms to its field |
| Expressions.FieldBinding | expression/expressions/expressions.go:138-164 | binding one field leaves it conforming to the field's shape |
| Expressions.SliceBinding | expression/expressions/expressions.go:90-104 | a failed slice binding leaves the destination unchanged; a successful one came from a list and has one item per element |
| Expressions.ElementBindings | expression/expressions/expressions.go:90-104 | element `i` is bound from `Nth(i)` into a fresh zero value, and each successful result conforms |
| Expressions.Slot.constructor | expression/expressions/expressions.go:27-74 | a slot holds a shape and a datum that conforms to it |
| Expressions.Slot.Bind | expression/expressions/expressions.go:27-74 | `Bind` updates the destination in place to exactly what `Binding` computes, and returns its error |
| Expressions.Slot.ParseStruct | expression/expressions/expressions.go:171-190 | the struct binder's loop updates the destination to `StructParse`'s result |
| Expressions.Slot.BindField | expression/expressions/expressions.go:138-164 | each field's sub-binder updates the field to `FieldBinding`'s result |
| Expressions.Slot.BindSlice | expression/expressions/expressions.go:90-104 | the slice binder's loop updates the destination to `SliceBinding`'s result |
| Expressions.CompileBinderForStruct | expression/expressions/expressions.go:113-192 | the loop over the fields computes `CompileStruct` |
| Expressions.PrependNothing | expression/expressions/expressions.go:119-127 | prepending no annotations changes nothing |
| Expressions.AnnotationStep | expression/expressions/expressions.go:119-127 | one iteration of the field loop extends the annotations by that field's |
| Expressions.ParseSymbolAList | expression/expressions/expressions.go:253-263 | an association list needs an even number of elements and keeps the list |
| Expressions.Lookup | expression/expressions/expressions.go:272-279 | the value after the first key the predicate accepts, or none when it accepts no key |
| Expressions.LookupSymbol | expression/expressions/expressions.go:265-270 | the value after the first key equal to the symbol, or none when no key is |
| ExpressionsLemmas.CustomBinderFirst | expression/expressions/expressions.go:27-40 | an `*Expression` destination receives the expression through the registered binder; an `interface{}` destination receives the value |
| ExpressionsLemmas.AssignableValueStored | expression/expressions/expressions.go:41-51 | a value assignable to the destination is stored; one assignable to a pointer's target is stored behind a new pointer |
| ExpressionsLemmas.UnboundShape | expression/expressions/expressions.go:73 | a value that fits no rule is an error and leaves the destination unchanged |
| ExpressionsLemmas.PackagePointerBinding | expression/expressions/expressions.go:59-72 | a `*Symbol` or `*List` destination given a value of another type is set to a fresh empty symbol or list and fails: not a list, too short or too long against 2 fields for a symbol, a panic for a two-element list; a `*List` always fails as not a list |
| ExpressionsLemmas.PackageStructBinder | expression/expressions/expressions.go:113-180 | that error is what the compiled struct binder of `Symbol` or `List` gives: its length bounds are both the field count, and off that length its error is `PackageStructError`'s |
| ExpressionsLemmas.StructBinderBounds | expression/expressions/expressions.go:128-169 | the least length is the largest need of any field; the greatest is the same unless a rest field lifts it to `math.MaxInt64` |
| ExpressionsLemmas.LengthCheckCoversFields | expression/expressions/expressions.go:171-190 | a list that passes the length check has an element for every plain field's index |
| ExpressionsLemmas.BindingNeverOutOfBounds | expression/expressions/expressions.go:149-151 | no binding ever reaches the field binder's "index out of bounds" error |
| ExpressionsLemmas.StructParseNeverOutOfBounds | expression/expressions/expressions.go:166-190 | after the length checks, no field reads past the list's end |
| ExpressionsLemmas.FieldsNeverOutOfBounds | expression/expressions/expressions.go:185-190 | the field loop reads no index past the list when every plain index is in range |
| ExpressionsLemmas.PlainFieldBinding | expression/expressions/expressions.go:149-156 | a plain field the list covers is bound from `Nth(index)`; it fails exactly when that binding does, with the error wrapped in the field's name and index |
| ExpressionsLemmas.RestFieldIsSlice | expression/expressions/expressions.go:145-148 | a rest field of slice type within the list is bound by the slice binder from `list[index:]`, with its error unwrapped |
| ExpressionsLemmas.SliceOfTail | expression/expressions/expressions.go:90-104 | the slice binder on `list[k:]` binds exactly when every element from `k` on binds, and then holds one item per such element, item `j - k` being element `j`'s binding |
| ExpressionsLemmas.FieldsBindInOrder | expression/expressions/expressions.go:185-190 | fields are bound in order from their old contents: with no error each holds its sub-binder's result; otherwise the first failing field gives the error, holds what its sub-binder left, the fields before it hold their results and the fields after it are untouched |
| ExpressionsLemmas.AnnotationRules | expression/expressions/expressions.go:207-251 | an integer tag sets the index; `&rest` marks a rest field once and is then an error; a tag that does not parse is an error |
| ExpressionsLemmas.TwoRestFieldsRejected | expression/expressions/expressions.go:119-127 | a struct with two `&rest` fields does not compile, and the error names the second |
| ExpressionsLemmas.SliceBindsEachElement | expression/expressions/expressions.go:90-104 | a slice binds exactly when the value is a list whose every element binds, and item `i` is element `i`'s binding |
| ExpressionsLemmas.BindPackagePointerExamples | expression/expressions/expressions.go:59-72 | `1` into a `*Symbol` leaves an empty symbol and fails as not a list; `(1 2)` panics; `1` into a `*List` leaves an empty list |
| ExpressionsLemmas.BindStringExample | expression/expressions/expressions_test.go:1-121 | `"a"` binds into a string |
| ExpressionsLemmas.BindIntExample | expression/expressions/expressions_test.go:1-121 | `123` binds into an int and into a `*int` |
| ExpressionsLemmas.PairBinder | expression/expressions/expressions.go:113-192 | a two-string struct compiles to indices 0 and 1 with both lengths 2 |
| ExpressionsLemmas.PairBinding | expression/expressions/expressions.go:59-72 | binding into that struct runs its struct binder |
| ExpressionsLemmas.BindPairExample | expression/expressions/expressions_test.go:1-121 | `("abc" "123")` fills both fields |
| ExpressionsLemmas.BindPairMismatch | expression/expressions/expressions_test.go:1-121 | `("abc" 123)` fails at field `B` with `A` already written |
| ExpressionsLemmas.MismatchFields | expression/expressions/expressions.go:185-190 | the field loop on `("abc" 123)` stops at field 1 |
| ExpressionsLemmas.MismatchFieldA | expression/expressions/expressions.go:138-164 | field `A` takes `"abc"` |
| ExpressionsLemmas.MismatchFieldB | expression/expressions/expressions.go:138-164 | field `B` rejects `123` |
| Formula.NormalizeSym | expression/formula/formula.go:116-121 | an unqualified symbol moves to the `formula` namespace; a qualified one is kept; the name never changes |
| Formula.FindFnDef | expression/formula/formula.go:98-106 | the first definition whose name equals the normalised symbol, or none exactly when no definition has that name |
| Formula.PlusStep | expression/formula/formula_builtins.go:19-45 | one argument is accepted exactly when it is an integer or a float of the accepted kinds; a float adds to the float sum and sets the float flag, an integer adds to the integer sum; anything else is an error naming it |
| Formula.PlusFold | expression/formula/formula_builtins.go:16-46 | a failed loop names an argument that is not accepted; the float flag is set only when some argument is a float |
| Formula.Plus | expression/formula/formula_builtins.go:16-50 | `+` yields an `int` or a `float64`, a `float64` only when some argument is a float, and its error names an argument it does not accept |
| Formula.Apply | expression/formula/formula.go:60-64 | calling the builtin `+` runs `Plus` on the arguments: the result is an `int` or a `float64`, and an error names an argument that is not an accepted operand |
| Formula.LexEnv.constructor | expression/formula/formula.go:21-29 | an environment holds the given definitions |
| Formula.LexEnv.Copy | expression/formula/formula.go:92-96 | a copy is a new environment with the same definitions |
| Formula.LexEnv.AddFnDef | expression/formula/formula.go:92-96 | not a Go method: the `append` to an environment's definitions that `copy` makes possible; it adds the definition at the end and changes nothing else |
| Formula.LexEnv.ResolveFnDef | expression/formula/formula.go:98-106 | the resolution loop returns `FindFnDef`'s answer |
| Formula.CopyThenDefine | expression/formula/formula.go:92-96 | defining in a copy leaves the original environment's definitions unchanged |
| Formula.PlusImpl | expression/formula/formula_builtins.go:15-51 | the `+` loop computes `Plus` |
| Formula.FoldErrorPersists | expression/formula/formula_builtins.go:19-46 | once `+` meets a bad argument, later arguments do not change the error |
| Formula.ValuesOf | expression/formula/formula.go:108-114 | the list's values, one per element, in order |
| Formula.ListValues | expression/formula/formula.go:108-114 | the loop computes `ValuesOf` |
| Formula.Eval | expression/formula/formula.go:43-67 | literals evaluate to themselves; a non-list non-literal is unsupported; the empty list and a non-symbol operator are errors; `+` in either namespace applies to the remaining values; any other operator does not resolve |
| Formula.EvalExpression | expression/formula/formula.go:43-67 | the evaluator computes `Eval` |
| FormulaLemmas.SumsAppend | expression/formula/formula_builtins.go:19-46 | the reference sums grow by one argument at the end |
| FormulaLemmas.PlusFoldSums | expression/formula/formula_builtins.go:16-46 | on accepted arguments the loop ends with the integer sum, the float sum and whether any argument was a float |
| FormulaLemmas.PlusSums | expression/formula/formula_builtins.go:16-50 | all integers give the integer sum as an `int`; any float gives `float64(integer sum) + float sum` |
| FormulaLemmas.PlusRejects | expression/formula/formula_builtins.go:43-44 | `+` fails exactly when some argument is not a number it accepts, and names the first one |
| FormulaLemmas.FirstNonOperand | expression/formula/formula_builtins.go:19-46 | a rejected argument implies a first rejected argument |
| FormulaLemmas.PlusResolution | expression/formula/formula_builtins.go:7-14 | the builtin `+` resolves from namespace `""` or `formula` and from no other |
| FormulaLemmas.EvalExamples | expression/formula/formula_test.go:1-58 | `1` and `"the string"` evaluate to themselves; `(+ 1 1)` evaluates to the int 2 |
| FormulaLemmas.EvalPlusCall | expression/formula/formula.go:43-67 | a call of `+` on numbers evaluates to their sum |
| FormulaAst.AstProjection | expression/formula/formula_ast_types.go:26-30 | every node's message carries that node's source context |
| FormulaAst.FuncallProto | expression/formula/formula_ast_types.go:56-76 | the loop collecting the argument messages computes the call's projection |
| FormulaAst.ExprFromAst | expression/formula/formula_ast_types.go:26-30 | no Go counterpart: reads a tree back from an IR message, keeping each node's source context and parsing each constant with `FromProto` from the message's constant |
| FormulaAstLemmas.AstRoundTrip | expression/formula/formula_ast_types.go:26-121 | reading a describable tree's message gives back the same tree |
| FormulaAstLemmas.MessageRoundTrip | expression/formula/formula_ast_types.go:26-121 | every tree read from an IR message projects back to that very message |
| FormulaAstLemmas.PlaceholdersProjectAlike | expression/formula/formula_ast_types.go:78-139 | function, while-loop and let nodes project like a void node |
| FormulaAstLemmas.ProjectionContents | expression/formula/formula_ast_types.go:32-139 | each node kind's message holds its constant, its callee and arguments in order, its symbol, or its branches (else present exactly when the node has one) |
| FormulaCompile.Resolve | expression/formula/formula_ast.go:96-98 | the first binding whose name equals the normalised symbol, or none exactly when no binding has that name |
| FormulaCompile.DefaultBindings | expression/formula/formula_ast.go:44-47 | the compiler's environment is the builtin functions, in order, each as a function, and then `if` as a special form |
| FormulaAstLemmas.DefaultResolution | expression/formula/formula_ast.go:96-107 | in the compiler's environment `+` is a function, `if` is a special form, and no other symbol resolves |
| FormulaCompile.CompileConst | expression/formula/formula_ast.go:136-172 | numbers, strings and floats compile and bytes and `uint8` do not, with the form's source context; every integer kind compiles to the constant `FromInt(v)` (an `int` with an `int64` wire field), a string to `FromString(v)`, a `float64` to `FromFloat64(v)` and a `float32` to `FromFloat32(v)` (widened to `float64` beside a `float` wire field, so the two disagree) |
| FormulaCompile.IfStructBinder | expression/formula/formula_ast.go:174-183 | the `if` form's struct compiles to `Op` at 0, `Test` at 1, and a rest field at 2, with lengths 2 and `math.MaxInt64` |
| FormulaCompile.ExpressionSliceBinding | expression/formula/formula_ast.go:174-183 | a list binds into `[]*Expression` as its elements |
| FormulaCompile.OpError | expression/expressions/expressions.go:138-180 | a head that is not a symbol fails the `Symbol` struct binder: not a list, shorter or longer than 2 with the lengths, or a panic on `name` for two elements |
| FormulaCompile.OpFieldBinding | expression/formula/formula_ast.go:174-183 | `Op` takes the head when it is a symbol; otherwise it is left holding a fresh empty symbol and the error is `OpError` of the head, wrapped with `Op` and index 0 |
| FormulaCompile.TestFieldBinding | expression/formula/formula_ast.go:174-183 | `Test` takes element 1 |
| FormulaCompile.RestFieldBinding | expression/formula/formula_ast.go:174-183 | `Rest` takes the elements from 2 on |
| FormulaCompile.IfFieldsBinding | expression/formula/formula_ast.go:174-183 | the field loop on an `if` form with a symbol head fills all three fields; otherwise it stops at `Op`, which holds a fresh empty symbol, with `OpError` of the head |
| FormulaCompile.IfFieldsFromTest | expression/formula/formula_ast.go:174-183 | the field loop continues from `Test` |
| FormulaCompile.IfFieldsFromRest | expression/formula/formula_ast.go:174-183 | the field loop ends with `Rest` |
| FormulaCompile.IfFormBinding | expression/formula/formula_ast.go:174-183 | an `if` form binds exactly when it is a list of at least two elements with a symbol head, and the bound fields are the head, element 1 and the rest; a non-list and a short list fail the length checks; a non-symbol head fails with `OpError` of the head and leaves `Op` holding an empty symbol |
| FormulaCompile.CompileIn | expression/formula/formula_ast.go:55-111 | a compiled node carries the form's source context; every nested `if` is compiled under the same else rule, `AsWritten` for the Go code |
| FormulaCompile.ArgResults | expression/formula/formula_ast.go:113-121 | argument `i` compiles from element `i + 1` |
| FormulaCompile.CompileFuncall | expression/formula/formula_ast.go:113-127 | a compiled call is a call node with the form's context and the given callee |
| FormulaCompile.CompileFuncallLoop | expression/formula/formula_ast.go:113-127 | the loop over the arguments computes `CompileFuncall` |
| FormulaCompile.IfParse | expression/formula/formula_ast.go:174-183 | parsing the `if` struct succeeds exactly when the struct binder accepts the form, and gives the operator, the test and the rest |
| FormulaCompile.ReadIfDatum | expression/formula/formula_ast.go:174-183 | the bound struct reads as the operator, the test and the rest |
| FormulaCompile.CompileIfElse | expression/formula/formula_ast.go:174-213 | a compiled `if` is an if/else node with the form's context; its else branch comes from `Rest[0]` under `AsWritten`, as the code does, or `Rest[1]` under `Intended` |
| FormulaCompile.Compile | expression/formula/formula_ast.go:44-53 | compiling succeeds exactly when compiling as written in the default environment does, and wraps its tree |
| FormulaCompile.CompileIntended | expression/formula/formula_ast.go:44-53 | the corrected compiler: as `Compile`, with every `if` reading its else from `Rest[1]`, as expression/formula/formula_ast_test.go:96-113 expects |
| FormulaCompile.CompiledAst | expression/formula/formula_ast.go:40-42 | the IR message of the compiled tree, carrying the root's source context |
| FormulaAstLemmas.CompiledRoundTrip | expression/formula/formula_ast.go:40-53 | for an input without `float32` values, what `Compile` returns reads back from its `astProto` message, and so does what `CompileIntended` returns |
| FormulaCompile.CommonExpr | expression/formula/formula_ast.go:24-30 | a node's source context is the form's own |
| FormulaAstLemmas.CompileDispatch | expression/formula/formula_ast.go:55-111 | a symbol compiles to a variable reference; bool and uint8 values are unsupported forms; bytes are an unsupported constant; the empty list, a non-symbol head and an unbound operator are errors; a special form compiles the whole form as an `if` under the same else rule; a function compiles a call; for either rule |
| FormulaAstLemmas.FuncallArguments | expression/formula/formula_ast.go:113-127 | a call compiles exactly when every argument does, to the arguments in order; otherwise it fails with the first failing index and its error |
| FormulaAstLemmas.IfElseArity | expression/formula/formula_ast.go:183-188 | under either else rule, `(if test)` lacks a THEN form and more than a THEN and an ELSE form is an error |
| FormulaAstLemmas.IfElseBranches | expression/formula/formula_ast.go:190-212 | the intended `if` compiles the test and then branches, and the else branch from the fourth element when it is present |
| FormulaAstLemmas.IfElseAsWrittenRepeatsThen | expression/formula/formula_ast.go:198-205 | the code as written compiles the THEN form again as the else branch |
| FormulaAstLemmas.CompiledDescribable | expression/formula/formula_ast.go:55-111 | a tree compiled from a form without `float32` values reads back from its IR message |
| FormulaAstLemmas.FuncallDescribable | expression/formula/formula_ast.go:113-127 | the same for a compiled call |
| FormulaAstLemmas.IfElseDescribable | expression/formula/formula_ast.go:174-213 | the same for a compiled `if`, under either else rule |
| FormulaAstLemmas.CompileIntExample | expression/formula/formula_ast_test.go:1-138 | `1` compiles to a constant whose message is `int64: 1` |
| FormulaAstLemmas.CompileFuncallExample | expression/formula/formula_ast_test.go:1-138 | `(+ 1 2)` compiles to a call of `+` on the constants 1 and 2 |
| FormulaAstLemmas.CompileIfElseExample | expression/formula/formula_ast_test.go:96-113 | the intended compiler gives `(if true 1 0)` else branch 0, the IR the test expects |
| FormulaAstLemmas.AsWrittenIfElseExample | expression/formula/formula_ast.go:198-205 | `Compile` as written gives `(if true 1 0)` else branch 1 |
| FormulaAstLemmas.AsWrittenNestedIfExample | expression/formula/formula_ast.go:198-205 | `Compile` as written gives `(if true (if a 1 2) 3)` an inner `if` with both branches 1, repeated as the outer else |
| FormulaAstLemmas.CompileListErrorExamples | expression/formula/formula_ast.go:88-107 | `()`, `(1 2)` and `(foo 1)` fail with the empty-list, non-symbol and unsupported-operator errors |
| FormulaAstLemmas.CompileIfTooShortExample | expression/formula/formula_ast.go:174-183 | `(if)` fails in the struct binder with "too short: 1 < 2" |
| FormulaAstLemmas.CompileIfMissingThenExample | expression/formula/formula_ast.go:183-185 | `(if true)` fails as missing its then form |
| FormulaAstLemmas.CompileIfTooManyFormsExample | expression/formula/formula_ast.go:186-188 | `(if true 1 2 3)` fails as having too many forms |

## Left out

- Reading text: the tokenizer behind `MustParse` and s-expression parsing are not part of this model. Reading starts from the parsed `Form` datatype.
- `String`, `prototext` formatting and the `%v`/`%q` renderings: they are library formatting. `Format` is a parameter of the printing functions.
- Error wording: errors are constructors that keep the data a message would print, not the text. The `errorf` wrappers of both contexts are the identity.
- Reflection: a destination's Go type is the `Shape` datatype. Bindings that need named types other than identical or `interface{}` assignability, or nested `FieldByIndex`, are not modelled. Unexported struct fields are modelled only for the package's own `Symbol` and `List` structs, which a `*Symbol` or `*List` destination falls back on.
- Panics: Go runtime panics become error values. `IndexPanic` stands for a negative list index or slice bound. `UnexportedFieldPanic` stands for `reflect` refusing the address of an unexported field (expressions.go:144). The model does not tell them apart from returned errors. `List.Nth` is the exception: its `requires n < |elems|` stands for the index panic (expression.go:247), so every caller must prove the offset in range.
- Binder destinations: a non-pointer or nil destination is not modelled, apart from the nil `**Expression` case, because the datum always exists.
- compileBinderForPointerToType: its default branch (expressions.go:105-110) cannot be reached from `Bind` and is not modelled. Neither is the field sub-binder's own non-list check (expressions.go:141-143), which the struct binder's non-list check (expressions.go:174-176) always runs before.
- ParseForm: `constant.Int64Val` (expression.go:154) truncates an integer constant beyond the `int64` range, and its `ok` result is ignored. The model keeps the integer exact, as `ParseNumber` states with `FromInt(i)`.
- Wire integer fields: `PInt32`, `PUint32`, `PSfixed32`, `PFixed64` and the other integer variants hold any `int`. Their protobuf widths are not enforced, so out-of-range values that the wire format cannot carry are representable.
- Floating point: floats are exact `real`s, so rounding in `+` and the `float32`/`float64` conversions is not modelled.
- Plus: the Go `int` sum does not wrap at 64 bits in this model, because integers are unbounded. `uint64` arguments above `math.MaxInt64` do not turn negative.
- CompileConst: the `int(uint64)` conversion does not wrap in this model, for the same reason.
- StructBinderBounds: the least length `index + 1` cannot overflow in this model.
- Compiler environment: the Go definitions of the compiler's `lexEnv.resolve` and `specialFormDef` are not among the files modelled. `Resolve` and `DefaultBindings` model them as `formula_ast.go` uses them, and assume first-match resolution: the first binding that matches the normalised symbol, with the builtin functions first and then `if`.
- Compile: assumes that the default context's environment is the builtin functions plus `if`.
- Source context: a nil context in `commonExpr` is not modelled. The context is always the form's own.
- Formula.LexEnv.Copy: the `fnDef` pointers are immutable values in this model, so a copy does not share them with the original.
- `symKey`, `EvalContext.String` and `TestReflectAssumptions` are not modelled: they are not used by the modelled operations, or they only check Go reflection.
- Release tooling and test-data generators (`releasing/`, `testdata/`) are outside the modelled core.

## Findings

| source | as written | input that shows it | evidently intended | confidence | as-written member | corrected member |
|---|---|---|---|---|---|---|
| expression/formula/formula_ast.go:199-205 | the else branch compiles `parsed.Rest[0]`, which is the THEN form | `Compile` gives `(if true 1 0)` else branch `1` (FormulaAstLemmas.AsWrittenIfElseExample; FormulaAstLemmas.AsWrittenNestedIfExample for a nested `if`; FormulaAstLemmas.IfElseAsWrittenRepeatsThen for every four-element form) | compile `parsed.Rest[1]`, the ELSE form, which is what the test at expression/formula/formula_ast_test.go:96-113 expects (`else_expression` is 0; FormulaAstLemmas.CompileIfElseExample, FormulaAstLemmas.IfElseBranches, FormulaAstLemmas.CompiledRoundTrip) | not executed | FormulaCompile.Compile | FormulaCompile.CompileIntended |
