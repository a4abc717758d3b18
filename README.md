# gostub core, modelled in Dafny

gostub reads a Go source file, picks out its interface declarations and
plans the stub files that implement them. This project models the core of
that pipeline:

- `Sets` is the ordered, de-duplicating `ds.Set` (internal/ds/set.go). It is a
  class whose fields are the membership map and the insertion-ordered list.
- `StdTypes` holds the built-in and numeric type-name tables
  (internal/golang/type_std.go).
- `Imports` is the `GoImport` record and its `String()` rendering
  (internal/golang/import.go).
- `ParamTypes` is the type-expression interpreter `parse` and the placeholder
  synthesiser `calcStubInstantiateExpr` (internal/golang/param.go).
- `Methods` is `ParseMethodFromField`, with its parameter loop, result loop
  and import gathering (internal/golang/method.go).
- `Interfaces` is `ParseInterfacesFromSource`: the allow-list filter, the
  short-name import map and the walk over type declarations
  (internal/golang/interface.go).
- `Types` is the stub `Type` and its `Clone` (internal/golang/type.go).
- `Collector` is `Collect` and its helpers, which turn interfaces and the two
  layout flags into an ordered list of `Stub` file plans
  (internal/stub/collector.go, internal/stub/stub.go).
- `Wrappers`, `Packages` and `Ast` are shared supporting modules.
  `Packages` is the module package as a value with equality. `Ast` is the
  subset of `go/ast` nodes the core inspects.

The loops of the source are `method`s. Each is proved equal to a
specification function over its inputs. What the source promises is then
proved about those functions as lemmas:

- sequence-wide results use two generic combinators, `Methods.FirstFailure`
  (the first error stops a loop) and `Interfaces.Gather` (the walk keeps
  going and remembers the last error);
- the lemmas about those two combinators give the meaning of each loop.

## Model

| member | source | states |
|---|---|---|
| Sets.WithoutElement | internal/ds/set.go:31-35 | an element survives the filtering of `t` by `s` exactly when it is in `t` and not in `s` |
| Sets.ElementsSnoc | internal/ds/set.go:27-28 | appending a value to the list adds exactly that value to the element set |
| Sets.InsertKeepsNoDuplicates | internal/ds/set.go:21-29 | `Add` on a duplicate-free list keeps it duplicate-free |
| Sets.AddIdempotent | internal/ds/set.go:21-29 | adding a value twice gives the same list as adding it once, and the value is then present |
| Sets.InsertAllUnion | internal/ds/set.go:31-35 | adding a sequence keeps the list duplicate-free, and membership becomes the union |
| Sets.InsertAllSnoc | internal/ds/set.go:31-35 | adding `t + [v]` is adding `t` and then `v` |
| Sets.InsertAllAppend | internal/ds/set.go:31-35 | adding `a + b` is adding `a` and then `b` |
| Sets.InsertAllSplit | internal/ds/set.go:31-35 | adding to `s + u` keeps `s` as a prefix and adds only values missing from `s` |
| Sets.MergeAppendsMissing | internal/ds/set.go:31-35 | `Merge` appends the values of `that` that are missing, in `that`'s order, each once |
| Sets.MergeIdempotent | internal/ds/set.go:31-35 | merging the same set twice equals merging it once |
| Sets.NewSetKeepsFirstOccurrences | internal/ds/set.go:8-19 | `NewSet(vs...)` equals the reference definition "keep each first occurrence, in order"; the result is duplicate-free with the same members as `vs` |
| Sets.Set.constructor | internal/ds/set.go:8-19 | the new set is consistent, and its list is `NewSet`'s first-occurrence list of the values |
| Sets.Set.Add | internal/ds/set.go:21-29 | the set stays consistent; the list is unchanged when the value is present, else the value is appended; membership gains the value |
| Sets.Set.Merge | internal/ds/set.go:31-35 | the set stays consistent; the list is the old list with `that`'s old list added in order, also when `that` is this set |
| Sets.Set.List | internal/ds/set.go:37-39 | returns the insertion-ordered list; it has no duplicates and holds exactly the members |
| Sets.Set.Valid | internal/ds/set.go:41-43 | true exactly when the set has a member |
| Sets.Set.Has | internal/ds/set.go:45-47 | true exactly when the value is in the list; a missing key reads as false |
| StdTypes.IsNumericType | internal/golang/type_std.go:29-38 | every numeric name is also a built-in name |
| StdTypes.IsStdType | internal/golang/type_std.go:13-27 | built-in exactly for the nine numeric names plus string, error, any, bool and the keyword interface |
| StdTypes.NamedConstantsAreStdNotNumeric | internal/golang/type_std.go:5-10 | `error`, `any`, `string` and `bool` are built-in but not numeric |
| StdTypes.TableContents | internal/golang/type_std.go:13-42 | the tables hold 14 distinct and 9 names; `int8`, `int64` and `uint` are in neither; `interface` is built-in and `interface{}` is not |
| Imports.ImportString | internal/golang/import.go:12-18 | the output always ends with the quoted path; with no alias it is only the quoted path; with an alias it starts with the alias and one space |
| Imports.IndexOfSpace | internal/golang/import.go:12-18 | helper of the reader behind Imports.StringRoundTrip: the first space of a line written by `String()`, which is where an alias ends |
| Imports.UnescapeEscape | internal/golang/import.go:14 | unescaping undoes the escaping done by `%q` |
| Imports.UnquoteQuote | internal/golang/import.go:14 | unquoting undoes `%q` quoting |
| Imports.StringRoundTrip | internal/golang/import.go:12-18 | alias and path can be read back from `String()` |
| Imports.StringDeterminesAliasAndPath | internal/golang/import.go:12-18 | two imports render the same exactly when alias and path agree, so the short name never matters |
| ParamTypes.Parse | internal/golang/param.go:108-174 | the used-package list only grows by appending and stays free of duplicates |
| ParamTypes.ParseFailsExactlyWhenUnsupported | internal/golang/param.go:132-173 | the parse fails exactly when a function type or an unknown node lies on the path it follows |
| ParamTypes.ParseCollectsQualifiers | internal/golang/param.go:116-164 | a successful parse adds exactly the identifier qualifiers of selectors, in visiting order, each once |
| ParamTypes.LocalNameIgnoresPackage | internal/golang/param.go:110-170 | the local name, the outcome and the used packages do not depend on the declaring package |
| ParamTypes.ExternalExtendsLocal | internal/golang/param.go:110-170 | the external name is never shorter than the local one, and equals it exactly when every name is built-in or already qualified |
| ParamTypes.ParseParameterType | internal/golang/param.go:97-183 | fails exactly when the node is unsupported; on success the package is the declaring one, and both flags and the placeholder are unset |
| ParamTypes.ParsedUsedPackages | internal/golang/param.go:97-183 | the used packages are the selector qualifiers with first occurrences kept, and have no duplicates |
| ParamTypes.CalcStubInstantiateExprEffect | internal/golang/param.go:49-83 | names, package and nil flag stay; a nil-able type gets "nil"; a package-free type gains "errors"; `valueThroughVar` is set exactly when the type-assertion placeholder is chosen, which happens exactly when the type has packages or no literal |
| ParamTypes.LiteralIsNotAnyArg | internal/golang/param.go:57-79 | the literal placeholders never coincide with the type-assertion placeholder |
| ParamTypes.BuiltinPlaceholders | internal/golang/param.go:49-72 | each built-in result type gets its literal placeholder, with "errors" as its only used package; the error placeholder names the method |
| ParamTypes.CompositeResultsUseAnyArg | internal/golang/param.go:74-95 | pointer, array, slice, map and interface results always take the type-assertion placeholder and never "nil" |
| ParamTypes.PointerFlagIsLost | internal/golang/param.go:85-104 | `calcPtVtn` flags a pointer on its copy, but the parsed type's nil flag stays false |
| ParamTypes.CallChoosesSpelling | internal/golang/param.go:37-47 | `Call` gives `String()` inside the declaring package; elsewhere it gives the external name, which differs unless the type is self-qualified |
| Methods.FirstFailure | internal/golang/method.go:40-116 | on success there is one value per outcome; an error carries an index within the outcomes |
| Methods.FirstFailureMeaning | internal/golang/method.go:40-116 | success means every outcome succeeded, and the values are in order; an error is the first failing outcome |
| Methods.FirstFailureStops | internal/golang/method.go:50-58 | once a prefix succeeded and the next outcome fails, the loop's result is that error at that index |
| Methods.FirstFailureGrows | internal/golang/method.go:105-107 | once a prefix succeeded and the next outcome succeeds, its value is appended |
| Methods.ImportsOfEntriesSnoc | internal/golang/method.go:109-114 | gathering imports for one more entry adds the imports of that entry's used packages |
| Methods.SomeNotNilSnoc | internal/golang/method.go:60-62 | the parameters' flag after one more entry is the old flag or the new entry's "not nil-able" |
| Methods.SomeThroughVarSnoc | internal/golang/method.go:101-103 | the results' flag after one more entry is the old flag or the new entry's `valueThroughVar` |
| Methods.ImportsOfEntriesAppend | internal/golang/method.go:68-73 | gathering imports for `a + b` is gathering for `a` and then for `b` |
| Methods.AddUsedImportsAppend | internal/golang/method.go:68-73 | adding the imports of `u + v` is adding those of `u` and then those of `v` |
| Methods.ImportsOfEntriesFlat | internal/golang/method.go:68-73 | gathering entry by entry equals gathering over all used packages at once |
| Methods.AddImportEffect | internal/golang/method.go:71 | adding an import keeps every old import, adds nothing else, leaves an import with its alias and path present, and keeps alias/path pairs distinct |
| Methods.AddUsedImportsEffect | internal/golang/method.go:68-73 | only imports found in the map are added; each found one ends up present; nothing old is lost; alias/path pairs stay distinct |
| Methods.AddFoundImports | internal/golang/method.go:68-73 | the import loop of one parameter or result computes the import-gathering function |
| Methods.ParseParameterList | internal/golang/method.go:40-75 | the parameter loop computes the parameter-list function, including its first error |
| Methods.ParseParam | internal/golang/method.go:46-58 | one turn of the parameter loop succeeds exactly when the field's type is supported; it then gives the field's first name with its parsed type (in the method's package, not nil-able, no placeholder), and otherwise that type's parse error |
| Methods.ParseParams | internal/golang/method.go:45-66 | the parameter loop gives the first failure of the parameters' outcomes |
| Methods.SummariseParams | internal/golang/method.go:60-73 | the parameters' flag says whether some entry is not nil-able; the imports are those gathered entry by entry |
| Methods.ParseResultList | internal/golang/method.go:77-116 | the result loop computes the result-list function, including its first error |
| Methods.ParseResult | internal/golang/method.go:82-99 | one turn of the result loop succeeds exactly when the field's type is supported; it then gives the first name, or an empty one for an unnamed result, with the parsed type carrying a non-empty placeholder for the method, and otherwise that type's parse error |
| Methods.ParseResults | internal/golang/method.go:77-107 | the result loop gives the first failure of the results' outcomes |
| Methods.SummariseResults | internal/golang/method.go:101-114 | the results' flag says whether some entry took the type-assertion placeholder; the imports are those gathered entry by entry after the parameters' |
| Methods.ParseMethodFromField | internal/golang/method.go:21-119 | the method equals the method function of its field |
| Methods.ParamListMeaning | internal/golang/method.go:40-75 | succeeds iff every parameter type is supported; then there is one entry per field, in order, named by the first name; else the first unsupported field's error |
| Methods.ResultListMeaning | internal/golang/method.go:77-116 | succeeds iff every result type is supported; then there is one entry per field, in order, with its placeholder computed for this method; else the first unsupported field's error |
| Methods.MethodSucceeds | internal/golang/method.go:35-116 | a method parses exactly when its type is a function type whose parameter and result types are all supported |
| Methods.MethodEntries | internal/golang/method.go:21-116 | the method is named by the field's first name, has no used packages, and has one parameter and one result entry per field, in order |
| Methods.MethodErrorIsFirstFailure | internal/golang/method.go:35-97 | an error names the method; it is an invalid-type error exactly for a non-function type; otherwise it is the first failing parameter (by name) or result (by index) |
| Methods.ParametersFlag | internal/golang/method.go:60-62 | the parameters' flag is set exactly when there is a parameter, because no parsed type is nil-able |
| Methods.ResultsFlag | internal/golang/method.go:99-103 | the results' flag is set exactly when some result took the type-assertion placeholder |
| Methods.MethodImports | internal/golang/method.go:68-73 | the method's imports are exactly the map entries of its parameters' and results' used packages, up to alias and path, without repeats |
| Interfaces.ShortNameMapMeaning | internal/golang/interface.go:58-67 | a key is present exactly when some import has it as alias (or short name when there is no alias); the value is the last such import |
| Interfaces.AddImportsEffect | internal/golang/interface.go:103-109 | adding a method's imports keeps the old ones, adds only the method's, covers each of them up to alias and path, and keeps pairs distinct |
| Interfaces.AllMethodImportsMeaning | internal/golang/interface.go:103-109 | an import is in the union exactly when some method has it |
| Interfaces.InterfaceImportsAreUnion | internal/golang/interface.go:103-109 | an interface's imports are the union of its methods' imports, up to alias and path, without repeats |
| Interfaces.InterfaceSpecMeaning | internal/golang/interface.go:86-101 | an interface has its declared name, the file's package and one method per field, in order; or it fails with the first failing method's error under its name |
| Interfaces.GatherValues | internal/golang/interface.go:71-114 | the walk keeps exactly the successful outcomes |
| Interfaces.GatherPrefix | internal/golang/interface.go:111 | the walk only appends, so interfaces appear in declaration order |
| Interfaces.GatherError | internal/golang/interface.go:94-98 | no error exactly when no examined interface failed; otherwise the error of the last failing one |
| Interfaces.AddAllImports | internal/golang/interface.go:103-109 | the import loop computes the import-adding function |
| Interfaces.ParseMethods | internal/golang/interface.go:93-101 | the method loop computes the first failure of the methods' outcomes |
| Interfaces.CollectInterfaceImports | internal/golang/interface.go:103-109 | the loop over methods computes the interface's imports |
| Interfaces.ParseInterface | internal/golang/interface.go:86-109 | one interface declaration gives the interface function's result |
| Interfaces.NeedSet | internal/golang/interface.go:40-51 | the allow-list map holds true for exactly the listed names |
| Interfaces.BuildShortNameMap | internal/golang/interface.go:58-67 | the loop computes the short-name map |
| Interfaces.ParseInterfacesFromSource | internal/golang/interface.go:29-117 | the whole extraction equals the extraction function, including the unparsable-source error |
| Interfaces.ExtractedInterfaces | internal/golang/interface.go:36-111 | the file keeps the source imports; every interface has the file package, passes the allow-list and is the parse of an allowed interface declaration (its methods in declaration order and their imports); every allowed interface that parses is included |
| Interfaces.ExtractedError | internal/golang/interface.go:94-116 | the error is absent exactly when every allowed interface parses; otherwise it is the last failing one's |
| Interfaces.SingleNameAllowList | internal/golang/interface.go:40-51 | with a one-name allow-list only interfaces of that name are returned |
| Types.Clone | internal/golang/type.go:18-28 | the clone agrees with the original in every field, so changing the clone's methods leaves the original alone |
| Collector.TypesSpec | internal/stub/collector.go:151-179 | on success there is one type per interface |
| Collector.UsedImports | internal/stub/collector.go:113-131 | the import-filter loop computes the selected imports |
| Collector.CollectTypes | internal/stub/collector.go:151-179 | the type loop computes the types function, including the first naming error |
| Collector.CreateCommonStub | internal/stub/collector.go:74-98 | fails exactly when the common file name does not generate, with that error; otherwise one stub holds every type, in the target package or else the first type's, with the first type's imports and the method-body template, and generates both methods and types |
| Collector.CreatePerTypeStub | internal/stub/collector.go:107-143 | one turn of the per-type loop builds that type's per-type stub or its file-name error |
| Collector.CreateMethodStub | internal/stub/collector.go:189-238 | one turn of the inner method loop builds that method's stub or its file-name error |
| Collector.CollectPerType | internal/stub/collector.go:100-149 | the per-type loop computes the per-type stubs or the first naming error |
| Collector.CollectTypeMethodStubs | internal/stub/collector.go:188-241 | the inner loop computes one type's method stubs |
| Collector.CollectMethodStubs | internal/stub/collector.go:181-245 | the outer loop computes every type's method stubs, or the first error |
| Collector.Collect | internal/stub/collector.go:24-72 | `Collect` computes the layout function over the interfaces and flags |
| Collector.MethodStubsStop | internal/stub/collector.go:190-193 | the first type whose method stubs fail decides the error |
| Collector.ImportsMapMeaning | internal/stub/collector.go:113-124 | a key is present exactly when some import has it as non-empty alias or short name; the value is the last such import |
| Collector.ImportsMapKeys | internal/stub/collector.go:113-124 | a key is in the short-name map exactly when some import has it as non-empty alias or short name |
| Collector.ImportsMapLastWins | internal/stub/collector.go:113-124 | a key of the short-name map holds the last import that has it |
| Collector.FilterImportsMeaning | internal/stub/collector.go:125-131 | at most one import per used package; each selected import is a map value of a used package; every used package in the map is covered |
| Collector.SelectImportsMeaning | internal/stub/collector.go:113-131 | nothing for no used packages; at most one per used package; every selected import is one of the type's; every used package found is covered |
| Collector.TypesMeaning | internal/stub/collector.go:151-179 | types succeed iff every interface can be named; each type has its interface's imports, methods, receiver and the target package or its own; otherwise the first naming error |
| Collector.PerTypeMeaning | internal/stub/collector.go:100-149 | one stub per type, holding just that type, generating types and, unless files per method, methods; imports are empty under files per method |
| Collector.MethodStubMeaning | internal/stub/collector.go:188-238 | a method stub holds the type cloned with just that method, generates methods but not types, and under a target package ends with the interface-package import |
| Collector.TypeMethodsMeaning | internal/stub/collector.go:188-241 | one type's stubs succeed iff each method's file name can be generated, with one stub per method, in order |
| Collector.MethodStubsSucceed | internal/stub/collector.go:181-245 | all method stubs succeed iff every file name can be generated; then there is one per method of every type |
| Collector.MethodStubAt | internal/stub/collector.go:181-245 | method `l` of type `j` sits right after the stubs of the earlier types' methods |
| Collector.StubOfInit | internal/stub/collector.go:188-241 | the method stubs of the types before the last keep their places when the last type's are appended |
| Collector.StubOfLast | internal/stub/collector.go:188-241 | the stub of method `l` of the last type sits right after the method stubs of all the types before it |
| Collector.MethodCountsAgree | internal/stub/collector.go:151-179 | the types have as many methods as the interfaces |
| Collector.CollectStubCount | internal/stub/collector.go:30-69 | without flags 1 stub; per type one per interface; per method one per method plus one; both flags interfaces plus methods |
| Collector.CollectCommonStub | internal/stub/collector.go:30-33 | without flags the one stub has all types, generates both, has the first type's imports and the target or first interface's package |
| Collector.CollectPerTypeFirst | internal/stub/collector.go:37-43 | under files per type the per-type stubs come first, in interface order |
| Collector.TypeKeepsMethods | internal/stub/collector.go:168-175 | each type carries the methods of its interface |
| Collector.MethodStubsInCollect | internal/stub/collector.go:45-52 | under files per method the method stubs form the slice of the result right after the per-type stubs |
| Collector.CollectMethodStubsFollow | internal/stub/collector.go:45-52 | under files per method the method stubs follow, by interface and then by method |
| Collector.CollectTypesOnlyLast | internal/stub/collector.go:54-69 | with files per method only, the last stub holds all types, generates types only and has no imports |
| Collector.CollectTargetPackage | internal/stub/collector.go:84-87 | with a target package every stub is placed in it |
| Collector.MethodStubIsPlaced | internal/stub/collector.go:220-226 | with a target package every method stub is placed in it |
| Collector.CollectSucceeds | internal/stub/collector.go:24-72 | `Collect` succeeds exactly when every name the layout needs can be generated |

## Left out

- Methods.ParseMethodFromField: requires every parameter to be named and the field itself to be named. The source indexes `Names[0]` and panics otherwise. Embedded interfaces and unnamed parameters are therefore outside the model.
- Interfaces.ParseInterfacesFromSource: requires that same indexability for the method fields of every interface the walk examines. This includes interfaces after one that already failed, which the source would also examine.
- Collector.Collect: requires an interface, a per-type layout or a failing common file name. The source reads `types[0]` and panics when there are no interfaces.
- Types.Clone: types are values, so the sharing of the `Methods` slice and of the `Imports`, `Package` and `Interface` references is not modelled. Assigning methods to a clone can never affect the original here.
- `go/parser` and the `ast.Inspect` walk are not modelled. A parsed file is given as its package name, its imports and its type declarations in source order; a parse failure is given as its message.
- `goimports.ImportGroups` is not modelled as grouped and sorted. It is an insertion-ordered sequence, and an import is not added again when one with the same alias and path is present. The short-name map of a file is built over `imports.SortedImports()` (internal/golang/interface.go:59). `SourceFile.imports` stands for that sorted order; the grouping and sort order themselves, which decide which of two imports with the same short name wins, are not modelled.
- Imports.ImportString: Go's `%q` escapes only `"`, `\`, newline and tab here; other control and non-printable characters are left as they are.
- Package comparison is value equality of the package record; the module-path lookup `CalcPackageFromAbsPathWithName` is a function parameter.
- Name generation (the file-name templates of internal/renderer) and `CreateReceiver` are function parameters. Only their success or failure and their results are modelled.
- File reading, writing, logging and the command line (main.go, cmd/main.go, internal/cmd) are not part of this model.
- Methods.ParseParameterList, Methods.ParseResultList: the source computes each entry, the flag and the imports in one loop. The model makes two passes over the same entries, first the entries and then the flag and imports. A parse error returns nothing else, so the outcome is the same.
- The `goModule` argument of `ParseMethodFromField` only configures the method's import groups through `goimports.NewImportGroups(goModule)` (internal/golang/method.go:30). Grouping is not modelled, so the argument is dropped.
- When `createCommonStub` fails, `Collect` wraps its nil stub into a one-element slice and returns that slice together with the error (internal/stub/collector.go:31-32). The model returns only the error.
- `GoParameters.UsedPackages` is never created for the parameter and result lists (internal/golang/method.go:31-32, 41-43), so it stays nil; the model leaves it out. `GoMethod.UsedPackages` is created empty (internal/golang/method.go:29) and never filled; the model keeps it as an empty list.
- The sources do not compile against each other at three points:
  - collector.go:114 reads an `Interface.UsedPackages` field that `GoInterface` lacks. The model gives interfaces a used-package list, and extraction leaves it empty.
  - collector.go:116 ranges over import groups as over a list of imports, which is how the model treats them.
  - `Stub.Package` is declared as a string but assigned a package. The model stores the package.
- `calcPtVtn` (internal/golang/param.go:85-97) is meant to flag pointers, slices and interfaces as nil-able. It sets the flag on a by-value copy, so the flag is lost and these results get the type-assertion placeholder. The model follows the code: see ParamTypes.PointerFlagIsLost and ParamTypes.CompositeResultsUseAnyArg.
