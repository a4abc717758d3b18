/**
 * Method extraction of internal/golang/method.go: one interface method field
 * becomes a `GoMethod` with its parameter and result lists, the two
 * "needs the anyArg variable" flags and the imports its types use.
 *
 * `goimports.ImportGroups` is modelled as a list of `GoImport` to which
 * `AddImport` appends an import unless one with the same alias and path is
 * already listed. The parameter loop, the result loop and the inner loop over
 * a type's used packages are each a method of their own.
 */
module Methods {
  import opened Wrappers
  import opened Ast
  import opened Packages
  import opened Imports
  import opened ParamTypes

  datatype GoParameter = GoParameter(name: string, typ: GoParameterType)

  /** `GoParameters` (its never-assigned `UsedPackages` pointer is not modelled). */
  datatype GoParameters = GoParameters(list: seq<GoParameter>, hasValueThroughAnyArg: bool)

  datatype GoMethod = GoMethod(
    name: string,
    parameters: GoParameters,
    results: GoParameters,
    usedPackages: seq<string>,
    imports: seq<GoImport>)

  datatype MethodError =
    | InvalidMethodType(methodName: string)                                // "got invalid type for method %q"
    | ParamTypeFailed(methodName: string, param: string, cause: ParseError) // "failed to get type name for %s.%s: ..."
    | ResultTypeFailed(index: nat, methodName: string, cause: ParseError)   // "failed to parse result[%d] type for method %q: ..."

  /** What one of the two field loops produces: the list with its flag, and the imports so far. */
  datatype ListOutcome = ListOutcome(entries: GoParameters, imports: seq<GoImport>)

  // ---------------------------------------------------------------- imports

  /** Two imports the import groups treat as the same: equal alias and path. */
  predicate SameImport(a: GoImport, b: GoImport) {
    a.alias == b.alias && a.path == b.path
  }

  /** `ImportGroups.Add(alias, path)`. */
  function AddImport(groups: seq<GoImport>, imp: GoImport): seq<GoImport> {
    if exists g :: g in groups && SameImport(g, imp) then groups else groups + [imp]
  }

  /** The imports after looking up each used package in `imports` and adding the ones found. */
  function AddUsedImports(acc: seq<GoImport>, used: seq<string>, imports: map<string, GoImport>): seq<GoImport>
    decreases |used|
  {
    if used == [] then acc
    else
      var before := AddUsedImports(acc, used[..|used| - 1], imports);
      var u := used[|used| - 1];
      if u in imports then AddImport(before, imports[u]) else before
  }

  /** `AddUsedImports` over the used packages of each entry, in entry order. */
  function ImportsOfEntries(acc: seq<GoImport>, entries: seq<GoParameter>, imports: map<string, GoImport>): seq<GoImport>
    decreases |entries|
  {
    if entries == [] then acc
    else
      AddUsedImports(ImportsOfEntries(acc, entries[..|entries| - 1], imports),
                     entries[|entries| - 1].typ.usedPackages, imports)
  }

  /** The used packages of all entries, one after the other. */
  function AllUsed(entries: seq<GoParameter>): seq<string>
    decreases |entries|
  {
    if entries == [] then []
    else AllUsed(entries[..|entries| - 1]) + entries[|entries| - 1].typ.usedPackages
  }

  /** The imports found in the map for the given used packages. */
  ghost function Found(used: seq<string>, imports: map<string, GoImport>): set<GoImport> {
    set u | u in used && u in imports :: imports[u]
  }

  /** No two listed imports share alias and path. */
  ghost predicate DistinctImports(groups: seq<GoImport>) {
    forall i, j :: 0 <= i < j < |groups| ==> !SameImport(groups[i], groups[j])
  }

  // --------------------------------------------------------------- entries

  /** The outcomes in order: all values, or the index and error of the first failure. */
  function FirstFailure<T, E>(rs: seq<Result<T, E>>): (r: Result<seq<T>, (nat, E)>)
    ensures r.Ok? ==> |r.value| == |rs|
    ensures r.Err? ==> r.error.0 < |rs|
    decreases |rs|
  {
    if rs == [] then Ok([])
    else
      var n := |rs| - 1;
      var before := FirstFailure(rs[..n]);
      if before.Err? then before
      else
        match rs[n]
        case Err(e) => Err((n, e))
        case Ok(v) => Ok(before.value + [v])
  }

  predicate NamedFields(fields: seq<Field>) {
    forall i :: 0 <= i < |fields| ==> |fields[i].names| > 0
  }

  /** One parameter entry: the field's first name and its parsed type. */
  function ParamEntry(field: Field, pkg: Package): Result<GoParameter, ParseError>
    requires |field.names| > 0
  {
    match ParseParameterType(field.typ, pkg)
    case Err(e) => Err(e)
    case Ok(t) => Ok(GoParameter(field.names[0], t))
  }

  /** The name a result entry gets: its first name, or empty when unnamed. */
  function ResultName(field: Field): string {
    if field.names != [] then field.names[0] else ""
  }

  /** One result entry: its parsed type with the placeholder computed for `methodName`. */
  function ResultEntry(field: Field, pkg: Package, methodName: string): Result<GoParameter, ParseError> {
    match ParseParameterType(field.typ, pkg)
    case Err(e) => Err(e)
    case Ok(t) => Ok(GoParameter(ResultName(field), CalcStubInstantiateExpr(t, methodName)))
  }

  function ParamOutcomes(fields: seq<Field>, pkg: Package): seq<Result<GoParameter, ParseError>>
    requires NamedFields(fields)
  {
    seq(|fields|, i requires 0 <= i < |fields| => ParamEntry(fields[i], pkg))
  }

  function ResultOutcomes(fields: seq<Field>, pkg: Package, methodName: string): seq<Result<GoParameter, ParseError>> {
    seq(|fields|, i requires 0 <= i < |fields| => ResultEntry(fields[i], pkg, methodName))
  }

  /** Some parameter type is not nil-able (the parameters' `HasValueThroughAnyArg`). */
  predicate SomeNotNil(entries: seq<GoParameter>) {
    exists i :: 0 <= i < |entries| && !entries[i].typ.valueThroughNil
  }

  /** Some result took the type-assertion placeholder (the results' `HasValueThroughAnyArg`). */
  predicate SomeThroughVar(entries: seq<GoParameter>) {
    exists i :: 0 <= i < |entries| && entries[i].typ.valueThroughVar
  }

  /** The parameter loop over `fields`. */
  function ParamList(fields: seq<Field>, pkg: Package, imports: map<string, GoImport>): Result<ListOutcome, (nat, ParseError)>
    requires NamedFields(fields)
  {
    match FirstFailure(ParamOutcomes(fields, pkg))
    case Err(e) => Err(e)
    case Ok(ps) => Ok(ListOutcome(GoParameters(ps, SomeNotNil(ps)), ImportsOfEntries([], ps, imports)))
  }

  /** The result loop over `fields`, adding to the imports `base` of the parameters. */
  function ResultList(fields: seq<Field>, pkg: Package, methodName: string, base: seq<GoImport>,
                      imports: map<string, GoImport>): Result<ListOutcome, (nat, ParseError)>
  {
    match FirstFailure(ResultOutcomes(fields, pkg, methodName))
    case Err(e) => Err(e)
    case Ok(rs) => Ok(ListOutcome(GoParameters(rs, SomeThroughVar(rs)), ImportsOfEntries(base, rs, imports)))
  }

  /** What `ParseMethodFromField` needs to index: the method's name and every parameter's first name. */
  predicate IndexableMethodField(field: Field) {
    && |field.names| > 0
    && (field.typ.FuncType? && field.typ.params.Some? ==> NamedFields(field.typ.params.value))
  }

  function ParamFields(ft: Node): seq<Field>
    requires ft.FuncType?
  {
    if ft.params.Some? then ft.params.value else []
  }

  function ResultFields(ft: Node): seq<Field>
    requires ft.FuncType?
  {
    if ft.results.Some? then ft.results.value else []
  }

  /** The specification of `ParseMethodFromField`. */
  function MethodSpec(field: Field, pkg: Package, imports: map<string, GoImport>): Result<GoMethod, MethodError>
    requires IndexableMethodField(field)
  {
    var name := field.names[0];
    if !field.typ.FuncType? then Err(InvalidMethodType(name))
    else
      var pfs := ParamFields(field.typ);
      match ParamList(pfs, pkg, imports)
      case Err(pe) => Err(ParamTypeFailed(name, pfs[pe.0].names[0], pe.1))
      case Ok(ps) =>
        match ResultList(ResultFields(field.typ), pkg, name, ps.imports, imports)
        case Err(re) => Err(ResultTypeFailed(re.0, name, re.1))
        case Ok(rs) => Ok(GoMethod(name, ps.entries, rs.entries, [], rs.imports))
  }

  // --------------------------------------------------------------- methods

  /** The inner loop: look up each used package and add the import found. */
  method AddFoundImports(acc: seq<GoImport>, used: seq<string>, imports: map<string, GoImport>)
    returns (r: seq<GoImport>)
    ensures r == AddUsedImports(acc, used, imports)
  {
    r := acc;
    var j := 0;
    while j < |used|
      invariant 0 <= j <= |used|
      invariant r == AddUsedImports(acc, used[..j], imports)
    {
      assert used[..j + 1][..j] == used[..j];
      if used[j] in imports {
        r := AddImport(r, imports[used[j]]);
      }
      j := j + 1;
    }
    assert used[..|used|] == used;
  }

  /**
   * One turn of the parameter loop: it succeeds exactly when the field's type
   * is supported, and then gives the field's first name with its parsed type
   * (in `pkg`, not nil-able, no placeholder); otherwise the type's error.
   */
  method ParseParam(field: Field, pkg: Package) returns (r: Result<GoParameter, ParseError>)
    requires |field.names| > 0
    ensures r == ParamEntry(field, pkg)
    ensures r.Ok? <==> Supported(field.typ)
    ensures r.Ok? ==>
      && r.value.name == field.names[0]
      && r.value.typ == ParseParameterType(field.typ, pkg).value
      && r.value.typ.package == pkg
      && !r.value.typ.valueThroughNil
      && r.value.typ.value == ""
    ensures r.Err? ==> ParseParameterType(field.typ, pkg) == Err(r.error)
  {
    var paramName := field.names[0];
    var pt := ParseParameterType(field.typ, pkg);
    if pt.Err? {
      return Err(pt.error);
    }
    r := Ok(GoParameter(paramName, pt.value));
  }

  /** The loop over `mFunc.Params.List`: every parameter's entry, or the first failure. */
  method ParseParams(fields: seq<Field>, pkg: Package) returns (r: Result<seq<GoParameter>, (nat, ParseError)>)
    requires NamedFields(fields)
    ensures r == FirstFailure(ParamOutcomes(fields, pkg))
  {
    ghost var outcomes := ParamOutcomes(fields, pkg);
    var list: seq<GoParameter> := [];
    var i := 0;
    while i < |fields|
      invariant 0 <= i <= |fields|
      invariant FirstFailure(outcomes[..i]) == Ok(list)
    {
      var entry := ParseParam(fields[i], pkg);
      assert outcomes[i] == entry;
      if entry.Err? {
        FirstFailureStops(outcomes, i);
        return Err((i, entry.error));
      }
      FirstFailureGrows(outcomes, i);
      list := list + [entry.value];
      i := i + 1;
    }
    assert outcomes[..|fields|] == outcomes;
    r := Ok(list);
  }

  /** The parameters' flag and imports, gathered entry by entry. */
  method SummariseParams(list: seq<GoParameter>, imports: map<string, GoImport>)
    returns (any: bool, imps: seq<GoImport>)
    ensures any == SomeNotNil(list)
    ensures imps == ImportsOfEntries([], list, imports)
  {
    any := false;
    imps := [];
    var i := 0;
    while i < |list|
      invariant 0 <= i <= |list|
      invariant any == SomeNotNil(list[..i])
      invariant imps == ImportsOfEntries([], list[..i], imports)
    {
      var p := list[i];
      if !p.typ.valueThroughNil {
        any := true;
      }
      imps := AddFoundImports(imps, p.typ.usedPackages, imports);
      SomeNotNilSnoc(list[..i], p);
      ImportsOfEntriesSnoc([], list[..i], p, imports);
      assert list[..i + 1] == list[..i] + [p];
      i := i + 1;
    }
    assert list[..|list|] == list;
  }

  /** The parameter loop of `ParseMethodFromField`, as the entries and then the flag and imports. */
  method ParseParameterList(fields: seq<Field>, pkg: Package, imports: map<string, GoImport>)
    returns (r: Result<ListOutcome, (nat, ParseError)>)
    requires NamedFields(fields)
    ensures r == ParamList(fields, pkg, imports)
  {
    var entries := ParseParams(fields, pkg);
    if entries.Err? {
      return Err(entries.error);
    }
    var any, imps := SummariseParams(entries.value, imports);
    r := Ok(ListOutcome(GoParameters(entries.value, any), imps));
  }

  /**
   * One turn of the result loop: it succeeds exactly when the field's type is
   * supported, and then gives the result's first name (empty when unnamed)
   * with its parsed type and the placeholder computed for `methodName`;
   * otherwise the type's error.
   */
  method ParseResult(field: Field, pkg: Package, methodName: string) returns (r: Result<GoParameter, ParseError>)
    ensures r == ResultEntry(field, pkg, methodName)
    ensures r.Ok? <==> Supported(field.typ)
    ensures r.Ok? ==>
      && r.value.name == (if field.names != [] then field.names[0] else "")
      && r.value.typ == CalcStubInstantiateExpr(ParseParameterType(field.typ, pkg).value, methodName)
      && r.value.typ.package == pkg
      && r.value.typ.value != ""
    ensures r.Err? ==> ParseParameterType(field.typ, pkg) == Err(r.error)
  {
    var resultName := if field.names != [] then field.names[0] else "";
    var pt := ParseParameterType(field.typ, pkg);
    if pt.Err? {
      return Err(pt.error);
    }
    r := Ok(GoParameter(resultName, CalcStubInstantiateExpr(pt.value, methodName)));
  }

  /** The loop over `mFunc.Results.List`: every result's entry, or the first failure. */
  method ParseResults(fields: seq<Field>, pkg: Package, methodName: string)
    returns (r: Result<seq<GoParameter>, (nat, ParseError)>)
    ensures r == FirstFailure(ResultOutcomes(fields, pkg, methodName))
  {
    ghost var outcomes := ResultOutcomes(fields, pkg, methodName);
    var list: seq<GoParameter> := [];
    var i := 0;
    while i < |fields|
      invariant 0 <= i <= |fields|
      invariant FirstFailure(outcomes[..i]) == Ok(list)
    {
      var entry := ParseResult(fields[i], pkg, methodName);
      assert outcomes[i] == entry;
      if entry.Err? {
        FirstFailureStops(outcomes, i);
        return Err((i, entry.error));
      }
      FirstFailureGrows(outcomes, i);
      list := list + [entry.value];
      i := i + 1;
    }
    assert outcomes[..|fields|] == outcomes;
    r := Ok(list);
  }

  /** The results' flag and imports, gathered entry by entry after the imports `base` of the parameters. */
  method SummariseResults(list: seq<GoParameter>, base: seq<GoImport>, imports: map<string, GoImport>)
    returns (any: bool, imps: seq<GoImport>)
    ensures any == SomeThroughVar(list)
    ensures imps == ImportsOfEntries(base, list, imports)
  {
    any := false;
    imps := base;
    var i := 0;
    while i < |list|
      invariant 0 <= i <= |list|
      invariant any == SomeThroughVar(list[..i])
      invariant imps == ImportsOfEntries(base, list[..i], imports)
    {
      var p := list[i];
      if p.typ.valueThroughVar {
        any := true;
      }
      imps := AddFoundImports(imps, p.typ.usedPackages, imports);
      SomeThroughVarSnoc(list[..i], p);
      ImportsOfEntriesSnoc(base, list[..i], p, imports);
      assert list[..i + 1] == list[..i] + [p];
      i := i + 1;
    }
    assert list[..|list|] == list;
  }

  /** The result loop of `ParseMethodFromField`, as the entries and then the flag and imports. */
  method ParseResultList(fields: seq<Field>, pkg: Package, methodName: string, base: seq<GoImport>,
                         imports: map<string, GoImport>)
    returns (r: Result<ListOutcome, (nat, ParseError)>)
    ensures r == ResultList(fields, pkg, methodName, base, imports)
  {
    var entries := ParseResults(fields, pkg, methodName);
    if entries.Err? {
      return Err(entries.error);
    }
    var any, imps := SummariseResults(entries.value, base, imports);
    r := Ok(ListOutcome(GoParameters(entries.value, any), imps));
  }

  /** `ParseMethodFromField`. */
  method ParseMethodFromField(field: Field, pkg: Package, imports: map<string, GoImport>)
    returns (r: Result<GoMethod, MethodError>)
    requires IndexableMethodField(field)
    ensures r == MethodSpec(field, pkg, imports)
  {
    var name := field.names[0];
    if !field.typ.FuncType? {
      return Err(InvalidMethodType(name));
    }
    var ft := field.typ;
    var params := GoParameters([], false);
    var imps: seq<GoImport> := [];
    if ft.params.Some? {
      var out := ParseParameterList(ft.params.value, pkg, imports);
      if out.Err? {
        return Err(ParamTypeFailed(name, ft.params.value[out.error.0].names[0], out.error.1));
      }
      params, imps := out.value.entries, out.value.imports;
    }
    var results := GoParameters([], false);
    if ft.results.Some? {
      var out := ParseResultList(ft.results.value, pkg, name, imps, imports);
      if out.Err? {
        return Err(ResultTypeFailed(out.error.0, name, out.error.1));
      }
      results, imps := out.value.entries, out.value.imports;
    }
    r := Ok(GoMethod(name, params, results, [], imps));
  }

  // ---------------------------------------------------------------- lemmas

  lemma SomeNotNilSnoc(list: seq<GoParameter>, p: GoParameter)
    ensures SomeNotNil(list + [p]) <==> SomeNotNil(list) || !p.typ.valueThroughNil
  {
    var l := list + [p];
    if SomeNotNil(list) {
      var i :| 0 <= i < |list| && !list[i].typ.valueThroughNil;
      assert l[i] == list[i];
    }
    if !p.typ.valueThroughNil {
      assert l[|list|] == p;
    }
    if SomeNotNil(l) {
      var i :| 0 <= i < |l| && !l[i].typ.valueThroughNil;
      if i < |list| {
        assert l[i] == list[i];
      }
    }
  }

  lemma SomeThroughVarSnoc(list: seq<GoParameter>, p: GoParameter)
    ensures SomeThroughVar(list + [p]) <==> SomeThroughVar(list) || p.typ.valueThroughVar
  {
    var l := list + [p];
    if SomeThroughVar(list) {
      var i :| 0 <= i < |list| && list[i].typ.valueThroughVar;
      assert l[i] == list[i];
    }
    if p.typ.valueThroughVar {
      assert l[|list|] == p;
    }
    if SomeThroughVar(l) {
      var i :| 0 <= i < |l| && l[i].typ.valueThroughVar;
      if i < |list| {
        assert l[i] == list[i];
      }
    }
  }

  /**
   * `FirstFailure` succeeds with one value per outcome, in order, or fails
   * with the index of the first failed outcome, all earlier ones succeeding.
   */
  lemma {:induction false} FirstFailureMeaning<T, E>(rs: seq<Result<T, E>>)
    ensures var r := FirstFailure(rs);
      && (r.Ok? ==> forall i :: 0 <= i < |rs| ==> rs[i] == Ok(r.value[i]))
      && (r.Err? ==> rs[r.error.0] == Err(r.error.1) && forall j :: 0 <= j < r.error.0 ==> rs[j].Ok?)
    decreases |rs|
  {
    if rs != [] {
      var n := |rs| - 1;
      FirstFailureMeaning(rs[..n]);
      var before := FirstFailure(rs[..n]);
      if before.Err? {
        assert forall j :: 0 <= j < n ==> rs[..n][j] == rs[j];
      } else if rs[n].Ok? {
        var r := FirstFailure(rs);
        assert r.value == before.value + [rs[n].value];
        forall i | 0 <= i < |rs|
          ensures rs[i] == Ok(r.value[i])
        {
          if i < n {
            assert rs[..n][i] == rs[i];
          }
        }
      } else {
        assert forall j :: 0 <= j < n ==> rs[..n][j] == rs[j];
      }
    }
  }

  /** When the first `k` outcomes succeed and outcome `k` does too, its value is appended. */
  lemma FirstFailureGrows<T, E>(rs: seq<Result<T, E>>, k: nat)
    requires k < |rs|
    requires FirstFailure(rs[..k]).Ok? && rs[k].Ok?
    ensures FirstFailure(rs[..k + 1]) == Ok(FirstFailure(rs[..k]).value + [rs[k].value])
  {
    assert rs[..k + 1][..k] == rs[..k];
  }

  lemma ImportsOfEntriesSnoc(acc: seq<GoImport>, list: seq<GoParameter>, p: GoParameter, imports: map<string, GoImport>)
    ensures ImportsOfEntries(acc, list + [p], imports) == AddUsedImports(ImportsOfEntries(acc, list, imports), p.typ.usedPackages, imports)
  {
    assert (list + [p])[..|list|] == list;
  }

  /** When the first `k` outcomes succeed and outcome `k` fails, the loop stops there. */
  lemma {:induction false} FirstFailureStops<T, E>(rs: seq<Result<T, E>>, k: nat)
    requires k < |rs|
    requires FirstFailure(rs[..k]).Ok?
    requires rs[k].Err?
    ensures FirstFailure(rs) == Err((k, rs[k].error))
    decreases |rs|
  {
    var n := |rs| - 1;
    if k < n {
      assert rs[..n][..k] == rs[..k];
      assert rs[..n][k] == rs[k];
      FirstFailureStops(rs[..n], k);
    } else {
      assert rs[..n] == rs[..k];
    }
  }

  /** Gathering over `a` then over `b` is gathering over `a + b`. */
  lemma {:induction false} ImportsOfEntriesAppend(acc: seq<GoImport>, a: seq<GoParameter>, b: seq<GoParameter>,
                                                  imports: map<string, GoImport>)
    ensures ImportsOfEntries(ImportsOfEntries(acc, a, imports), b, imports) == ImportsOfEntries(acc, a + b, imports)
    decreases |b|
  {
    if b == [] {
      assert a + b == a;
    } else {
      var n := |b| - 1;
      assert (a + b)[..|a + b| - 1] == a + b[..n];
      assert (a + b)[|a + b| - 1] == b[n];
      ImportsOfEntriesAppend(acc, a, b[..n], imports);
    }
  }

  lemma {:induction false} AddUsedImportsAppend(acc: seq<GoImport>, u: seq<string>, v: seq<string>,
                                                imports: map<string, GoImport>)
    ensures AddUsedImports(AddUsedImports(acc, u, imports), v, imports) == AddUsedImports(acc, u + v, imports)
    decreases |v|
  {
    if v == [] {
      assert u + v == u;
    } else {
      var n := |v| - 1;
      assert (u + v)[..|u + v| - 1] == u + v[..n];
      assert (u + v)[|u + v| - 1] == v[n];
      AddUsedImportsAppend(acc, u, v[..n], imports);
    }
  }

  /** The entry-by-entry gathering is one gathering over all used packages. */
  lemma {:induction false} ImportsOfEntriesFlat(acc: seq<GoImport>, entries: seq<GoParameter>,
                                                imports: map<string, GoImport>)
    ensures ImportsOfEntries(acc, entries, imports) == AddUsedImports(acc, AllUsed(entries), imports)
    decreases |entries|
  {
    if entries != [] {
      var n := |entries| - 1;
      ImportsOfEntriesFlat(acc, entries[..n], imports);
      AddUsedImportsAppend(acc, AllUsed(entries[..n]), entries[n].typ.usedPackages, imports);
    }
  }

  /**
   * Adding one import keeps every listed import, adds only `imp`, lists an
   * import equal to `imp` in alias and path afterwards, and keeps the list
   * free of alias-and-path duplicates.
   */
  lemma AddImportEffect(groups: seq<GoImport>, imp: GoImport)
    ensures forall g :: g in groups ==> g in AddImport(groups, imp)
    ensures forall g :: g in AddImport(groups, imp) ==> g in groups || g == imp
    ensures exists g :: g in AddImport(groups, imp) && SameImport(g, imp)
    ensures DistinctImports(groups) ==> DistinctImports(AddImport(groups, imp))
  {
    if !exists g :: g in groups && SameImport(g, imp) {
      var r := groups + [imp];
      assert r[|groups|] == imp && SameImport(imp, imp);
      if DistinctImports(groups) {
        forall i, j | 0 <= i < j < |r|
          ensures !SameImport(r[i], r[j])
        {
          if j == |groups| {
            assert r[i] in groups;
          } else {
            assert r[i] == groups[i] && r[j] == groups[j];
          }
        }
      }
    }
  }

  /**
   * Gathering the imports of `used`: the result keeps `acc`, adds only
   * imports found for a used package, lists every found import (up to alias
   * and path) and lists none twice.
   */
  lemma {:induction false} AddUsedImportsEffect(acc: seq<GoImport>, used: seq<string>, imports: map<string, GoImport>)
    ensures var r := AddUsedImports(acc, used, imports);
      && (forall g :: g in acc ==> g in r)
      && (forall g :: g in r ==> g in acc || g in Found(used, imports))
      && (forall f :: f in Found(used, imports) ==> exists g :: g in r && SameImport(g, f))
      && (DistinctImports(acc) ==> DistinctImports(r))
    decreases |used|
  {
    if used != [] {
      var n := |used| - 1;
      var init := used[..n];
      var u := used[n];
      AddUsedImportsEffect(acc, init, imports);
      var before := AddUsedImports(acc, init, imports);
      var r := AddUsedImports(acc, used, imports);
      assert forall x :: x in init ==> x in used;
      assert Found(used, imports) == Found(init, imports) + (if u in imports then {imports[u]} else {}) by {
        assert used == init + [u];
      }
      if u in imports {
        AddImportEffect(before, imports[u]);
        forall f | f in Found(init, imports)
          ensures exists g :: g in r && SameImport(g, f)
        {
          var g :| g in before && SameImport(g, f);
          assert g in r;
        }
      }
    }
  }

  /**
   * The parameter loop succeeds exactly when every field's type parses; it
   * then lists each field's first name and parsed type in field order, and
   * otherwise stops at the first field whose type does not parse.
   */
  lemma ParamListMeaning(fields: seq<Field>, pkg: Package, imports: map<string, GoImport>)
    requires NamedFields(fields)
    ensures var r := ParamList(fields, pkg, imports);
      && (r.Ok? <==> forall i :: 0 <= i < |fields| ==> Supported(fields[i].typ))
      && (r.Ok? ==>
            && |r.value.entries.list| == |fields|
            && forall i :: 0 <= i < |fields| ==>
                 r.value.entries.list[i] == GoParameter(fields[i].names[0], ParseParameterType(fields[i].typ, pkg).value))
      && (r.Err? ==>
            && r.error.0 < |fields|
            && ParseParameterType(fields[r.error.0].typ, pkg) == Err(r.error.1)
            && forall j :: 0 <= j < r.error.0 ==> Supported(fields[j].typ))
  {
    var os := ParamOutcomes(fields, pkg);
    FirstFailureMeaning(os);
    forall i | 0 <= i < |fields|
      ensures os[i].Ok? <==> Supported(fields[i].typ)
      ensures os[i].Ok? ==> os[i].value == GoParameter(fields[i].names[0], ParseParameterType(fields[i].typ, pkg).value)
      ensures os[i].Err? ==> ParseParameterType(fields[i].typ, pkg) == Err(os[i].error)
    {
      assert os[i] == ParamEntry(fields[i], pkg);
    }
  }

  /**
   * The result loop succeeds exactly when every field's type parses; it then
   * lists each field's name (or none) and parsed type with its placeholder,
   * and otherwise stops at the first field whose type does not parse.
   */
  lemma ResultListMeaning(fields: seq<Field>, pkg: Package, methodName: string, base: seq<GoImport>,
                          imports: map<string, GoImport>)
    ensures var r := ResultList(fields, pkg, methodName, base, imports);
      && (r.Ok? <==> forall i :: 0 <= i < |fields| ==> Supported(fields[i].typ))
      && (r.Ok? ==>
            && |r.value.entries.list| == |fields|
            && forall i :: 0 <= i < |fields| ==>
                 r.value.entries.list[i] == GoParameter(ResultName(fields[i]),
                   CalcStubInstantiateExpr(ParseParameterType(fields[i].typ, pkg).value, methodName)))
      && (r.Err? ==>
            && r.error.0 < |fields|
            && ParseParameterType(fields[r.error.0].typ, pkg) == Err(r.error.1)
            && forall j :: 0 <= j < r.error.0 ==> Supported(fields[j].typ))
  {
    var os := ResultOutcomes(fields, pkg, methodName);
    FirstFailureMeaning(os);
    forall i | 0 <= i < |fields|
      ensures os[i].Ok? <==> Supported(fields[i].typ)
      ensures os[i].Ok? ==> os[i].value == GoParameter(ResultName(fields[i]),
                CalcStubInstantiateExpr(ParseParameterType(fields[i].typ, pkg).value, methodName))
      ensures os[i].Err? ==> ParseParameterType(fields[i].typ, pkg) == Err(os[i].error)
    {
      assert os[i] == ResultEntry(fields[i], pkg, methodName);
    }
  }

  // ------------------------------------------------- properties of the method

  /**
   * A method field is accepted exactly when its type is a function type and
   * every parameter and result type can be parsed (no function type and no
   * unknown node in any of them).
   */
  lemma MethodSucceeds(field: Field, pkg: Package, imports: map<string, GoImport>)
    requires IndexableMethodField(field)
    ensures MethodSpec(field, pkg, imports).Ok? <==>
      && field.typ.FuncType?
      && (forall i :: 0 <= i < |ParamFields(field.typ)| ==> Supported(ParamFields(field.typ)[i].typ))
      && (forall i :: 0 <= i < |ResultFields(field.typ)| ==> Supported(ResultFields(field.typ)[i].typ))
  {
    if field.typ.FuncType? {
      var pfs := ParamFields(field.typ);
      ParamListMeaning(pfs, pkg, imports);
      var ps := ParamList(pfs, pkg, imports);
      if ps.Ok? {
        ResultListMeaning(ResultFields(field.typ), pkg, field.names[0], ps.value.imports, imports);
      }
    }
  }

  /**
   * On success there is one parameter per parameter field and one result per
   * result field, in field order: the parameter keeps the field's first name
   * and parsed type, the result its first name (or none) and its parsed type
   * with the placeholder computed for this method.
   */
  lemma MethodEntries(field: Field, pkg: Package, imports: map<string, GoImport>)
    requires IndexableMethodField(field)
    requires MethodSpec(field, pkg, imports).Ok?
    ensures var m := MethodSpec(field, pkg, imports).value;
      var pfs := ParamFields(field.typ);
      var rfs := ResultFields(field.typ);
      && m.name == field.names[0]
      && m.usedPackages == []
      && |m.parameters.list| == |pfs|
      && (forall i :: 0 <= i < |pfs| ==>
            && Supported(pfs[i].typ)
            && m.parameters.list[i] == GoParameter(pfs[i].names[0], ParseParameterType(pfs[i].typ, pkg).value))
      && |m.results.list| == |rfs|
      && (forall i :: 0 <= i < |rfs| ==>
            && Supported(rfs[i].typ)
            && m.results.list[i] == GoParameter(ResultName(rfs[i]),
                 CalcStubInstantiateExpr(ParseParameterType(rfs[i].typ, pkg).value, m.name)))
  {
    var pfs := ParamFields(field.typ);
    ParamListMeaning(pfs, pkg, imports);
    var ps := ParamList(pfs, pkg, imports);
    ResultListMeaning(ResultFields(field.typ), pkg, field.names[0], ps.value.imports, imports);
  }

  /**
   * A rejected parameter or result names the first field whose type cannot
   * be parsed, with that field's parse error; all earlier fields parse.
   */
  lemma MethodErrorIsFirstFailure(field: Field, pkg: Package, imports: map<string, GoImport>)
    requires IndexableMethodField(field)
    requires MethodSpec(field, pkg, imports).Err?
    ensures var e := MethodSpec(field, pkg, imports).error;
      && (e.InvalidMethodType? <==> !field.typ.FuncType?)
      && e.methodName == field.names[0]
      && (e.ParamTypeFailed? ==>
            var pfs := ParamFields(field.typ);
            exists k :: 0 <= k < |pfs|
              && e.param == pfs[k].names[0]
              && ParseParameterType(pfs[k].typ, pkg) == Err(e.cause)
              && forall j :: 0 <= j < k ==> Supported(pfs[j].typ))
      && (e.ResultTypeFailed? ==>
            var rfs := ResultFields(field.typ);
            && e.index < |rfs|
            && ParseParameterType(rfs[e.index].typ, pkg) == Err(e.cause)
            && (forall i :: 0 <= i < |ParamFields(field.typ)| ==> Supported(ParamFields(field.typ)[i].typ))
            && forall j :: 0 <= j < e.index ==> Supported(rfs[j].typ))
  {
    if field.typ.FuncType? {
      var pfs := ParamFields(field.typ);
      ParamListMeaning(pfs, pkg, imports);
      var ps := ParamList(pfs, pkg, imports);
      if ps.Ok? {
        ResultListMeaning(ResultFields(field.typ), pkg, field.names[0], ps.value.imports, imports);
      } else {
        assert pfs[ps.error.0].names[0] == MethodSpec(field, pkg, imports).error.param;
      }
    }
  }

  /**
   * The parameters need the anyArg variable exactly when there is at least
   * one parameter: no parsed type is ever nil-able, because the nil-ability
   * is computed on a copy that is discarded.
   */
  lemma ParametersFlag(field: Field, pkg: Package, imports: map<string, GoImport>)
    requires IndexableMethodField(field)
    requires MethodSpec(field, pkg, imports).Ok?
    ensures var m := MethodSpec(field, pkg, imports).value;
      m.parameters.hasValueThroughAnyArg <==> |ParamFields(field.typ)| > 0
  {
    MethodEntries(field, pkg, imports);
    var m := MethodSpec(field, pkg, imports).value;
    if |m.parameters.list| > 0 {
      assert !m.parameters.list[0].typ.valueThroughNil;
    }
  }

  /**
   * The results need the anyArg variable exactly when some result's
   * placeholder is the type assertion on `anyArg`.
   */
  lemma ResultsFlag(field: Field, pkg: Package, imports: map<string, GoImport>)
    requires IndexableMethodField(field)
    requires MethodSpec(field, pkg, imports).Ok?
    ensures var m := MethodSpec(field, pkg, imports).value;
      m.results.hasValueThroughAnyArg <==>
        exists i :: 0 <= i < |m.results.list| && m.results.list[i].typ.value == AnyArgPlaceholder(m.results.list[i].typ.name)
  {
    MethodEntries(field, pkg, imports);
    var m := MethodSpec(field, pkg, imports).value;
    var rfs := ResultFields(field.typ);
    forall i | 0 <= i < |rfs|
      ensures m.results.list[i].typ.valueThroughVar <==>
              m.results.list[i].typ.value == AnyArgPlaceholder(m.results.list[i].typ.name)
    {
      CalcStubInstantiateExprEffect(ParseParameterType(rfs[i].typ, pkg).value, m.name);
    }
  }

  /**
   * The imports of an accepted method: every one was found in the import map
   * for a package some parameter or result type uses, every such package
   * found in the map is imported (up to alias and path), and no import is
   * listed twice.
   */
  lemma MethodImports(field: Field, pkg: Package, imports: map<string, GoImport>)
    requires IndexableMethodField(field)
    requires MethodSpec(field, pkg, imports).Ok?
    ensures var m := MethodSpec(field, pkg, imports).value;
      var found := Found(AllUsed(m.parameters.list + m.results.list), imports);
      && (forall g :: g in m.imports ==> g in found)
      && (forall f :: f in found ==> exists g :: g in m.imports && SameImport(g, f))
      && DistinctImports(m.imports)
  {
    var m := MethodSpec(field, pkg, imports).value;
    var ps := m.parameters.list;
    var rs := m.results.list;
    assert m.imports == ImportsOfEntries(ImportsOfEntries([], ps, imports), rs, imports);
    ImportsOfEntriesAppend([], ps, rs, imports);
    ImportsOfEntriesFlat([], ps + rs, imports);
    AddUsedImportsEffect([], AllUsed(ps + rs), imports);
  }
}
