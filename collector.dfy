/**
 * The stub layout collector of internal/stub/collector.go: it turns the
 * extracted interfaces and the two layout flags into the ordered list of
 * stub files to render.
 *
 * The name generator's templates are opaque fallible functions, and
 * `CreateReceiver` is a function the caller supplies. The common file name
 * takes no input, so it is a single outcome.
 */
module Collector {
  import opened Wrappers
  import opened Packages
  import opened Imports
  import opened Methods
  import opened Interfaces
  import opened Types

  /** `Stub`: one file to render. */
  datatype Stub = Stub(
    filename: string,
    package: Package,
    imports: seq<GoImport>,
    types: seq<Type>,
    genMethods: bool,
    genTypes: bool,
    methodBodyTpl: string)

  datatype CollectParams = CollectParams(
    goInterfaces: seq<GoInterface>,
    typePerFile: bool,
    methodPerFile: bool,
    methodBodyTpl: string,
    targetPackage: Option<Package>)

  /** The name templates of `renderer.NameGenerator`, each of which may fail. */
  datatype NameGenerator = NameGenerator(
    commonFilename: Result<string, string>,
    stubStructFilename: GoInterface -> Result<string, string>,
    stubPerMethodFilename: (Type, GoMethod) -> Result<string, string>,
    typeName: GoInterface -> Result<string, string>)

  datatype CollectError =
    | TypesFailed(interfaceName: string, cause: string) // "failed to collect types: failed to generate type name for interface %q: ..."
    | CommonFilenameFailed(cause: string)               // the common file name error, returned as is
    | PerTypeFailed(cause: string)                      // "failed to collect per type stubs: ..."
    | MethodStubsFailed(cause: string)                  // "failed to collect method stubs: ..."

  /** The first error of a `FirstFailure` outcome, without its index. */
  function DropIndex<T, E>(r: Result<seq<T>, (nat, E)>): Result<seq<T>, E> {
    match r
    case Ok(v) => Ok(v)
    case Err(e) => Err(e.1)
  }

  // ------------------------------------------------------ import filtering

  /** The map of a type's imports by alias and by short name; later imports overwrite. */
  function ImportsMap(imps: seq<GoImport>): map<string, GoImport>
    decreases |imps|
  {
    if imps == [] then map[]
    else
      var m := ImportsMap(imps[..|imps| - 1]);
      var g := imps[|imps| - 1];
      var byAlias := if g.alias != "" then m[g.alias := g] else m;
      if g.shortName != "" then byAlias[g.shortName := g] else byAlias
  }

  /** The import found for each used package, in used-package order. */
  function FilterImports(used: seq<string>, m: map<string, GoImport>): seq<GoImport>
    decreases |used|
  {
    if used == [] then []
    else
      var u := used[|used| - 1];
      FilterImports(used[..|used| - 1], m) + (if u in m then [m[u]] else [])
  }

  /** The imports a stub gets: none when the used-package set is empty, else the ones found. */
  function SelectImports(used: seq<string>, imps: seq<GoImport>): seq<GoImport> {
    if |used| > 0 then FilterImports(used, ImportsMap(imps)) else []
  }

  // ---------------------------------------------------------------- types

  /** The type `collectTypes` builds for an interface with a generated name. */
  function TypeOf(i: GoInterface, name: string, target: Option<Package>, receiverOf: string -> string): Type {
    Type(name, i.imports, if target.Some? then target.value else i.package, receiverOf(i.name), i.methods, i)
  }

  function TypeOutcome(i: GoInterface, gen: NameGenerator, target: Option<Package>, receiverOf: string -> string)
    : Result<Type, CollectError>
  {
    match gen.typeName(i)
    case Err(e) => Err(TypesFailed(i.name, e))
    case Ok(n) => Ok(TypeOf(i, n, target, receiverOf))
  }

  /** `collectTypes`. */
  function TypesSpec(ifaces: seq<GoInterface>, gen: NameGenerator, target: Option<Package>, receiverOf: string -> string)
    : (r: Result<seq<Type>, CollectError>)
    ensures r.Ok? ==> |r.value| == |ifaces|
  {
    DropIndex(FirstFailure(seq(|ifaces|, k requires 0 <= k < |ifaces| => TypeOutcome(ifaces[k], gen, target, receiverOf))))
  }

  // ---------------------------------------------------------------- stubs

  /** The stub `createCommonStub` builds: every type in one file. */
  function CommonStub(types: seq<Type>, params: CollectParams, gen: NameGenerator): Result<Stub, string>
    requires |types| > 0 || gen.commonFilename.Err?
  {
    match gen.commonFilename
    case Err(e) => Err(e)
    case Ok(fn) =>
      var pkg := if params.targetPackage.Some? then params.targetPackage.value else types[0].package;
      Ok(Stub(fn, pkg, types[0].imports, types, true, true, params.methodBodyTpl))
  }

  /** The stub `collectPerType` builds for one type. */
  function PerTypeStub(t: Type, params: CollectParams, gen: NameGenerator): Result<Stub, string> {
    match gen.stubStructFilename(t.iface)
    case Err(e) => Err(e)
    case Ok(fn) =>
      var imps := if !params.methodPerFile then SelectImports(t.iface.usedPackages, t.imports) else [];
      Ok(Stub(fn, t.package, imps, [t], !params.methodPerFile, true, params.methodBodyTpl))
  }

  function PerTypeOutcomes(types: seq<Type>, params: CollectParams, gen: NameGenerator): seq<Result<Stub, string>> {
    seq(|types|, k requires 0 <= k < |types| => PerTypeStub(types[k], params, gen))
  }

  /** `collectPerType`. */
  function PerTypeSpec(types: seq<Type>, params: CollectParams, gen: NameGenerator): (r: Result<seq<Stub>, string>)
    ensures r.Ok? ==> |r.value| == |types|
  {
    DropIndex(FirstFailure(PerTypeOutcomes(types, params, gen)))
  }

  /** The import of the interface's own package that a per-method stub gets when a target package is set. */
  function InterfacePackageImport(t: Type): GoImport {
    GoImport("", t.iface.package.fullName, "")
  }

  /** The stub `collectMethodStubs` builds for one method of a type. */
  function MethodStub(t: Type, m: GoMethod, params: CollectParams, gen: NameGenerator): Result<Stub, string> {
    match gen.stubPerMethodFilename(t, m)
    case Err(e) => Err(e)
    case Ok(fn) =>
      var single := Clone(t).(methods := [m]);
      var imps := SelectImports(m.usedPackages, t.imports);
      if params.targetPackage.Some? then
        Ok(Stub(fn, params.targetPackage.value, imps + [InterfacePackageImport(t)], [single], true, false, params.methodBodyTpl))
      else
        Ok(Stub(fn, t.package, imps, [single], true, false, params.methodBodyTpl))
  }

  function MethodOutcomesOf(t: Type, params: CollectParams, gen: NameGenerator): seq<Result<Stub, string>> {
    seq(|t.methods|, l requires 0 <= l < |t.methods| => MethodStub(t, t.methods[l], params, gen))
  }

  /** The inner loop of `collectMethodStubs`: one stub per method of `t`. */
  function TypeMethodStubs(t: Type, params: CollectParams, gen: NameGenerator): Result<seq<Stub>, string> {
    DropIndex(FirstFailure(MethodOutcomesOf(t, params, gen)))
  }

  /** `collectMethodStubs`: the method stubs of every type, type by type. */
  function MethodStubsSpec(types: seq<Type>, params: CollectParams, gen: NameGenerator): Result<seq<Stub>, string>
    decreases |types|
  {
    if types == [] then Ok([])
    else
      match MethodStubsSpec(types[..|types| - 1], params, gen)
      case Err(e) => Err(e)
      case Ok(ss) =>
        match TypeMethodStubs(types[|types| - 1], params, gen)
        case Err(e) => Err(e)
        case Ok(ts) => Ok(ss + ts)
  }

  /** What `Collect` needs to index the first type: interfaces, or a path that never reaches the index. */
  predicate CollectDefined(params: CollectParams, gen: NameGenerator) {
    |params.goInterfaces| > 0 || params.typePerFile || gen.commonFilename.Err?
  }

  /** The stub that closes a method-per-file layout: every type, declarations only. */
  function TypesOnlyStub(fn: string, types: seq<Type>): Stub
    requires |types| > 0
  {
    Stub(fn, types[0].package, [], types, false, true, "")
  }

  /** The specification of `Collect`. */
  function CollectSpec(params: CollectParams, gen: NameGenerator, receiverOf: string -> string): Result<seq<Stub>, CollectError>
    requires CollectDefined(params, gen)
  {
    match TypesSpec(params.goInterfaces, gen, params.targetPackage, receiverOf)
    case Err(e) => Err(e)
    case Ok(types) =>
      if !params.typePerFile && !params.methodPerFile then
        match CommonStub(types, params, gen)
        case Err(e) => Err(CommonFilenameFailed(e))
        case Ok(s) => Ok([s])
      else FilesSpec(types, params, gen)
  }

  /** The stubs `Collect` returns when files are split per type, per method or both. */
  function FilesSpec(types: seq<Type>, params: CollectParams, gen: NameGenerator): Result<seq<Stub>, CollectError>
    requires params.typePerFile || |types| > 0 || gen.commonFilename.Err?
  {
    var perType := if params.typePerFile then PerTypeSpec(types, params, gen) else Ok([]);
    if perType.Err? then Err(PerTypeFailed(perType.error))
    else
      var perMethod := if params.methodPerFile then MethodStubsSpec(types, params, gen) else Ok([]);
      if perMethod.Err? then Err(MethodStubsFailed(perMethod.error))
      else if params.typePerFile then Ok(perType.value + perMethod.value)
      else
        match gen.commonFilename
        case Err(e) => Err(CommonFilenameFailed(e))
        case Ok(fn) => Ok(perMethod.value + [TypesOnlyStub(fn, types)])
  }

  // -------------------------------------------------------------- methods

  /** The import filtering done for a per-type or per-method stub. */
  method UsedImports(used: seq<string>, imps: seq<GoImport>) returns (r: seq<GoImport>)
    ensures r == SelectImports(used, imps)
  {
    r := [];
    if |used| > 0 {
      var importsMap: map<string, GoImport> := map[];
      var i := 0;
      while i < |imps|
        invariant 0 <= i <= |imps|
        invariant importsMap == ImportsMap(imps[..i])
      {
        assert imps[..i + 1][..i] == imps[..i];
        var g := imps[i];
        if g.alias != "" {
          importsMap := importsMap[g.alias := g];
        }
        if g.shortName != "" {
          importsMap := importsMap[g.shortName := g];
        }
        i := i + 1;
      }
      assert imps[..|imps|] == imps;
      var j := 0;
      while j < |used|
        invariant 0 <= j <= |used|
        invariant r == FilterImports(used[..j], importsMap)
      {
        assert used[..j + 1][..j] == used[..j];
        if used[j] in importsMap {
          r := r + [importsMap[used[j]]];
        }
        j := j + 1;
      }
      assert used[..|used|] == used;
    }
  }

  /** `collectTypes`. */
  method CollectTypes(ifaces: seq<GoInterface>, gen: NameGenerator, target: Option<Package>, receiverOf: string -> string)
    returns (r: Result<seq<Type>, CollectError>)
    ensures r == TypesSpec(ifaces, gen, target, receiverOf)
  {
    ghost var outcomes := seq(|ifaces|, k requires 0 <= k < |ifaces| => TypeOutcome(ifaces[k], gen, target, receiverOf));
    var types: seq<Type> := [];
    var i := 0;
    while i < |ifaces|
      invariant 0 <= i <= |ifaces|
      invariant FirstFailure(outcomes[..i]) == Ok(types)
    {
      assert outcomes[..i + 1][..i] == outcomes[..i];
      assert outcomes[i] == TypeOutcome(ifaces[i], gen, target, receiverOf);
      var goInterface := ifaces[i];
      var typeName := gen.typeName(goInterface);
      if typeName.Err? {
        FirstFailureStops(outcomes, i);
        return Err(TypesFailed(goInterface.name, typeName.error));
      }
      var pkg := goInterface.package;
      if target.Some? {
        pkg := target.value;
      }
      types := types + [Type(typeName.value, goInterface.imports, pkg, receiverOf(goInterface.name), goInterface.methods, goInterface)];
      i := i + 1;
    }
    assert outcomes[..|ifaces|] == outcomes;
    r := Ok(types);
  }

  /**
   * `createCommonStub`: it fails exactly when the common file name does not
   * generate, with that error; otherwise one stub holds every type, in the
   * target package (or the first type's), with the first type's imports, and
   * generates both methods and types.
   */
  method CreateCommonStub(types: seq<Type>, params: CollectParams, gen: NameGenerator) returns (r: Result<Stub, string>)
    requires |types| > 0 || gen.commonFilename.Err?
    ensures r == CommonStub(types, params, gen)
    ensures r.Ok? <==> gen.commonFilename.Ok?
    ensures r.Err? ==> r.error == gen.commonFilename.error
    ensures r.Ok? ==>
      && r.value.filename == gen.commonFilename.value
      && r.value.package == (if params.targetPackage.Some? then params.targetPackage.value else types[0].package)
      && r.value.imports == types[0].imports
      && r.value.types == types
      && r.value.genMethods && r.value.genTypes
      && r.value.methodBodyTpl == params.methodBodyTpl
  {
    var filename := gen.commonFilename;
    if filename.Err? {
      return Err(filename.error);
    }
    var pkg := if params.targetPackage.Some? then params.targetPackage.value else types[0].package;
    r := Ok(Stub(filename.value, pkg, types[0].imports, types, true, true, params.methodBodyTpl));
  }

  /** One turn of the `collectPerType` loop: the file name, the filtered imports and the stub of one type. */
  method CreatePerTypeStub(typ: Type, params: CollectParams, gen: NameGenerator) returns (r: Result<Stub, string>)
    ensures r == PerTypeStub(typ, params, gen)
  {
    var filename := gen.stubStructFilename(typ.iface);
    if filename.Err? {
      return Err(filename.error);
    }
    var imports: seq<GoImport> := [];
    if !params.methodPerFile && |typ.iface.usedPackages| > 0 {
      imports := UsedImports(typ.iface.usedPackages, typ.imports);
    }
    r := Ok(Stub(filename.value, typ.package, imports, [typ], !params.methodPerFile, true, params.methodBodyTpl));
  }

  /** `collectPerType`. */
  method CollectPerType(types: seq<Type>, params: CollectParams, gen: NameGenerator) returns (r: Result<seq<Stub>, string>)
    ensures r == PerTypeSpec(types, params, gen)
  {
    ghost var outcomes := PerTypeOutcomes(types, params, gen);
    var stubs: seq<Stub> := [];
    var i := 0;
    while i < |types|
      invariant 0 <= i <= |types|
      invariant FirstFailure(outcomes[..i]) == Ok(stubs)
    {
      var stub := CreatePerTypeStub(types[i], params, gen);
      assert outcomes[i] == stub;
      if stub.Err? {
        FirstFailureStops(outcomes, i);
        return Err(stub.error);
      }
      FirstFailureGrows(outcomes, i);
      stubs := stubs + [stub.value];
      i := i + 1;
    }
    assert outcomes[..|types|] == outcomes;
    r := Ok(stubs);
  }

  /** One turn of the inner `collectMethodStubs` loop: the stub of one method of a type. */
  method CreateMethodStub(typ: Type, goMethod: GoMethod, params: CollectParams, gen: NameGenerator) returns (r: Result<Stub, string>)
    ensures r == MethodStub(typ, goMethod, params, gen)
  {
    var filename := gen.stubPerMethodFilename(typ, goMethod);
    if filename.Err? {
      return Err(filename.error);
    }
    var cType := Clone(typ);
    cType := cType.(methods := [goMethod]);
    var imports: seq<GoImport> := [];
    if |goMethod.usedPackages| > 0 {
      imports := UsedImports(goMethod.usedPackages, typ.imports);
    }
    var pkg := typ.package;
    if params.targetPackage.Some? {
      pkg := params.targetPackage.value;
      imports := imports + [GoImport("", typ.iface.package.fullName, "")];
    }
    r := Ok(Stub(filename.value, pkg, imports, [cType], true, false, params.methodBodyTpl));
  }

  /** The inner loop of `collectMethodStubs`, over the methods of one type. */
  method CollectTypeMethodStubs(typ: Type, params: CollectParams, gen: NameGenerator) returns (r: Result<seq<Stub>, string>)
    ensures r == TypeMethodStubs(typ, params, gen)
  {
    ghost var outcomes := MethodOutcomesOf(typ, params, gen);
    var stubs: seq<Stub> := [];
    var l := 0;
    while l < |typ.methods|
      invariant 0 <= l <= |typ.methods|
      invariant FirstFailure(outcomes[..l]) == Ok(stubs)
    {
      var stub := CreateMethodStub(typ, typ.methods[l], params, gen);
      assert outcomes[l] == stub;
      if stub.Err? {
        FirstFailureStops(outcomes, l);
        return Err(stub.error);
      }
      FirstFailureGrows(outcomes, l);
      stubs := stubs + [stub.value];
      l := l + 1;
    }
    assert outcomes[..|typ.methods|] == outcomes;
    r := Ok(stubs);
  }

  /** `collectMethodStubs`. */
  method CollectMethodStubs(types: seq<Type>, params: CollectParams, gen: NameGenerator) returns (r: Result<seq<Stub>, string>)
    ensures r == MethodStubsSpec(types, params, gen)
  {
    var stubs: seq<Stub> := [];
    var i := 0;
    while i < |types|
      invariant 0 <= i <= |types|
      invariant MethodStubsSpec(types[..i], params, gen) == Ok(stubs)
    {
      assert types[..i + 1][..i] == types[..i];
      var typeStubs := CollectTypeMethodStubs(types[i], params, gen);
      if typeStubs.Err? {
        MethodStubsStop(types, params, gen, i);
        return Err(typeStubs.error);
      }
      stubs := stubs + typeStubs.value;
      i := i + 1;
    }
    assert types[..|types|] == types;
    r := Ok(stubs);
  }

  /** The part of `Collect` that splits files per type, per method or both. */
  method CollectFiles(types: seq<Type>, params: CollectParams, gen: NameGenerator) returns (r: Result<seq<Stub>, CollectError>)
    requires params.typePerFile || params.methodPerFile
    requires params.typePerFile || |types| > 0 || gen.commonFilename.Err?
    ensures r == FilesSpec(types, params, gen)
  {
    var stubs: seq<Stub> := [];
    ghost var perType: seq<Stub> := [];
    ghost var perMethod: seq<Stub> := [];
    if params.typePerFile {
      var tpfStubs := CollectPerType(types, params, gen);
      if tpfStubs.Err? {
        return Err(PerTypeFailed(tpfStubs.error));
      }
      stubs := stubs + tpfStubs.value;
      perType := tpfStubs.value;
    }
    if params.methodPerFile {
      var methodStubs := CollectMethodStubs(types, params, gen);
      if methodStubs.Err? {
        return Err(MethodStubsFailed(methodStubs.error));
      }
      stubs := stubs + methodStubs.value;
      perMethod := methodStubs.value;
    }
    assert stubs == perType + perMethod;
    if !params.typePerFile && params.methodPerFile {
      var filename := gen.commonFilename;
      if filename.Err? {
        return Err(CommonFilenameFailed(filename.error));
      }
      stubs := stubs + [Stub(filename.value, types[0].package, [], types, false, true, "")];
      assert stubs == perMethod + [TypesOnlyStub(filename.value, types)];
    } else {
      assert params.typePerFile;
      assert stubs == perType + perMethod;
    }
    r := Ok(stubs);
  }

  /** `Collect`. */
  method Collect(params: CollectParams, gen: NameGenerator, receiverOf: string -> string)
    returns (r: Result<seq<Stub>, CollectError>)
    requires CollectDefined(params, gen)
    ensures r == CollectSpec(params, gen, receiverOf)
  {
    var types := CollectTypes(params.goInterfaces, gen, params.targetPackage, receiverOf);
    if types.Err? {
      return Err(types.error);
    }

    if !params.typePerFile && !params.methodPerFile {
      var st := CreateCommonStub(types.value, params, gen);
      if st.Err? {
        return Err(CommonFilenameFailed(st.error));
      }
      return Ok([st.value]);
    }

    r := CollectFiles(types.value, params, gen);
  }

  // --------------------------------------------------------------- lemmas

  /** When the types before `k` give their stubs and type `k` fails, the outer loop stops there. */
  lemma {:induction false} MethodStubsStop(types: seq<Type>, params: CollectParams, gen: NameGenerator, k: nat)
    requires k < |types|
    requires MethodStubsSpec(types[..k], params, gen).Ok?
    requires TypeMethodStubs(types[k], params, gen).Err?
    ensures MethodStubsSpec(types, params, gen) == Err(TypeMethodStubs(types[k], params, gen).error)
    decreases |types|
  {
    var n := |types| - 1;
    if k < n {
      assert types[..n][..k] == types[..k];
      assert types[..n][k] == types[k];
      MethodStubsStop(types[..n], params, gen, k);
    } else {
      assert types[..n] == types[..k];
    }
  }

  // ------------------------------------------------------ import filtering

  /** The import is found under `key`: by its alias or by its short name. */
  predicate HasKey(g: GoImport, key: string) {
    key != "" && (g.alias == key || g.shortName == key)
  }

  /**
   * The imports map has a key exactly for each non-empty alias or short name
   * of an import, and maps it to the last import found under it.
   */
  lemma ImportsMapMeaning(imps: seq<GoImport>, key: string)
    ensures key in ImportsMap(imps) <==> exists j :: 0 <= j < |imps| && HasKey(imps[j], key)
    ensures key in ImportsMap(imps) ==>
      exists j :: 0 <= j < |imps| && ImportsMap(imps)[key] == imps[j] && HasKey(imps[j], key)
        && forall l :: j < l < |imps| ==> !HasKey(imps[l], key)
  {
    ImportsMapKeys(imps, key);
    if key in ImportsMap(imps) {
      ImportsMapLastWins(imps, key);
    }
  }

  /** A key is in the map exactly when some import has it. */
  lemma {:induction false} ImportsMapKeys(imps: seq<GoImport>, key: string)
    ensures key in ImportsMap(imps) <==> exists j :: 0 <= j < |imps| && HasKey(imps[j], key)
    decreases |imps|
  {
    if imps != [] {
      var n := |imps| - 1;
      ImportsMapKeys(imps[..n], key);
      ImportsMapStep(imps, key);
      assert forall j :: 0 <= j < n ==> imps[..n][j] == imps[j];
    }
  }

  /** A key in the map holds the last import that has it. */
  lemma {:induction false} ImportsMapLastWins(imps: seq<GoImport>, key: string)
    requires key in ImportsMap(imps)
    ensures exists j :: 0 <= j < |imps| && ImportsMap(imps)[key] == imps[j] && HasKey(imps[j], key)
                        && forall l :: j < l < |imps| ==> !HasKey(imps[l], key)
    decreases |imps|
  {
    var n := |imps| - 1;
    var init := imps[..n];
    ImportsMapStep(imps, key);
    if HasKey(imps[n], key) {
      assert ImportsMap(imps)[key] == imps[n];
    } else {
      assert key in ImportsMap(init);
      ImportsMapLastWins(init, key);
      var j :| 0 <= j < n && ImportsMap(init)[key] == init[j] && HasKey(init[j], key)
        && forall l :: j < l < n ==> !HasKey(init[l], key);
      assert ImportsMap(imps)[key] == init[j] == imps[j];
      assert forall l :: j < l < n ==> init[l] == imps[l];
    }
  }

  /** One more import sets the keys it has and leaves every other key as it was. */
  lemma ImportsMapStep(imps: seq<GoImport>, key: string)
    requires imps != []
    ensures var m := ImportsMap(imps[..|imps| - 1]);
      var g := imps[|imps| - 1];
      && (key in ImportsMap(imps) <==> key in m || HasKey(g, key))
      && (HasKey(g, key) ==> ImportsMap(imps)[key] == g)
      && (!HasKey(g, key) && key in m ==> ImportsMap(imps)[key] == m[key])
  {
  }

  /** Filtering keeps used-package order: at most one import per used package, each found for one, and every one found. */
  lemma {:induction false} FilterImportsMeaning(used: seq<string>, m: map<string, GoImport>)
    ensures |FilterImports(used, m)| <= |used|
    ensures forall g :: g in FilterImports(used, m) ==> exists u :: u in used && u in m && m[u] == g
    ensures forall u :: u in used && u in m ==> m[u] in FilterImports(used, m)
    decreases |used|
  {
    if used != [] {
      var n := |used| - 1;
      FilterImportsMeaning(used[..n], m);
      assert used == used[..n] + [used[n]];
    }
  }

  /**
   * The imports a stub gets: none for an empty used-package set, at most one
   * per used package, each one an import of the type, and the import found
   * for every used package under an alias or short name.
   */
  lemma SelectImportsMeaning(used: seq<string>, imps: seq<GoImport>)
    ensures var r := SelectImports(used, imps);
      && (|used| == 0 ==> r == [])
      && |r| <= |used|
      && (forall g :: g in r ==> g in imps)
      && (forall u :: u in used && u in ImportsMap(imps) ==> ImportsMap(imps)[u] in r)
  {
    var m := ImportsMap(imps);
    FilterImportsMeaning(used, m);
    forall g | g in SelectImports(used, imps)
      ensures g in imps
    {
      var u :| u in used && u in m && m[u] == g;
      ImportsMapMeaning(imps, u);
    }
  }

  // ----------------------------------------------------------- the loops

  /**
   * `collectTypes` succeeds exactly when every type name can be generated;
   * it then gives one type per interface, in order, named by the template,
   * with the interface's imports, methods and receiver, and the target
   * package when one is set; otherwise it names the first failing interface.
   */
  lemma TypesMeaning(ifaces: seq<GoInterface>, gen: NameGenerator, target: Option<Package>, receiverOf: string -> string)
    ensures var r := TypesSpec(ifaces, gen, target, receiverOf);
      && (r.Ok? <==> forall k :: 0 <= k < |ifaces| ==> gen.typeName(ifaces[k]).Ok?)
      && (r.Ok? ==> forall k :: 0 <= k < |ifaces| ==>
            var t := r.value[k];
            && t.name == gen.typeName(ifaces[k]).value
            && t.imports == ifaces[k].imports
            && t.methods == ifaces[k].methods
            && t.iface == ifaces[k]
            && t.receiver == receiverOf(ifaces[k].name)
            && t.package == (if target.Some? then target.value else ifaces[k].package))
      && (r.Err? ==>
            exists k :: 0 <= k < |ifaces|
              && gen.typeName(ifaces[k]).Err?
              && r.error == TypesFailed(ifaces[k].name, gen.typeName(ifaces[k]).error)
              && forall j :: 0 <= j < k ==> gen.typeName(ifaces[j]).Ok?)
  {
    var os := seq(|ifaces|, k requires 0 <= k < |ifaces| => TypeOutcome(ifaces[k], gen, target, receiverOf));
    FirstFailureMeaning(os);
    var f := FirstFailure(os);
    assert forall k :: 0 <= k < |ifaces| ==> os[k] == TypeOutcome(ifaces[k], gen, target, receiverOf);
    if f.Err? {
      var k := f.error.0;
      assert os[k].Err?;
    }
  }

  /**
   * `collectPerType` succeeds exactly when every per-type file name can be
   * generated; it then gives one stub per type, in order, holding just that
   * type, generating its declaration and, unless methods get files of their
   * own, its methods and the filtered imports.
   */
  lemma PerTypeMeaning(types: seq<Type>, params: CollectParams, gen: NameGenerator)
    ensures var r := PerTypeSpec(types, params, gen);
      && (r.Ok? <==> forall k :: 0 <= k < |types| ==> gen.stubStructFilename(types[k].iface).Ok?)
      && (r.Ok? ==> |r.value| == |types| && forall k :: 0 <= k < |types| ==>
            var s := r.value[k];
            && s.filename == gen.stubStructFilename(types[k].iface).value
            && s.types == [types[k]]
            && s.genTypes
            && s.genMethods == !params.methodPerFile
            && s.package == types[k].package
            && s.imports == (if params.methodPerFile then [] else SelectImports(types[k].iface.usedPackages, types[k].imports))
            && s.methodBodyTpl == params.methodBodyTpl)
  {
    var os := PerTypeOutcomes(types, params, gen);
    FirstFailureMeaning(os);
    var f := FirstFailure(os);
    assert forall k :: 0 <= k < |types| ==> os[k] == PerTypeStub(types[k], params, gen);
    if f.Err? {
      assert os[f.error.0].Err?;
    }
  }

  /**
   * A per-method stub holds a clone of the type with that one method,
   * generates methods but no declaration, and gets the imports filtered by
   * the method's used packages; with a target package it is placed there and
   * also imports the interface's own package, last.
   */
  lemma MethodStubMeaning(t: Type, m: GoMethod, params: CollectParams, gen: NameGenerator)
    requires gen.stubPerMethodFilename(t, m).Ok?
    ensures var s := MethodStub(t, m, params, gen).value;
      && s.filename == gen.stubPerMethodFilename(t, m).value
      && |s.types| == 1 && s.types[0].methods == [m]
      && s.types[0] == t.(methods := [m])
      && !s.genTypes && s.genMethods
      && s.methodBodyTpl == params.methodBodyTpl
      && (params.targetPackage.None? ==> s.package == t.package && s.imports == SelectImports(m.usedPackages, t.imports))
      && (params.targetPackage.Some? ==>
            && s.package == params.targetPackage.value
            && s.imports == SelectImports(m.usedPackages, t.imports) + [GoImport("", t.iface.package.fullName, "")])
  {
  }

  /** The number of methods of all the types. */
  function TotalMethods(types: seq<Type>): nat
    decreases |types|
  {
    if types == [] then 0 else TotalMethods(types[..|types| - 1]) + |types[|types| - 1].methods|
  }

  /** The number of methods of all the interfaces. */
  function InterfaceMethodCount(ifaces: seq<GoInterface>): nat
    decreases |ifaces|
  {
    if ifaces == [] then 0 else InterfaceMethodCount(ifaces[..|ifaces| - 1]) + |ifaces[|ifaces| - 1].methods|
  }

  /** The method stubs of the types before `j` are followed by those of type `j`. */
  lemma TypeMethodsMeaning(t: Type, params: CollectParams, gen: NameGenerator)
    ensures var r := TypeMethodStubs(t, params, gen);
      && (r.Ok? <==> forall l :: 0 <= l < |t.methods| ==> gen.stubPerMethodFilename(t, t.methods[l]).Ok?)
      && (r.Ok? ==>
            && |r.value| == |t.methods|
            && forall l :: 0 <= l < |t.methods| ==> MethodStub(t, t.methods[l], params, gen) == Ok(r.value[l]))
  {
    var os := MethodOutcomesOf(t, params, gen);
    FirstFailureMeaning(os);
    var f := FirstFailure(os);
    assert forall l :: 0 <= l < |t.methods| ==> os[l] == MethodStub(t, t.methods[l], params, gen);
    if f.Err? {
      assert os[f.error.0].Err?;
    }
  }

  /**
   * `collectMethodStubs` succeeds exactly when every per-method file name can
   * be generated, and then gives one stub per method.
   */
  lemma {:induction false} MethodStubsSucceed(types: seq<Type>, params: CollectParams, gen: NameGenerator)
    ensures var r := MethodStubsSpec(types, params, gen);
      && (r.Ok? <==> forall j, l :: 0 <= j < |types| && 0 <= l < |types[j].methods| ==>
                       gen.stubPerMethodFilename(types[j], types[j].methods[l]).Ok?)
      && (r.Ok? ==> |r.value| == TotalMethods(types))
    decreases |types|
  {
    if types != [] {
      var n := |types| - 1;
      var init := types[..n];
      MethodStubsSucceed(init, params, gen);
      TypeMethodsMeaning(types[n], params, gen);
      assert forall j :: 0 <= j < n ==> init[j] == types[j];
    }
  }

  /**
   * The order of the method stubs: the stub of method `l` of type `j` comes
   * right after the stubs of the methods of the types before `j` and of the
   * methods before `l`.
   */
  lemma {:induction false} MethodStubAt(types: seq<Type>, params: CollectParams, gen: NameGenerator, j: nat, l: nat)
    requires MethodStubsSpec(types, params, gen).Ok?
    requires j < |types| && l < |types[j].methods|
    ensures var r := MethodStubsSpec(types, params, gen).value;
      && TotalMethods(types[..j]) + l < |r|
      && MethodStub(types[j], types[j].methods[l], params, gen) == Ok(r[TotalMethods(types[..j]) + l])
    decreases |types|
  {
    var n := |types| - 1;
    var init := types[..n];
    if j < n {
      assert init[j] == types[j] && init[..j] == types[..j];
      MethodStubAt(init, params, gen, j, l);
      StubOfInit(types, params, gen, TotalMethods(types[..j]) + l);
    } else {
      assert types[..j] == init;
      StubOfLast(types, params, gen, l);
    }
  }

  /** The stubs of all but the last type keep their places. */
  lemma StubOfInit(types: seq<Type>, params: CollectParams, gen: NameGenerator, at: nat)
    requires MethodStubsSpec(types, params, gen).Ok? && |types| > 0
    requires MethodStubsSpec(types[..|types| - 1], params, gen).Ok?
    requires at < |MethodStubsSpec(types[..|types| - 1], params, gen).value|
    ensures at < |MethodStubsSpec(types, params, gen).value|
    ensures MethodStubsSpec(types, params, gen).value[at] == MethodStubsSpec(types[..|types| - 1], params, gen).value[at]
  {
    MethodStubsSnoc(types, params, gen);
  }

  /** The stubs of the last type follow those of all the types before it. */
  lemma StubOfLast(types: seq<Type>, params: CollectParams, gen: NameGenerator, l: nat)
    requires MethodStubsSpec(types, params, gen).Ok? && |types| > 0
    requires l < |types[|types| - 1].methods|
    ensures var r := MethodStubsSpec(types, params, gen).value;
      var at := TotalMethods(types[..|types| - 1]) + l;
      && at < |r|
      && MethodStub(types[|types| - 1], types[|types| - 1].methods[l], params, gen) == Ok(r[at])
  {
    var n := |types| - 1;
    MethodStubsSnoc(types, params, gen);
    MethodStubsLength(types[..n], params, gen);
    TypeMethodStubAt(types[n], params, gen, l);
  }

  /** A successful `collectMethodStubs` has one stub per method. */
  lemma MethodStubsLength(types: seq<Type>, params: CollectParams, gen: NameGenerator)
    requires MethodStubsSpec(types, params, gen).Ok?
    ensures |MethodStubsSpec(types, params, gen).value| == TotalMethods(types)
  {
    MethodStubsSucceed(types, params, gen);
  }

  /** The stub of method `l` of one type sits at index `l` of that type's stubs. */
  lemma TypeMethodStubAt(t: Type, params: CollectParams, gen: NameGenerator, l: nat)
    requires TypeMethodStubs(t, params, gen).Ok? && l < |t.methods|
    ensures l < |TypeMethodStubs(t, params, gen).value|
    ensures MethodStub(t, t.methods[l], params, gen) == Ok(TypeMethodStubs(t, params, gen).value[l])
  {
    TypeMethodsMeaning(t, params, gen);
  }

  /** A successful `collectMethodStubs` is the stubs of all but the last type, then the last type's. */
  lemma MethodStubsSnoc(types: seq<Type>, params: CollectParams, gen: NameGenerator)
    requires MethodStubsSpec(types, params, gen).Ok? && |types| > 0
    ensures var init := MethodStubsSpec(types[..|types| - 1], params, gen);
      var last := TypeMethodStubs(types[|types| - 1], params, gen);
      && init.Ok? && last.Ok?
      && MethodStubsSpec(types, params, gen).value == init.value + last.value
  {
  }

  lemma {:induction false} MethodCountsAgree(ifaces: seq<GoInterface>, types: seq<Type>)
    requires |types| == |ifaces|
    requires forall k :: 0 <= k < |ifaces| ==> types[k].methods == ifaces[k].methods
    ensures TotalMethods(types) == InterfaceMethodCount(ifaces)
    decreases |types|
  {
    if types != [] {
      var n := |types| - 1;
      MethodCountsAgree(ifaces[..n], types[..n]);
    }
  }

  // ---------------------------------------------------------------- Collect

  /** How many stubs `Collect` returns for the layout flags. */
  function StubCount(params: CollectParams): nat {
    var ifaces := params.goInterfaces;
    if !params.typePerFile && !params.methodPerFile then 1
    else if params.typePerFile && !params.methodPerFile then |ifaces|
    else if !params.typePerFile then InterfaceMethodCount(ifaces) + 1
    else |ifaces| + InterfaceMethodCount(ifaces)
  }

  /**
   * The number of stubs: one common stub without flags, one per interface
   * for files per type, one per method plus the types-only stub for files
   * per method, and both kinds when both flags are set.
   */
  lemma CollectStubCount(params: CollectParams, gen: NameGenerator, receiverOf: string -> string)
    requires CollectDefined(params, gen)
    requires CollectSpec(params, gen, receiverOf).Ok?
    ensures |CollectSpec(params, gen, receiverOf).value| == StubCount(params)
  {
    var types := TypesSpec(params.goInterfaces, gen, params.targetPackage, receiverOf).value;
    TypesMeaning(params.goInterfaces, gen, params.targetPackage, receiverOf);
    MethodCountsAgree(params.goInterfaces, types);
    PerTypeMeaning(types, params, gen);
    MethodStubsSucceed(types, params, gen);
  }

  /** Without flags, the single stub holds every type and generates both declarations and methods. */
  lemma CollectCommonStub(params: CollectParams, gen: NameGenerator, receiverOf: string -> string)
    requires CollectDefined(params, gen)
    requires CollectSpec(params, gen, receiverOf).Ok?
    requires !params.typePerFile && !params.methodPerFile
    ensures var stubs := CollectSpec(params, gen, receiverOf).value;
      var types := TypesSpec(params.goInterfaces, gen, params.targetPackage, receiverOf).value;
      && |stubs| == 1 && |types| > 0
      && stubs[0].types == types && stubs[0].genTypes && stubs[0].genMethods
      && stubs[0].imports == types[0].imports
      && stubs[0].package == (if params.targetPackage.Some? then params.targetPackage.value else params.goInterfaces[0].package)
      && stubs[0].methodBodyTpl == params.methodBodyTpl
  {
    TypesMeaning(params.goInterfaces, gen, params.targetPackage, receiverOf);
  }

  /** With files per type, the per-type stubs come first, one per interface, in interface order. */
  lemma CollectPerTypeFirst(params: CollectParams, gen: NameGenerator, receiverOf: string -> string)
    requires CollectDefined(params, gen)
    requires CollectSpec(params, gen, receiverOf).Ok?
    requires params.typePerFile
    ensures var stubs := CollectSpec(params, gen, receiverOf).value;
      var types := TypesSpec(params.goInterfaces, gen, params.targetPackage, receiverOf).value;
      forall k :: 0 <= k < |types| ==> k < |stubs| && PerTypeStub(types[k], params, gen) == Ok(stubs[k])
  {
    var types := TypesSpec(params.goInterfaces, gen, params.targetPackage, receiverOf).value;
    PerTypeMeaning(types, params, gen);
  }

  /** Type `k` carries the methods of interface `k`. */
  lemma TypeKeepsMethods(ifaces: seq<GoInterface>, gen: NameGenerator, target: Option<Package>, receiverOf: string -> string, k: nat)
    requires TypesSpec(ifaces, gen, target, receiverOf).Ok?
    requires k < |ifaces|
    ensures TypesSpec(ifaces, gen, target, receiverOf).value[k].methods == ifaces[k].methods
  {
    TypesMeaning(ifaces, gen, target, receiverOf);
  }

  /** Under files per method the method stubs sit right after the per-type stubs, if any. */
  lemma MethodStubsInCollect(params: CollectParams, gen: NameGenerator, receiverOf: string -> string)
    requires CollectDefined(params, gen)
    requires CollectSpec(params, gen, receiverOf).Ok?
    requires params.methodPerFile
    ensures var stubs := CollectSpec(params, gen, receiverOf).value;
      var types := TypesSpec(params.goInterfaces, gen, params.targetPackage, receiverOf).value;
      var base := if params.typePerFile then |types| else 0;
      var ms := MethodStubsSpec(types, params, gen);
      && ms.Ok? && base + |ms.value| <= |stubs|
      && stubs[base..base + |ms.value|] == ms.value
  {
    var types := TypesSpec(params.goInterfaces, gen, params.targetPackage, receiverOf).value;
    var ms := MethodStubsSpec(types, params, gen).value;
    if params.typePerFile {
      var pt := PerTypeSpec(types, params, gen).value;
      assert (pt + ms)[|pt|..|pt| + |ms|] == ms;
    } else {
      var fn := gen.commonFilename.value;
      assert (ms + [TypesOnlyStub(fn, types)])[0..|ms|] == ms;
    }
  }

  /**
   * With files per method, the per-method stubs follow the per-type ones,
   * type by type and method by method.
   */
  lemma CollectMethodStubsFollow(params: CollectParams, gen: NameGenerator, receiverOf: string -> string, j: nat, l: nat)
    requires CollectDefined(params, gen)
    requires CollectSpec(params, gen, receiverOf).Ok?
    requires params.methodPerFile
    requires j < |params.goInterfaces| && l < |params.goInterfaces[j].methods|
    ensures var stubs := CollectSpec(params, gen, receiverOf).value;
      var types := TypesSpec(params.goInterfaces, gen, params.targetPackage, receiverOf).value;
      var base := if params.typePerFile then |types| else 0;
      && base + TotalMethods(types[..j]) + l < |stubs|
      && MethodStub(types[j], params.goInterfaces[j].methods[l], params, gen) == Ok(stubs[base + TotalMethods(types[..j]) + l])
  {
    var types := TypesSpec(params.goInterfaces, gen, params.targetPackage, receiverOf).value;
    TypeKeepsMethods(params.goInterfaces, gen, params.targetPackage, receiverOf, j);
    MethodStubAt(types, params, gen, j, l);
    MethodStubsInCollect(params, gen, receiverOf);
    var base := if params.typePerFile then |types| else 0;
    var ms := MethodStubsSpec(types, params, gen).value;
    var stubs := CollectSpec(params, gen, receiverOf).value;
    assert stubs[base..base + |ms|][TotalMethods(types[..j]) + l] == ms[TotalMethods(types[..j]) + l];
  }

  /** With files per method only, a last stub holds every type and generates declarations only. */
  lemma CollectTypesOnlyLast(params: CollectParams, gen: NameGenerator, receiverOf: string -> string)
    requires CollectDefined(params, gen)
    requires CollectSpec(params, gen, receiverOf).Ok?
    requires !params.typePerFile && params.methodPerFile
    ensures var stubs := CollectSpec(params, gen, receiverOf).value;
      var types := TypesSpec(params.goInterfaces, gen, params.targetPackage, receiverOf).value;
      && |stubs| > 0 && |types| > 0
      && stubs[|stubs| - 1].types == types
      && stubs[|stubs| - 1].genTypes && !stubs[|stubs| - 1].genMethods
      && stubs[|stubs| - 1].imports == []
      && stubs[|stubs| - 1].filename == gen.commonFilename.value
  {
  }

  /** With a target package, every stub is placed in it. */
  lemma CollectTargetPackage(params: CollectParams, gen: NameGenerator, receiverOf: string -> string)
    requires CollectDefined(params, gen)
    requires CollectSpec(params, gen, receiverOf).Ok?
    requires params.targetPackage.Some?
    ensures forall s :: s in CollectSpec(params, gen, receiverOf).value ==> s.package == params.targetPackage.value
  {
    var ifaces := params.goInterfaces;
    var types := TypesSpec(ifaces, gen, params.targetPackage, receiverOf).value;
    TypesMeaning(ifaces, gen, params.targetPackage, receiverOf);
    var stubs := CollectSpec(params, gen, receiverOf).value;
    var perType := if params.typePerFile then PerTypeSpec(types, params, gen).value else [];
    var perMethod := if params.methodPerFile then MethodStubsSpec(types, params, gen).value else [];
    if params.typePerFile {
      PerTypeMeaning(types, params, gen);
      assert forall s :: s in perType ==> s.package == params.targetPackage.value;
    }
    if params.methodPerFile {
      forall s | s in perMethod
        ensures s.package == params.targetPackage.value
      {
        var i :| 0 <= i < |perMethod| && perMethod[i] == s;
        MethodStubIsPlaced(types, params, gen, i);
      }
    }
  }

  /** Each stub `collectMethodStubs` builds with a target package is placed in it. */
  lemma {:induction false} MethodStubIsPlaced(types: seq<Type>, params: CollectParams, gen: NameGenerator, i: nat)
    requires MethodStubsSpec(types, params, gen).Ok?
    requires i < |MethodStubsSpec(types, params, gen).value|
    requires params.targetPackage.Some?
    ensures MethodStubsSpec(types, params, gen).value[i].package == params.targetPackage.value
    decreases |types|
  {
    var n := |types| - 1;
    var ss := MethodStubsSpec(types[..n], params, gen).value;
    if i < |ss| {
      MethodStubIsPlaced(types[..n], params, gen, i);
    } else {
      var t := types[n];
      TypeMethodsMeaning(t, params, gen);
      var l := i - |ss|;
      MethodStubMeaning(t, t.methods[l], params, gen);
    }
  }

  /** Every name the collector generates on its way succeeds. */
  predicate NamesGenerate(params: CollectParams, gen: NameGenerator, types: seq<Type>) {
    && ((!params.typePerFile) ==> gen.commonFilename.Ok?)
    && (params.typePerFile ==> forall k :: 0 <= k < |types| ==> gen.stubStructFilename(types[k].iface).Ok?)
    && (params.methodPerFile ==> forall j, l :: 0 <= j < |types| && 0 <= l < |types[j].methods| ==>
          gen.stubPerMethodFilename(types[j], types[j].methods[l]).Ok?)
  }

  /**
   * `Collect` returns stubs exactly when every type name and every file name
   * it needs can be generated; any failure gives an error and no stubs.
   */
  lemma CollectSucceeds(params: CollectParams, gen: NameGenerator, receiverOf: string -> string)
    requires CollectDefined(params, gen)
    ensures var tr := TypesSpec(params.goInterfaces, gen, params.targetPackage, receiverOf);
      CollectSpec(params, gen, receiverOf).Ok? <==>
        && (forall k :: 0 <= k < |params.goInterfaces| ==> gen.typeName(params.goInterfaces[k]).Ok?)
        && tr.Ok? && NamesGenerate(params, gen, tr.value)
  {
    var tr := TypesSpec(params.goInterfaces, gen, params.targetPackage, receiverOf);
    TypesMeaning(params.goInterfaces, gen, params.targetPackage, receiverOf);
    if tr.Ok? {
      PerTypeMeaning(tr.value, params, gen);
      MethodStubsSucceed(tr.value, params, gen);
    }
  }
}
