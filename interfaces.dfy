/**
 * Interface extraction of internal/golang/interface.go.
 *
 * The parser is abstracted: a parsed file is its package name, its imports
 * (in the order the import groups yield them) and its type declarations in
 * the order the tree walk meets them. The package of the file is computed by
 * a function the caller supplies (the module finder).
 */
module Interfaces {
  import opened Wrappers
  import opened Ast
  import opened Packages
  import opened Imports
  import opened Methods

  /**
   * `GoInterface`. `usedPackages` is the used-package list the collector
   * reads; the extractor never fills it.
   */
  datatype GoInterface = GoInterface(
    name: string,
    imports: seq<GoImport>,
    package: Package,
    methods: seq<GoMethod>,
    usedPackages: seq<string>)

  datatype SourceFile = SourceFile(packageName: string, imports: seq<GoImport>, typeSpecs: seq<TypeSpec>)

  /** The extracted file: the file's own imports and the kept interfaces. */
  datatype File = File(imports: seq<GoImport>, interfaces: seq<GoInterface>)

  datatype InterfaceError =
    | SourceParseFailed(message: string)                          // "failed to parse parsedFile: ..."
    | MethodFailed(interfaceName: string, cause: MethodError)     // "failed to parse method for interface %q: ..."

  /** What the tree walk leaves behind: the appended values and the last recorded error. */
  datatype Gathered<T, E> = Gathered(values: seq<T>, err: Option<E>)

  // ------------------------------------------------------- short-name map

  /** The key an import is found under: its alias, or the last segment of its path. */
  function ShortNameKey(g: GoImport): string {
    if g.alias != "" then g.alias else g.shortName
  }

  /** The short-name map after setting every import in order; later ones overwrite. */
  function ShortNameMap(imps: seq<GoImport>): map<string, GoImport>
    decreases |imps|
  {
    if imps == [] then map[]
    else
      var last := imps[|imps| - 1];
      ShortNameMap(imps[..|imps| - 1])[ShortNameKey(last) := last]
  }

  /** The allow-list test `isNeed`: an empty list keeps every name. */
  predicate IsNeeded(filterNames: seq<string>, name: string) {
    |filterNames| == 0 || name in filterNames
  }

  /** The type declarations the walk turns into interfaces. */
  predicate Candidate(filterNames: seq<string>, spec: TypeSpec) {
    IsNeeded(filterNames, spec.name) && spec.typ.InterfaceType?
  }

  /** Every method field of every interface the walk examines can be indexed. */
  predicate ExaminedIndexable(specs: seq<TypeSpec>, filterNames: seq<string>) {
    forall k :: 0 <= k < |specs| && Candidate(filterNames, specs[k]) ==> MethodFieldsIndexable(specs[k].typ.methods)
  }

  predicate MethodFieldsIndexable(fields: seq<Field>) {
    forall i :: 0 <= i < |fields| ==> IndexableMethodField(fields[i])
  }

  // ------------------------------------------------------- specification

  function MethodOutcomes(fields: seq<Field>, pkg: Package, shortNames: map<string, GoImport>): seq<Result<GoMethod, MethodError>>
    requires MethodFieldsIndexable(fields)
  {
    seq(|fields|, i requires 0 <= i < |fields| => MethodSpec(fields[i], pkg, shortNames))
  }

  /** Every import of `imps` added in order. */
  function AddImports(acc: seq<GoImport>, imps: seq<GoImport>): seq<GoImport>
    decreases |imps|
  {
    if imps == [] then acc
    else AddImport(AddImports(acc, imps[..|imps| - 1]), imps[|imps| - 1])
  }

  /** The imports of an interface: its methods' imports added method by method. */
  function InterfaceImports(methods: seq<GoMethod>): seq<GoImport>
    decreases |methods|
  {
    if methods == [] then []
    else AddImports(InterfaceImports(methods[..|methods| - 1]), methods[|methods| - 1].imports)
  }

  /** The interface one interface declaration gives, or the error of its first failing method. */
  function InterfaceSpec(spec: TypeSpec, pkg: Package, shortNames: map<string, GoImport>): Result<GoInterface, InterfaceError>
    requires spec.typ.InterfaceType?
    requires MethodFieldsIndexable(spec.typ.methods)
  {
    match FirstFailure(MethodOutcomes(spec.typ.methods, pkg, shortNames))
    case Err(e) => Err(MethodFailed(spec.name, e.1))
    case Ok(ms) => Ok(GoInterface(spec.name, InterfaceImports(ms), pkg, ms, []))
  }

  /** What the walk callback does with one declaration: nothing, or the interface or error it gives. */
  function Outcome(filterNames: seq<string>, spec: TypeSpec, pkg: Package, shortNames: map<string, GoImport>)
    : Option<Result<GoInterface, InterfaceError>>
    requires Candidate(filterNames, spec) ==> MethodFieldsIndexable(spec.typ.methods)
  {
    if Candidate(filterNames, spec) then Some(InterfaceSpec(spec, pkg, shortNames)) else None
  }

  function Outcomes(specs: seq<TypeSpec>, filterNames: seq<string>, pkg: Package, shortNames: map<string, GoImport>)
    : seq<Option<Result<GoInterface, InterfaceError>>>
    requires ExaminedIndexable(specs, filterNames)
  {
    seq(|specs|, k requires 0 <= k < |specs| && ExaminedIndexable(specs, filterNames) => Outcome(filterNames, specs[k], pkg, shortNames))
  }

  /**
   * The walk over the outcomes in walk order: a value is appended, an error
   * replaces the recorded one and the walk goes on.
   */
  function Gather<T, E>(outs: seq<Option<Result<T, E>>>): Gathered<T, E>
    decreases |outs|
  {
    if outs == [] then Gathered([], None)
    else
      var w := Gather(outs[..|outs| - 1]);
      match outs[|outs| - 1]
      case None => w
      case Some(Err(e)) => Gathered(w.values, Some(e))
      case Some(Ok(v)) => Gathered(w.values + [v], w.err)
  }

  /** The specification of `ParseInterfacesFromSource`: the file (absent when the source does not parse) and the error. */
  function ExtractSpec(parsed: Result<SourceFile, string>, calcPackage: string -> Package, filterNames: seq<string>)
    : (Option<File>, Option<InterfaceError>)
    requires parsed.Ok? ==> ExaminedIndexable(parsed.value.typeSpecs, filterNames)
  {
    match parsed
    case Err(msg) => (None, Some(SourceParseFailed(msg)))
    case Ok(src) =>
      var w := Gather(Outcomes(src.typeSpecs, filterNames, calcPackage(src.packageName), ShortNameMap(src.imports)));
      (Some(File(src.imports, w.values)), w.err)
  }

  // ------------------------------------------------------------- methods

  /** The inner loop adding one method's imports to the interface's imports. */
  method AddAllImports(acc: seq<GoImport>, imps: seq<GoImport>) returns (r: seq<GoImport>)
    ensures r == AddImports(acc, imps)
  {
    r := acc;
    var j := 0;
    while j < |imps|
      invariant 0 <= j <= |imps|
      invariant r == AddImports(acc, imps[..j])
    {
      assert imps[..j + 1][..j] == imps[..j];
      r := AddImport(r, imps[j]);
      j := j + 1;
    }
    assert imps[..|imps|] == imps;
  }

  /** The loop over the interface's method fields; it stops at the first failing method. */
  method ParseMethods(fields: seq<Field>, pkg: Package, shortNames: map<string, GoImport>)
    returns (r: Result<seq<GoMethod>, (nat, MethodError)>)
    requires MethodFieldsIndexable(fields)
    ensures r == FirstFailure(MethodOutcomes(fields, pkg, shortNames))
  {
    ghost var outcomes := MethodOutcomes(fields, pkg, shortNames);
    var methods: seq<GoMethod> := [];
    var i := 0;
    while i < |fields|
      invariant 0 <= i <= |fields|
      invariant FirstFailure(outcomes[..i]) == Ok(methods)
    {
      var m := ParseMethodFromField(fields[i], pkg, shortNames);
      assert outcomes[i] == m;
      if m.Err? {
        FirstFailureStops(outcomes, i);
        return Err((i, m.error));
      }
      FirstFailureGrows(outcomes, i);
      methods := methods + [m.value];
      i := i + 1;
    }
    assert outcomes[..|fields|] == outcomes;
    r := Ok(methods);
  }

  /** The loop adding every method's imports to the interface's imports. */
  method CollectInterfaceImports(methods: seq<GoMethod>) returns (imps: seq<GoImport>)
    ensures imps == InterfaceImports(methods)
  {
    imps := [];
    var j := 0;
    while j < |methods|
      invariant 0 <= j <= |methods|
      invariant imps == InterfaceImports(methods[..j])
    {
      assert methods[..j + 1][..j] == methods[..j];
      imps := AddAllImports(imps, methods[j].imports);
      j := j + 1;
    }
    assert methods[..|methods|] == methods;
  }

  /** The body of the walk callback for one interface declaration. */
  method ParseInterface(spec: TypeSpec, pkg: Package, shortNames: map<string, GoImport>)
    returns (r: Result<GoInterface, InterfaceError>)
    requires spec.typ.InterfaceType?
    requires MethodFieldsIndexable(spec.typ.methods)
    ensures r == InterfaceSpec(spec, pkg, shortNames)
  {
    var methods := ParseMethods(spec.typ.methods, pkg, shortNames);
    if methods.Err? {
      return Err(MethodFailed(spec.name, methods.error.1));
    }
    var imps := CollectInterfaceImports(methods.value);
    r := Ok(GoInterface(spec.name, imps, pkg, methods.value, []));
  }

  /** The allow-list as a set: every listed name maps to true. */
  method NeedSet(filterNames: seq<string>) returns (need: map<string, bool>)
    ensures forall name :: name in need <==> name in filterNames
    ensures forall name :: name in need ==> need[name]
  {
    need := map[];
    var i := 0;
    while i < |filterNames|
      invariant 0 <= i <= |filterNames|
      invariant forall name :: name in need <==> name in filterNames[..i]
      invariant forall name :: name in need ==> need[name]
    {
      assert filterNames[..i + 1] == filterNames[..i] + [filterNames[i]];
      need := need[filterNames[i] := true];
      i := i + 1;
    }
    assert filterNames[..|filterNames|] == filterNames;
  }

  /** The loop filling `importsShortnameMap`. */
  method BuildShortNameMap(imps: seq<GoImport>) returns (m: map<string, GoImport>)
    ensures m == ShortNameMap(imps)
  {
    m := map[];
    var i := 0;
    while i < |imps|
      invariant 0 <= i <= |imps|
      invariant m == ShortNameMap(imps[..i])
    {
      assert imps[..i + 1][..i] == imps[..i];
      var g := imps[i];
      if g.alias != "" {
        m := m[g.alias := g];
      } else {
        m := m[g.shortName := g];
      }
      i := i + 1;
    }
    assert imps[..|imps|] == imps;
  }

  /** `ParseInterfacesFromSource`. */
  method ParseInterfacesFromSource(parsed: Result<SourceFile, string>, calcPackage: string -> Package, filterNames: seq<string>)
    returns (file: Option<File>, err: Option<InterfaceError>)
    requires parsed.Ok? ==> ExaminedIndexable(parsed.value.typeSpecs, filterNames)
    ensures (file, err) == ExtractSpec(parsed, calcPackage, filterNames)
  {
    if parsed.Err? {
      return None, Some(SourceParseFailed(parsed.error));
    }
    var src := parsed.value;
    var pkg := calcPackage(src.packageName);
    var need := NeedSet(filterNames);
    var shortNames := BuildShortNameMap(src.imports);

    var specs := src.typeSpecs;
    ghost var outs := Outcomes(specs, filterNames, pkg, shortNames);
    var interfaces: seq<GoInterface> := [];
    err := None;
    var k := 0;
    while k < |specs|
      invariant 0 <= k <= |specs|
      invariant Gathered(interfaces, err) == Gather(outs[..k])
    {
      assert outs[..k + 1][..k] == outs[..k];
      var spec := specs[k];
      var needed := |filterNames| == 0 || (spec.name in need && need[spec.name]);
      assert outs[k] == Outcome(filterNames, spec, pkg, shortNames);
      if needed && spec.typ.InterfaceType? {
        var it := ParseInterface(spec, pkg, shortNames);
        if it.Err? {
          err := Some(it.error);
        } else {
          interfaces := interfaces + [it.value];
        }
      }
      k := k + 1;
    }
    assert outs[..|specs|] == outs;
    file := Some(File(src.imports, interfaces));
  }

  // ---------------------------------------------------------------- lemmas

  /**
   * The short-name map has a key exactly for the alias-or-last-segment of
   * some import, and maps it to the last import with that key.
   */
  lemma {:induction false} ShortNameMapMeaning(imps: seq<GoImport>, key: string)
    ensures key in ShortNameMap(imps) <==> exists j :: 0 <= j < |imps| && ShortNameKey(imps[j]) == key
    ensures key in ShortNameMap(imps) ==>
      exists j :: 0 <= j < |imps| && ShortNameMap(imps)[key] == imps[j] && ShortNameKey(imps[j]) == key
        && forall l :: j < l < |imps| ==> ShortNameKey(imps[l]) != key
    decreases |imps|
  {
    if imps != [] {
      var n := |imps| - 1;
      var init := imps[..n];
      ShortNameMapMeaning(init, key);
      assert forall j :: 0 <= j < n ==> init[j] == imps[j];
      if ShortNameKey(imps[n]) != key && key in ShortNameMap(imps) {
        var j :| 0 <= j < n && ShortNameMap(init)[key] == init[j] && ShortNameKey(init[j]) == key
          && forall l :: j < l < n ==> ShortNameKey(init[l]) != key;
        assert ShortNameMap(imps)[key] == imps[j];
      }
    }
  }

  /** Adding a list of imports: what `AddImportEffect` says, for each import of the list. */
  lemma {:induction false} AddImportsEffect(acc: seq<GoImport>, imps: seq<GoImport>)
    ensures var r := AddImports(acc, imps);
      && (forall g :: g in acc ==> g in r)
      && (forall g :: g in r ==> g in acc || g in imps)
      && (forall f :: f in imps ==> exists g :: g in r && SameImport(g, f))
      && (DistinctImports(acc) ==> DistinctImports(r))
    decreases |imps|
  {
    if imps != [] {
      var n := |imps| - 1;
      var init := imps[..n];
      AddImportsEffect(acc, init);
      var before := AddImports(acc, init);
      var r := AddImports(acc, imps);
      AddImportEffect(before, imps[n]);
      assert imps == init + [imps[n]];
      forall f | f in init
        ensures exists g :: g in r && SameImport(g, f)
      {
        var g :| g in before && SameImport(g, f);
        assert g in r;
      }
    }
  }

  /** The imports of all the methods, as a set. */
  ghost function AllMethodImports(methods: seq<GoMethod>): set<GoImport>
    decreases |methods|
  {
    if methods == [] then {}
    else AllMethodImports(methods[..|methods| - 1]) + ImportSet(methods[|methods| - 1].imports)
  }

  ghost function ImportSet(imps: seq<GoImport>): set<GoImport> {
    set g | g in imps
  }

  lemma {:induction false} AllMethodImportsMeaning(methods: seq<GoMethod>, g: GoImport)
    ensures g in AllMethodImports(methods) <==> exists i :: 0 <= i < |methods| && g in methods[i].imports
    decreases |methods|
  {
    if methods != [] {
      var n := |methods| - 1;
      AllMethodImportsMeaning(methods[..n], g);
      assert forall i :: 0 <= i < n ==> methods[..n][i] == methods[i];
    }
  }

  /**
   * An interface's imports: each one is an import of one of its methods,
   * every method import is present up to alias and path, and none is listed
   * twice.
   */
  lemma {:induction false} InterfaceImportsAreUnion(methods: seq<GoMethod>)
    ensures var r := InterfaceImports(methods);
      && (forall g :: g in r ==> g in AllMethodImports(methods))
      && (forall f :: f in AllMethodImports(methods) ==> exists g :: g in r && SameImport(g, f))
      && DistinctImports(r)
    decreases |methods|
  {
    if methods != [] {
      var n := |methods| - 1;
      var init := methods[..n];
      InterfaceImportsAreUnion(init);
      var before := InterfaceImports(init);
      var r := InterfaceImports(methods);
      AddImportsEffect(before, methods[n].imports);
      forall f | f in AllMethodImports(init)
        ensures exists g :: g in r && SameImport(g, f)
      {
        var g :| g in before && SameImport(g, f);
        assert g in r;
      }
    }
  }

  /**
   * An extracted interface keeps the declaration's name, the file's package,
   * one method per method field in declaration order, and no used packages.
   */
  lemma InterfaceSpecMeaning(spec: TypeSpec, pkg: Package, shortNames: map<string, GoImport>)
    requires spec.typ.InterfaceType?
    requires MethodFieldsIndexable(spec.typ.methods)
    ensures var fields := spec.typ.methods;
      match InterfaceSpec(spec, pkg, shortNames)
      case Ok(i) =>
        && i.name == spec.name && i.package == pkg && i.usedPackages == []
        && |i.methods| == |fields|
        && forall k :: 0 <= k < |fields| ==> MethodSpec(fields[k], pkg, shortNames) == Ok(i.methods[k])
      case Err(e) =>
        && e.MethodFailed? && e.interfaceName == spec.name
        && exists k :: 0 <= k < |fields| && MethodSpec(fields[k], pkg, shortNames) == Err(e.cause)
             && forall j :: 0 <= j < k ==> MethodSpec(fields[j], pkg, shortNames).Ok?
  {
    var fields := spec.typ.methods;
    var os := MethodOutcomes(fields, pkg, shortNames);
    FirstFailureMeaning(os);
    var f := FirstFailure(os);
    if f.Err? {
      var k := f.error.0;
      assert MethodSpec(fields[k], pkg, shortNames) == Err(f.error.1) by {
        assert os[k] == MethodSpec(fields[k], pkg, shortNames);
      }
      forall j | 0 <= j < k
        ensures MethodSpec(fields[j], pkg, shortNames).Ok?
      {
        assert os[j] == MethodSpec(fields[j], pkg, shortNames);
      }
    } else {
      forall k | 0 <= k < |fields|
        ensures MethodSpec(fields[k], pkg, shortNames) == Ok(f.value[k])
      {
        assert os[k] == MethodSpec(fields[k], pkg, shortNames);
      }
    }
  }

  /** Every gathered value is the value of some outcome, and every value of an outcome is gathered. */
  lemma {:induction false} GatherValues<T, E>(outs: seq<Option<Result<T, E>>>)
    ensures forall v :: v in Gather(outs).values <==> exists k :: 0 <= k < |outs| && outs[k] == Some(Ok(v))
    decreases |outs|
  {
    if outs != [] {
      var n := |outs| - 1;
      var init := outs[..n];
      GatherValues(init);
      assert forall k :: 0 <= k < n ==> init[k] == outs[k];
      forall v | exists k :: 0 <= k < |outs| && outs[k] == Some(Ok(v))
        ensures v in Gather(outs).values
      {
        var k :| 0 <= k < |outs| && outs[k] == Some(Ok(v));
        if k < n {
          assert init[k] == Some(Ok(v));
        }
      }
    }
  }

  /**
   * The gathered values keep the outcomes' order: values of earlier outcomes
   * come first, so the count of values below the one of outcome `k` is the
   * count of values among the outcomes before `k`.
   */
  lemma {:induction false} GatherPrefix<T, E>(outs: seq<Option<Result<T, E>>>, k: nat)
    requires k <= |outs|
    ensures |Gather(outs[..k]).values| <= |Gather(outs).values|
    ensures Gather(outs).values[..|Gather(outs[..k]).values|] == Gather(outs[..k]).values
    decreases |outs|
  {
    if k < |outs| {
      var n := |outs| - 1;
      assert outs[..n][..k] == outs[..k];
      GatherPrefix(outs[..n], k);
    } else {
      assert outs[..k] == outs;
    }
  }

  /** An error is recorded exactly when some outcome fails, and it is that of the last failing outcome. */
  lemma {:induction false} GatherError<T, E>(outs: seq<Option<Result<T, E>>>)
    ensures var e := Gather(outs).err;
      && (e.None? <==> forall k :: 0 <= k < |outs| ==> !(outs[k].Some? && outs[k].value.Err?))
      && (e.Some? ==>
            exists k :: 0 <= k < |outs| && outs[k] == Some(Err(e.value))
              && forall l :: k < l < |outs| ==> !(outs[l].Some? && outs[l].value.Err?))
    decreases |outs|
  {
    if outs != [] {
      var n := |outs| - 1;
      var init := outs[..n];
      GatherError(init);
      assert forall k :: 0 <= k < n ==> init[k] == outs[k];
    }
  }

  /**
   * An extracted file: every interface is the parse of a needed interface
   * declaration of the file (its name, the file's package, its methods in
   * declaration order and their imports), and each needed interface
   * declaration whose methods all parse is extracted.
   */
  lemma ExtractedInterfaces(src: SourceFile, calcPackage: string -> Package, filterNames: seq<string>)
    requires ExaminedIndexable(src.typeSpecs, filterNames)
    ensures var (file, _) := ExtractSpec(Ok(src), calcPackage, filterNames);
      var pkg := calcPackage(src.packageName);
      var specs := src.typeSpecs;
      && file.Some?
      && file.value.imports == src.imports
      && (forall i :: i in file.value.interfaces ==>
            && i.package == pkg
            && IsNeeded(filterNames, i.name)
            && exists k :: 0 <= k < |specs| && Candidate(filterNames, specs[k])
                 && InterfaceSpec(specs[k], pkg, ShortNameMap(src.imports)) == Ok(i))
      && (forall k :: 0 <= k < |specs| && Candidate(filterNames, specs[k]) && InterfaceSpec(specs[k], pkg, ShortNameMap(src.imports)).Ok? ==>
            InterfaceSpec(specs[k], pkg, ShortNameMap(src.imports)).value in file.value.interfaces)
  {
    var pkg := calcPackage(src.packageName);
    var sm := ShortNameMap(src.imports);
    var specs := src.typeSpecs;
    var outs := Outcomes(specs, filterNames, pkg, sm);
    GatherValues(outs);
    var ifaces := Gather(outs).values;
    forall i | i in ifaces
      ensures i.package == pkg && IsNeeded(filterNames, i.name)
      ensures exists k :: 0 <= k < |specs| && Candidate(filterNames, specs[k]) && InterfaceSpec(specs[k], pkg, sm) == Ok(i)
    {
      var k :| 0 <= k < |outs| && outs[k] == Some(Ok(i));
      assert Candidate(filterNames, specs[k]) && InterfaceSpec(specs[k], pkg, sm) == Ok(i);
      InterfaceSpecMeaning(specs[k], pkg, sm);
    }
    forall k | 0 <= k < |specs| && Candidate(filterNames, specs[k]) && InterfaceSpec(specs[k], pkg, sm).Ok?
      ensures InterfaceSpec(specs[k], pkg, sm).value in ifaces
    {
      assert outs[k] == Some(Ok(InterfaceSpec(specs[k], pkg, sm).value));
    }
  }

  /**
   * The returned error: none exactly when every needed interface declaration
   * extracts, else the error of the last one that does not.
   */
  lemma ExtractedError(src: SourceFile, calcPackage: string -> Package, filterNames: seq<string>)
    requires ExaminedIndexable(src.typeSpecs, filterNames)
    ensures var (_, err) := ExtractSpec(Ok(src), calcPackage, filterNames);
      var pkg := calcPackage(src.packageName);
      var sm := ShortNameMap(src.imports);
      var specs := src.typeSpecs;
      && (err.None? <==> forall k :: 0 <= k < |specs| && Candidate(filterNames, specs[k]) ==> InterfaceSpec(specs[k], pkg, sm).Ok?)
      && (err.Some? ==>
            exists k :: 0 <= k < |specs| && Candidate(filterNames, specs[k]) && InterfaceSpec(specs[k], pkg, sm) == Err(err.value)
              && forall l :: k < l < |specs| && Candidate(filterNames, specs[l]) ==> InterfaceSpec(specs[l], pkg, sm).Ok?)
  {
    var pkg := calcPackage(src.packageName);
    var sm := ShortNameMap(src.imports);
    var specs := src.typeSpecs;
    var outs := Outcomes(specs, filterNames, pkg, sm);
    GatherError(outs);
    assert forall k :: 0 <= k < |specs| ==> outs[k] == Outcome(filterNames, specs[k], pkg, sm);
  }

  /** With a one-name allow-list, every extracted interface has that name. */
  lemma SingleNameAllowList(src: SourceFile, calcPackage: string -> Package, name: string)
    requires ExaminedIndexable(src.typeSpecs, [name])
    ensures forall i :: i in ExtractSpec(Ok(src), calcPackage, [name]).0.value.interfaces ==> i.name == name
  {
    ExtractedInterfaces(src, calcPackage, [name]);
  }
}
