/**
 * The type-expression interpreter and placeholder synthesiser of
 * internal/golang/param.go.
 *
 * `Parse` is the recursive `parse` closure: it returns the local and the
 * external spelling of a type and threads the package qualifiers it meets
 * through an ordered de-duplicated list (the closure adds them to
 * `result.UsedPackages`). `CalcStubInstantiateExpr` is the method of the same
 * name, as a function returning the updated record.
 */
module ParamTypes {
  import opened Wrappers
  import opened Ast
  import opened Packages
  import opened StdTypes
  import Sets

  /** Why a type expression was rejected. */
  datatype ParseError =
    | FuncNotSupported          // "func in parameters/results not supported. You can use aliases"
    | UnknownNode(kind: string) // "unknown node %T"
    | ArrayLength(cause: ParseError) // "failed to parse array length: ..."
    | MapKey(cause: ParseError)      // "failed to parse map key: ..."
    | MapValue(cause: ParseError)    // "failed to parse map value: ..."

  /** `GoParameterType`; `usedPackages` is the list of its `ds.Set`. */
  datatype GoParameterType = GoParameterType(
    name: string,
    externalName: string,
    usedPackages: seq<string>,
    valueThroughNil: bool,
    valueThroughVar: bool,
    value: string,
    package: Package)

  /** The local and the external spelling of a type. */
  datatype Names = Names(local: string, external: string)

  /** What `parse` returns, with the used-package list as it stands afterwards. */
  datatype Parsed = Parsed(names: Result<Names, ParseError>, used: seq<string>)

  function Qualified(qualifier: string, name: string): string {
    qualifier + "." + name
  }

  /** The recursive `parse` closure. */
  function Parse(node: Node, pkg: Package, used: seq<string>): (r: Parsed)
    ensures |used| <= |r.used| && r.used[..|used|] == used
    ensures Sets.NoDuplicates(used) ==> Sets.NoDuplicates(r.used)
  {
    match node
    case Ident(n) =>
      Parsed(Ok(if IsStdType(n) then Names(n, n) else Names(n, Qualified(pkg.name, n))), used)
    case Selector(x, sel) =>
      if x.Ident? then
        var q := Qualified(x.name, sel);
        Parsed(Ok(Names(q, q)), Sets.Insert(used, x.name))
      else if IsStdType(sel) then
        Parsed(Ok(Names(sel, sel)), used)
      else
        Parsed(Ok(Names(sel, Qualified(pkg.name, sel))), used)
    case Star(x) =>
      var p := Parse(x, pkg, used);
      if p.names.Err? then p
      else Parsed(Ok(Names("*" + p.names.value.local, "*" + p.names.value.external)), p.used)
    case ArrayType(len, elt) =>
      var e := Parse(elt, pkg, used);
      if e.names.Err? then e
      else if len.None? then
        Parsed(Ok(Names("[]" + e.names.value.local, "[]" + e.names.value.external)), e.used)
      else
        var l := Parse(len.value, pkg, e.used);
        if l.names.Err? then Parsed(Err(ArrayLength(l.names.error)), l.used)
        else
          var prefix := "[" + l.names.value.local + "]";
          Parsed(Ok(Names(prefix + e.names.value.local, prefix + e.names.value.external)), l.used)
    case MapType(key, value) =>
      var k := Parse(key, pkg, used);
      if k.names.Err? then Parsed(Err(MapKey(k.names.error)), k.used)
      else
        var v := Parse(value, pkg, k.used);
        if v.names.Err? then Parsed(Err(MapValue(v.names.error)), v.used)
        else
          Parsed(Ok(Names("map[" + k.names.value.local + "]" + v.names.value.local,
                          "map[" + k.names.value.external + "]" + v.names.value.external)), v.used)
    case BasicLit(lit) =>
      Parsed(Ok(Names(lit, lit)), used)
    case FuncType(_, _) =>
      Parsed(Err(FuncNotSupported), used)
    case InterfaceType(_) =>
      Parsed(Ok(Names("interface{}", "interface{}")), used)
    case Other(kind) =>
      Parsed(Err(UnknownNode(kind)), used)
  }

  /** The nodes `parse` accepts: no function type and no unknown node on any path it follows. */
  predicate Supported(node: Node) {
    match node
    case Star(x) => Supported(x)
    case ArrayType(len, elt) => Supported(elt) && (len.Some? ==> Supported(len.value))
    case MapType(key, value) => Supported(key) && Supported(value)
    case FuncType(_, _) => false
    case Other(_) => false
    case _ => true
  }

  /** The qualifiers of the selectors `parse` visits, in visiting order. */
  function Qualifiers(node: Node): seq<string> {
    match node
    case Selector(x, _) => if x.Ident? then [x.name] else []
    case Star(x) => Qualifiers(x)
    case ArrayType(len, elt) => Qualifiers(elt) + (if len.Some? then Qualifiers(len.value) else [])
    case MapType(key, value) => Qualifiers(key) + Qualifiers(value)
    case _ => []
  }

  /**
   * The types whose external spelling needs no package prefix: every name
   * outside array lengths is a built-in or already qualified by an identifier.
   */
  predicate SelfQualified(node: Node) {
    match node
    case Ident(n) => IsStdType(n)
    case Selector(x, sel) => x.Ident? || IsStdType(sel)
    case Star(x) => SelfQualified(x)
    case ArrayType(_, elt) => SelfQualified(elt)
    case MapType(key, value) => SelfQualified(key) && SelfQualified(value)
    case _ => true
  }

  /** The parse fails exactly when a function type or an unknown node lies on its path. */
  lemma {:induction false} ParseFailsExactlyWhenUnsupported(node: Node, pkg: Package, used: seq<string>)
    ensures Parse(node, pkg, used).names.Err? <==> !Supported(node)
  {
    match node
    case Star(x) => ParseFailsExactlyWhenUnsupported(x, pkg, used);
    case ArrayType(len, elt) =>
      ParseFailsExactlyWhenUnsupported(elt, pkg, used);
      if len.Some? {
        ParseFailsExactlyWhenUnsupported(len.value, pkg, Parse(elt, pkg, used).used);
      }
    case MapType(key, value) =>
      ParseFailsExactlyWhenUnsupported(key, pkg, used);
      ParseFailsExactlyWhenUnsupported(value, pkg, Parse(key, pkg, used).used);
    case _ =>
  }

  /** A successful parse adds exactly the selector qualifiers, in visiting order, each once. */
  lemma {:induction false} ParseCollectsQualifiers(node: Node, pkg: Package, used: seq<string>)
    requires Supported(node)
    ensures Parse(node, pkg, used).used == Sets.InsertAll(used, Qualifiers(node))
  {
    match node
    case Selector(x, _) =>
      if x.Ident? {
        assert [x.name][1..] == [];
      }
    case Star(x) => ParseCollectsQualifiers(x, pkg, used);
    case ArrayType(len, elt) =>
      ParseCollectsQualifiers(elt, pkg, used);
      ParseFailsExactlyWhenUnsupported(elt, pkg, used);
      if len.Some? {
        var e := Parse(elt, pkg, used);
        ParseCollectsQualifiers(len.value, pkg, e.used);
        ParseFailsExactlyWhenUnsupported(len.value, pkg, e.used);
        Sets.InsertAllAppend(used, Qualifiers(elt), Qualifiers(len.value));
      } else {
        assert Qualifiers(node) == Qualifiers(elt) + [] == Qualifiers(elt);
      }
    case MapType(key, value) =>
      ParseCollectsQualifiers(key, pkg, used);
      ParseFailsExactlyWhenUnsupported(key, pkg, used);
      var k := Parse(key, pkg, used);
      ParseCollectsQualifiers(value, pkg, k.used);
      ParseFailsExactlyWhenUnsupported(value, pkg, k.used);
      Sets.InsertAllAppend(used, Qualifiers(key), Qualifiers(value));
    case _ =>
  }

  /** The local spelling, the outcome and the qualifiers do not depend on the declaring package. */
  lemma {:induction false} LocalNameIgnoresPackage(node: Node, p1: Package, p2: Package, used: seq<string>)
    ensures Parse(node, p1, used).used == Parse(node, p2, used).used
    ensures Parse(node, p1, used).names.Err? == Parse(node, p2, used).names.Err?
    ensures Parse(node, p1, used).names.Ok? ==>
      Parse(node, p1, used).names.value.local == Parse(node, p2, used).names.value.local
  {
    match node
    case Star(x) => LocalNameIgnoresPackage(x, p1, p2, used);
    case ArrayType(len, elt) =>
      LocalNameIgnoresPackage(elt, p1, p2, used);
      if len.Some? {
        LocalNameIgnoresPackage(len.value, p1, p2, Parse(elt, p1, used).used);
      }
    case MapType(key, value) =>
      LocalNameIgnoresPackage(key, p1, p2, used);
      LocalNameIgnoresPackage(value, p1, p2, Parse(key, p1, used).used);
    case _ =>
  }

  /**
   * The external spelling is the local one with package prefixes added: it is
   * never shorter, and it equals the local spelling exactly when the type is
   * self-qualified (array lengths keep their local spelling in both).
   */
  lemma {:induction false} ExternalExtendsLocal(node: Node, pkg: Package, used: seq<string>)
    requires Parse(node, pkg, used).names.Ok?
    ensures var n := Parse(node, pkg, used).names.value;
      && |n.local| <= |n.external|
      && (|n.local| == |n.external| <==> SelfQualified(node))
      && (n.local == n.external <==> SelfQualified(node))
  {
    match node
    case Star(x) => ExternalExtendsLocal(x, pkg, used);
    case ArrayType(len, elt) =>
      ExternalExtendsLocal(elt, pkg, used);
    case MapType(key, value) =>
      ExternalExtendsLocal(key, pkg, used);
      ExternalExtendsLocal(value, pkg, Parse(key, pkg, used).used);
    case _ =>
  }

  /**
   * `calcPtVtn`: flags pointers, slices and interfaces as nil-able, but on
   * the copy of the record it receives by value; the copy is returned here
   * so that the flag it carries can be compared with the caller's record.
   */
  function CalcPtVtn(result: GoParameterType, node: Node): GoParameterType {
    if node.Star? || (node.ArrayType? && node.len.None?) || node.InterfaceType? then
      result.(valueThroughNil := true)
    else result
  }

  /** `parseParameterType`: the parsed type with its qualifiers; the nil-able flag stays false. */
  function ParseParameterType(node: Node, pkg: Package): (r: Result<GoParameterType, ParseError>)
    ensures r.Err? <==> !Supported(node)
    ensures r.Ok? ==>
      && r.value.package == pkg
      && !r.value.valueThroughNil
      && !r.value.valueThroughVar
      && r.value.value == ""
  {
    ParseFailsExactlyWhenUnsupported(node, pkg, []);
    var result := GoParameterType("", "", [], false, false, "", pkg);
    var discardedCopy := CalcPtVtn(result, node);
    var p := Parse(node, pkg, []);
    if p.names.Err? then Err(p.names.error)
    else
      Ok(result.(name := p.names.value.local, externalName := p.names.value.external, usedPackages := p.used))
  }

  /** The used packages of a parsed type are its selector qualifiers, each once, in visiting order. */
  lemma ParsedUsedPackages(node: Node, pkg: Package)
    requires Supported(node)
    ensures ParseParameterType(node, pkg).value.usedPackages == Sets.FromSeq(Qualifiers(node))
    ensures Sets.NoDuplicates(ParseParameterType(node, pkg).value.usedPackages)
  {
    ParseCollectsQualifiers(node, pkg, []);
  }

  /** `String()`: the local name. */
  function String(t: GoParameterType): string {
    t.name
  }

  /** `Call(pkg)`: the local name inside the type's own package, the external name elsewhere. */
  function Call(t: GoParameterType, pkg: Package): string {
    if t.package == pkg then t.name else t.externalName
  }

  /** The placeholder of a built-in result type, when it has a literal one. */
  function LiteralPlaceholder(name: string, methodName: string): Option<string> {
    if name == TypeError then Some("errors.New(\"is not real method " + methodName + "\")")
    else if name == TypeAny || name == "interface" then Some("nil")
    else if name == TypeString then Some("\"\"")
    else if name == TypeBool then Some("false")
    else if IsNumericType(name) then Some("0")
    else None
  }

  function AnyArgPlaceholder(name: string): string {
    "anyArg.(" + name + ")"
  }

  /**
   * `calcStubInstantiateExpr(methodName)`: chooses the placeholder returned
   * for a result of this type. Package-free types get "errors" added to their
   * used packages; only the type-assertion fallback sets `valueThroughVar`.
   */
  function CalcStubInstantiateExpr(t: GoParameterType, methodName: string): GoParameterType {
    if t.valueThroughNil then t.(value := "nil")
    else
      var packageFree := !(|t.usedPackages| > 0);
      var t1 := if packageFree then t.(usedPackages := Sets.Insert(t.usedPackages, "errors")) else t;
      var literal := LiteralPlaceholder(t.name, methodName);
      if packageFree && literal.Some? then t1.(value := literal.value)
      else t1.(valueThroughVar := true, value := AnyArgPlaceholder(String(t1)))
  }

  /**
   * What `calcStubInstantiateExpr` changes: the spelling, package and
   * nil-able flag stay; "errors" becomes the used package of a package-free
   * type; `valueThroughVar` is set exactly when the type-assertion
   * placeholder is chosen, which happens exactly when there is no literal.
   */
  lemma CalcStubInstantiateExprEffect(t: GoParameterType, methodName: string)
    ensures var t' := CalcStubInstantiateExpr(t, methodName);
      && t'.name == t.name && t'.externalName == t.externalName && t'.package == t.package
      && t'.valueThroughNil == t.valueThroughNil
      && (t.valueThroughNil ==> t'.value == "nil" && t'.valueThroughVar == t.valueThroughVar)
      && t'.usedPackages == (if !t.valueThroughNil && t.usedPackages == [] then ["errors"] else t.usedPackages)
      && (t'.valueThroughVar <==> t.valueThroughVar || t'.value == AnyArgPlaceholder(t.name))
      && (!t.valueThroughNil ==>
           (t'.value == AnyArgPlaceholder(t.name) <==> t.usedPackages != [] || LiteralPlaceholder(t.name, methodName).None?))
  {
    if !t.valueThroughNil && t.usedPackages == [] && LiteralPlaceholder(t.name, methodName).Some? {
      LiteralIsNotAnyArg(t.name, methodName);
    }
  }

  lemma LiteralIsNotAnyArg(name: string, methodName: string)
    requires LiteralPlaceholder(name, methodName).Some?
    ensures LiteralPlaceholder(name, methodName).value != AnyArgPlaceholder(name)
  {
    var v := LiteralPlaceholder(name, methodName).value;
    var a := AnyArgPlaceholder(name);
    assert a[0] == 'a' && a[1] == 'n' && a[2] == 'y';
    if name == TypeError {
      assert v[0] == 'e';
    } else if name == TypeAny || name == "interface" {
      assert |v| == 3 && |a| > 3;
    } else if name == TypeString {
      assert v[0] == '"';
    } else if name == TypeBool {
      assert v[0] == 'f';
    } else {
      assert v == "0";
    }
  }

  /**
   * The placeholder of each built-in result type: a literal, never the
   * type assertion, with "errors" as its only used package; the error
   * placeholder names the method.
   */
  lemma BuiltinPlaceholders(n: string, pkg: Package, methodName: string)
    requires IsStdType(n)
    ensures ParseParameterType(Ident(n), pkg).Ok?
    ensures var t := CalcStubInstantiateExpr(ParseParameterType(Ident(n), pkg).value, methodName);
      && !t.valueThroughVar
      && t.usedPackages == ["errors"]
      && (n == TypeError ==> t.value == "errors.New(\"is not real method " + methodName + "\")")
      && (n == TypeAny || n == "interface" ==> t.value == "nil")
      && (n == TypeString ==> t.value == "\"\"")
      && (n == TypeBool ==> t.value == "false")
      && (IsNumericType(n) ==> t.value == "0")
  {
    assert Qualifiers(Ident(n)) == [];
    var t := ParseParameterType(Ident(n), pkg).value;
    assert t.name == n && t.usedPackages == [] && !t.valueThroughNil;
    assert LiteralPlaceholder(n, methodName).Some? by {
      assert n in StdTypeNames;
    }
  }

  /**
   * Pointers, arrays, slices, maps and interface literals never get "nil":
   * because `calcPtVtn`'s flag is lost, every such result takes the
   * type-assertion placeholder.
   */
  lemma CompositeResultsUseAnyArg(node: Node, pkg: Package, methodName: string)
    requires node.Star? || node.ArrayType? || node.MapType? || node.InterfaceType?
    requires Supported(node)
    ensures var t := CalcStubInstantiateExpr(ParseParameterType(node, pkg).value, methodName);
      && t.valueThroughVar
      && !t.valueThroughNil
      && t.value == AnyArgPlaceholder(t.name)
  {
    var t := ParseParameterType(node, pkg).value;
    if node.InterfaceType? {
      assert t.name == "interface{}";
    } else {
      assert |t.name| > 0 && (t.name[0] == '*' || t.name[0] == '[' || t.name[0] == 'm');
      assert forall k :: 0 <= k < |StdTypeNames| ==> StdTypeNames[k] == "" || StdTypeNames[k][0] !in {'*', '[', 'm'};
    }
    assert !IsStdType(t.name);
    CalcStubInstantiateExprEffect(t, methodName);
  }

  /** The flag `calcPtVtn` computes for pointers is set on its copy only, never on the parsed type. */
  lemma PointerFlagIsLost(x: Node, pkg: Package)
    requires Supported(x)
    ensures CalcPtVtn(GoParameterType("", "", [], false, false, "", pkg), Star(x)).valueThroughNil
    ensures ParseParameterType(Star(x), pkg).Ok? && !ParseParameterType(Star(x), pkg).value.valueThroughNil
  {
  }

  /** Inside the declaring package `Call` gives the local name; elsewhere the external one, which differs unless self-qualified. */
  lemma CallChoosesSpelling(node: Node, pkg: Package, other: Package)
    requires Supported(node)
    ensures var t := ParseParameterType(node, pkg).value;
      && Call(t, pkg) == String(t)
      && (other != pkg ==> (Call(t, other) == String(t) <==> SelfQualified(node)))
  {
    ParseFailsExactlyWhenUnsupported(node, pkg, []);
    ExternalExtendsLocal(node, pkg, []);
  }
}
