/** The built-in type-name tables of internal/golang/type_std.go. */
module StdTypes {

  const TypeError: string := "error"
  const TypeAny: string := "any"
  const TypeString: string := "string"
  const TypeBool: string := "bool"

  /** The names `IsStdType` recognises, in table order. */
  const StdTypeNames: seq<string> := [
    "int", "int16", "int32",
    "uint8", "uint16", "uint32", "uint64",
    "float32", "float64",
    "string",
    "error",
    "any",
    "bool",
    "interface"
  ]

  /** The names `IsNumericType` recognises, in table order. */
  const NumericTypeNames: seq<string> := [
    "int", "int16", "int32",
    "uint8", "uint16", "uint32", "uint64",
    "float32", "float64"
  ]

  /** `IsNumericType`: membership in the numeric table; every numeric name is also a built-in. */
  function IsNumericType(name: string): (b: bool)
    ensures b ==> name in StdTypeNames
  {
    name in NumericTypeNames
  }

  /** `IsStdType`: the numeric names plus string, error, any, bool and the bare keyword interface. */
  function IsStdType(name: string): (b: bool)
    ensures b <==> name in NumericTypeNames || name in {TypeString, TypeError, TypeAny, TypeBool, "interface"}
  {
    name in StdTypeNames
  }

  /** The four named constants are built-in names but not numeric ones. */
  lemma NamedConstantsAreStdNotNumeric()
    ensures forall n :: n in {TypeError, TypeAny, TypeString, TypeBool} ==> IsStdType(n) && !IsNumericType(n)
  {
  }

  /** The tables hold 14 and 9 distinct names; `int8`, `int64`, `uint` and `interface{}` are in neither. */
  lemma TableContents()
    ensures |StdTypeNames| == 14 && |NumericTypeNames| == 9
    ensures forall i, j :: 0 <= i < j < |StdTypeNames| ==> StdTypeNames[i] != StdTypeNames[j]
    ensures !IsNumericType("int8") && !IsNumericType("int64") && !IsNumericType("uint")
    ensures !IsStdType("int8") && !IsStdType("int64") && !IsStdType("uint")
    ensures IsStdType("interface") && !IsStdType("interface{}")
  {
  }
}
