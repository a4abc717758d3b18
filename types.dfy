/**
 * The stub type of internal/golang/type.go: the generated struct for one
 * interface, with its name, imports, package, receiver, methods and the
 * interface it implements.
 */
module Types {
  import opened Packages
  import opened Imports
  import opened Methods
  import opened Interfaces

  datatype Type = Type(
    name: string,
    imports: seq<GoImport>,
    package: Package,
    receiver: string,
    methods: seq<GoMethod>,
    iface: GoInterface)

  /**
   * `Clone`: a copy with every field of the original. Types are values
   * here, so giving the copy other methods never changes the original.
   */
  function Clone(t: Type): (r: Type)
    ensures r == t
  {
    Type(t.name, t.imports, t.package, t.receiver, t.methods, t.iface)
  }
}
