/**
 * Abstractions of the foreign libraries the core consumes: the package
 * record of the module finder and the go/ast nodes the parser produces.
 */
module Packages {

  /**
   * A package as the module finder describes it. `name` is the short
   * package name used to qualify local types, `fullName` its import path.
   * Package equality (`Equal` in the source) is value equality here.
   */
  datatype Package = Package(name: string, fullName: string)
}

module Ast {
  import opened Wrappers

  /** The type-expression node kinds the parser distinguishes; `Other` is every other node kind, by its Go type name. */
  datatype Node =
    | Ident(name: string)
    | Selector(x: Node, sel: string)
    | Star(x: Node)
    | ArrayType(len: Option<Node>, elt: Node)
    | MapType(key: Node, value: Node)
    | BasicLit(literal: string)
    | FuncType(params: Option<seq<Field>>, results: Option<seq<Field>>)
    | InterfaceType(methods: seq<Field>)
    | Other(kind: string)

  /** A field of a parameter, result or method list: its names (empty when unnamed) and its type. */
  datatype Field = Field(names: seq<string>, typ: Node)

  /** A type declaration `type name typ`, as the tree walk meets it. */
  datatype TypeSpec = TypeSpec(name: string, typ: Node)
}
