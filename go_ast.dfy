/** The slice of Go's syntax tree (package go/ast) that the generator reads.
    Type expressions are carried as the opaque text go/printer would print for
    them; the generator never looks inside them. */
module GoAst {
  import opened Wrappers

  /** One `*ast.Field` of a parameter or result list: a group of names sharing
      one type (`a, b int`), or a single unnamed entry (`int`). */
  datatype Field = Field(names: seq<string>, typ: string)

  /** `*ast.FuncType`. `results` is None for a function with no result list
      (Go leaves `Results` nil there); `params` is always present. */
  datatype FuncType = FuncType(params: seq<Field>, results: Option<seq<Field>>)

  /** What an interface element's `Type` holds: a method signature, or the
      name of an embedded interface. */
  datatype ElemKind = MethodSig(sig: FuncType) | Embedded(typ: string)

  /** One `*ast.Field` of an interface's method list. A method has exactly one
      name; an embedded interface has none. */
  datatype InterfaceElem = InterfaceElem(names: seq<string>, kind: ElemKind)

  datatype TypeExpr = InterfaceType(methods: seq<InterfaceElem>) | OtherType(text: string)

  datatype TypeSpec = TypeSpec(name: string, typ: TypeExpr)

  /** Top-level declarations: a function (with an optional receiver list), a
      `type` declaration, or any other declaration (import, const, var). */
  datatype Decl =
    | FuncDecl(recv: Option<seq<Field>>, name: string, ftype: FuncType)
    | TypeDecl(specs: seq<TypeSpec>)
    | OtherDecl
}
