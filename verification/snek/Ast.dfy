/** The abstract syntax of a parsed source file, without spans. */
module Ast {
  datatype ItemPath = ItemPath(base: string, rest: seq<string>)

  datatype Node = Node(name: ItemPath, arguments: seq<Expression>, phantoms: seq<ItemPath>)

  datatype Expression =
    | Number(number: int)
    | Text(text: string)
    | Label(path: ItemPath)
    | Call(node: Node)
    | Chain(start: Expression, nodes: seq<Node>)

  /** A parameter that has a default expression. */
  datatype Default = Default(name: string, value: Expression)

  datatype Function = Function(name: string, required: seq<string>, defaults: seq<Default>, body: seq<Statement>)

  datatype Statement =
    | Return(result: Expression)
    | Import(exported: bool, path: string, name: string)
    | Assign(exported: bool, value: Expression, name: string)
    | Def(exported: bool, function_: Function)

  /** The parsed source files by canonical path. `target(current, text)` is the canonical path that
      an import of `text` inside the file `current` names. */
  datatype Disk = Disk(files: map<string, seq<Statement>>, target: (string, string) -> string)
}
