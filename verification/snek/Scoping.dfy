/** Which programs resolve, described by kinds of names alone: no symbols, no function ids and no emitted
    nodes. Resolving fails exactly where this description does, and with the same error. */
module Scoping {
  import opened Wrappers
  import opened Ast
  import R = Resolvers
  import DataModel

  /** What a name stands for, as far as its uses can tell. */
  datatype Shape = ALabel | AFunction | AModule(exports: map<string, Shape>)

  /** The names in scope; names that are bound again are overwritten. */
  type Names = map<string, Shape>

  /** The exports of the files that have been resolved. */
  type Files = map<string, Names>

  type Checked<T> = Result<T, R.ResolveError>

  /** Where a statement stands: in a file, with its exports so far, or in a function, which may have
      returned already. */
  datatype Place = InFile(exports: Names) | InFunction(returned: bool)

  function Kind(s: Shape): R.ItemKind {
    match s
    case ALabel => R.LabelKind
    case AFunction => R.FunctionKind
    case AModule(_) => R.ModuleKind
  }

  function PreludeNames(): Names {
    map i | 0 <= i < |DataModel.Prelude()| :: DataModel.Prelude()[i].0 := AFunction
  }

  /** The first name of a path must be in scope, and each further one exported by what comes before it. */
  function Find(names: Names, path: ItemPath): Checked<Shape> {
    if path.base !in names then Err(R.ItemNotFound(path.base)) else Inside(names[path.base], path.rest)
  }

  function Inside(s: Shape, rest: seq<string>): Checked<Shape>
    decreases |rest|
  {
    if rest == [] then Ok(s)
    else if !s.AModule? then Err(R.WrongItemKind(R.ModuleKind, Kind(s)))
    else if rest[0] !in s.exports then Err(R.ItemNotFound(rest[0]))
    else Inside(s.exports[rest[0]], rest[1..])
  }

  /** The path names an item of the kind that its place asks for. */
  function Uses(names: Names, path: ItemPath, wanted: R.ItemKind): Checked<()> {
    match Find(names, path)
    case Err(e) => Err(e)
    case Ok(s) => if Kind(s) == wanted then Ok(()) else Err(R.WrongItemKind(wanted, Kind(s)))
  }

  function CheckLabels(names: Names, paths: seq<ItemPath>): Checked<()> {
    if paths == [] then Ok(())
    else
      var _ :- Uses(names, paths[0], R.LabelKind);
      CheckLabels(names, paths[1..])
  }

  function CheckExpression(names: Names, e: Expression): Checked<()>
    decreases e, 1
  {
    match e
    case Number(_) => Ok(())
    case Text(_) => Ok(())
    case Label(path) => Uses(names, path, R.LabelKind)
    case Call(node) => CheckNode(names, node)
    case Chain(start, nodes) =>
      var _ :- CheckExpression(names, start);
      CheckNodes(names, nodes)
  }

  function CheckNodes(names: Names, nodes: seq<Node>): Checked<()>
    decreases nodes, 0
  {
    if nodes == [] then Ok(())
    else
      var _ :- CheckNode(names, nodes[0]);
      CheckNodes(names, nodes[1..])
  }

  function CheckNode(names: Names, node: Node): Checked<()>
    decreases node, 1
  {
    var _ :- Uses(names, node.name, R.FunctionKind);
    var _ :- CheckLabels(names, node.phantoms);
    CheckArguments(names, node.arguments)
  }

  function CheckArguments(names: Names, es: seq<Expression>): Checked<()>
    decreases es, 0
  {
    if es == [] then Ok(())
    else
      var _ :- CheckExpression(names, es[0]);
      CheckArguments(names, es[1..])
  }

  function WithLabels(names: Names, params: seq<string>): Names
    decreases |params|
  {
    if params == [] then names else WithLabels(names[params[0] := ALabel], params[1..])
  }

  /** Each default sees the parameters before it. */
  function CheckDefaults(names: Names, defaults: seq<Default>): Checked<Names>
    decreases |defaults|
  {
    if defaults == [] then Ok(names)
    else
      var _ :- CheckExpression(names, defaults[0].value);
      CheckDefaults(names[defaults[0].name := ALabel], defaults[1..])
  }

  /** Binds a name, and exports it if asked to; only files export. */
  function Bind(names: Names, place: Place, exported: bool, name: string, s: Shape): Checked<(Names, Place)> {
    if !exported then Ok((names[name := s], place))
    else match place
      case InFile(exports) => Ok((names[name := s], InFile(exports[name := s])))
      case InFunction(_) => Err(R.InvalidStatement("export"))
  }

  function CheckStatement(disk: Disk, files: Files, open: set<string>, names: Names, place: Place, file: string,
                          stmt: Statement)
    : (r: Checked<(Files, Names, Place)>)
    ensures r.Ok? ==> files.Keys <= r.value.0.Keys
    decreases disk.files.Keys - (files.Keys + open), 1, stmt, 1
  {
    match stmt
    case Return(e) =>
      var _ :- CheckExpression(names, e);
      (match place
       case InFile(_) => Err(R.InvalidStatement("return"))
       case InFunction(returned) => if returned then Err(R.DoubleReturn) else Ok((files, names, InFunction(true))))
    case Import(exported, path, name) =>
      (match CheckFile(disk, files, open, disk.target(file, path))
       case Err(e) => Err(R.ImportError(path, e))
       case Ok(loaded) =>
         var bound :- Bind(names, place, exported, name, AModule(loaded[disk.target(file, path)]));
         Ok((loaded, bound.0, bound.1)))
    case Assign(exported, e, name) =>
      var _ :- CheckExpression(names, e);
      var bound :- Bind(names, place, exported, name, ALabel);
      Ok((files, bound.0, bound.1))
    case Def(exported, f) =>
      var loaded :- CheckFunction(disk, files, open, names, file, f);
      var bound :- Bind(names, place, exported, f.name, AFunction);
      Ok((loaded, bound.0, bound.1))
  }

  function CheckStatements(disk: Disk, files: Files, open: set<string>, names: Names, place: Place, file: string,
                           stmts: seq<Statement>)
    : (r: Checked<(Files, Place)>)
    ensures r.Ok? ==> files.Keys <= r.value.0.Keys
    decreases disk.files.Keys - (files.Keys + open), 1, stmts, 0
  {
    if stmts == [] then Ok((files, place))
    else
      var (loaded, next, after) :- CheckStatement(disk, files, open, names, place, file, stmts[0]);
      CheckStatements(disk, loaded, open, next, after, file, stmts[1..])
  }

  /** A function must return, once. Its parameters and what its body binds are not seen outside. */
  function CheckFunction(disk: Disk, files: Files, open: set<string>, names: Names, file: string, f: Function)
    : (r: Checked<Files>)
    ensures r.Ok? ==> files.Keys <= r.value.Keys
    decreases disk.files.Keys - (files.Keys + open), 1, f, 0
  {
    var inner :- CheckDefaults(WithLabels(names, f.required), f.defaults);
    var (loaded, place) :- CheckStatements(disk, files, open, inner, InFunction(false), file, f.body);
    if place == InFunction(true) then Ok(loaded) else Err(R.ReturnNotFound(f.name))
  }

  /** A file is checked once; a file that is open is in the middle of being checked. */
  function CheckFile(disk: Disk, files: Files, open: set<string>, file: string): (r: Checked<Files>)
    ensures r.Ok? ==> files.Keys + {file} <= r.value.Keys
    decreases disk.files.Keys - (files.Keys + open), 0
  {
    if file in files then Ok(files)
    else if file in open then Err(R.CircularImport(file))
    else if file !in disk.files then Err(R.FileReading(file))
    else
      assert file in disk.files.Keys - (files.Keys + open);
      var (loaded, place) :-
        CheckStatements(disk, files, open + {file}, PreludeNames(), InFile(map[]), file, disk.files[file]);
      Ok(loaded[file := if place.InFile? then place.exports else map[]])
  }

  /** The program whose entry point is the label `entry` exported by `file`. */
  function CheckProgram(disk: Disk, file: string, entry: string): Checked<()> {
    var files :- CheckFile(disk, map[], {}, file);
    if entry !in files[file] then Err(R.ItemNotFound(entry))
    else if files[file][entry].ALabel? then Ok(())
    else Err(R.WrongItemKind(R.LabelKind, Kind(files[file][entry])))
  }
}
