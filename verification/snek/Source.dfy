/** The meaning of source files, with no symbols and no graph: labels denote values, functions
    denote mathematical functions closed over the scope of their definition, and modules denote
    what they export. A file is loaded once, by the first import of it that is read; imports in a
    function body are read when the function is defined. */
module Source {
  import opened Wrappers
  import opened DataModel
  import opened Ast
  import Ir

  datatype Meaning =
    | LabelV(value: Val)
    | FunctionV(call: (seq<Val>, seq<Term>) -> Result<Val, Ir.Fault>)
    | ModuleV(items: map<string, Meaning>)

  type Env = map<string, Meaning>

  /** What each loaded file exports. */
  type Loaded = map<string, Env>

  function LiteralValue(l: Literal): Val {
    Val(Term(LiteralNode(l), [], []), LiteralType(l))
  }

  function Builtin(impl: NodeImpl, args: seq<Val>, phantoms: seq<Term>): Result<Val, Ir.Fault> {
    match ApplyBuiltin(impl, args, phantoms)
    case Ok(v) => Ok(v)
    case Err(e) => Err(Ir.Type(e))
  }

  function PreludeEnv(): Env {
    map i | 0 <= i < |Prelude()| ::
      Prelude()[i].0 := FunctionV((args, phantoms) => Builtin(Prelude()[i].1, args, phantoms))
  }

  function Follow(m: Meaning, rest: seq<string>): Option<Meaning>
    decreases |rest|
  {
    if rest == [] then Some(m)
    else if !m.ModuleV? || rest[0] !in m.items then None
    else Follow(m.items[rest[0]], rest[1..])
  }

  function EvalPath(env: Env, path: ItemPath): Option<Meaning> {
    if path.base !in env then None else Follow(env[path.base], path.rest)
  }

  function EvalLabel(env: Env, path: ItemPath): Result<Val, Ir.Fault> {
    match EvalPath(env, path)
    case Some(LabelV(v)) => Ok(v)
    case _ => Err(Ir.Undefined)
  }

  function EvalLabels(env: Env, paths: seq<ItemPath>): Result<seq<Val>, Ir.Fault> {
    if paths == [] then Ok([])
    else
      var v :- EvalLabel(env, paths[0]);
      var rest :- EvalLabels(env, paths[1..]);
      Ok([v] + rest)
  }

  function EvalExpression(env: Env, e: Expression): Result<Val, Ir.Fault>
    decreases e, 1
  {
    match e
    case Number(n) => Ok(LiteralValue(IntLit(n)))
    case Text(t) => Ok(LiteralValue(StrLit(t)))
    case Label(path) => EvalLabel(env, path)
    case Call(node) => EvalNode(env, node, [])
    case Chain(start, nodes) =>
      var v :- EvalExpression(env, start);
      EvalChain(env, v, nodes)
  }

  /** `A > B(1) > C(2)` means `C(B(A, 1), 2)`. */
  function EvalChain(env: Env, v: Val, nodes: seq<Node>): Result<Val, Ir.Fault>
    decreases nodes, 0
  {
    if nodes == [] then Ok(v)
    else
      var next :- EvalNode(env, nodes[0], [v]);
      EvalChain(env, next, nodes[1..])
  }

  function EvalNode(env: Env, node: Node, first: seq<Val>): Result<Val, Ir.Fault>
    decreases node, 1
  {
    match EvalPath(env, node.name)
    case Some(FunctionV(call)) =>
      var phantoms :- EvalLabels(env, node.phantoms);
      var args :- EvalArguments(env, node.arguments);
      call(first + args, Terms(phantoms))
    case _ => Err(Ir.Undefined)
  }

  function EvalArguments(env: Env, es: seq<Expression>): Result<seq<Val>, Ir.Fault>
    decreases es, 0
  {
    if es == [] then Ok([])
    else
      var v :- EvalExpression(env, es[0]);
      var rest :- EvalArguments(env, es[1..]);
      Ok([v] + rest)
  }

  function BindRequired(env: Env, names: seq<string>, args: seq<Val>): Env
    requires |names| == |args|
    decreases |names|
  {
    if names == [] then env else BindRequired(env[names[0] := LabelV(args[0])], names[1..], args[1..])
  }

  /** Defaults are evaluated left to right at each call and see the parameters before them. */
  function BindDefaults(env: Env, defaults: seq<Default>, args: seq<Val>): Result<Env, Ir.Fault>
    decreases |defaults|
  {
    if defaults == [] then Ok(env)
    else if args != [] then BindDefaults(env[defaults[0].name := LabelV(args[0])], defaults[1..], args[1..])
    else
      var v :- EvalExpression(env, defaults[0].value);
      BindDefaults(env[defaults[0].name := LabelV(v)], defaults[1..], [])
  }

  /** A function definition denotes a closure over the scope `env` at its definition. */
  function Closure(disk: Disk, loaded: Loaded, file: string, env: Env, f: Function): Meaning
    decreases f, 1
  {
    FunctionV((args, phantoms) => Apply(disk, loaded, file, env, f, args, phantoms))
  }

  function Apply(disk: Disk, loaded: Loaded, file: string, env: Env, f: Function, args: seq<Val>, phantoms: seq<Term>)
    : Result<Val, Ir.Fault>
    decreases f, 0
  {
    if !(|f.required| <= |args| <= |f.required| + |f.defaults|) then
      Err(Ir.Type(ArgumentCountMismatch(Ir.CustomArity(|f.required|, |f.defaults|), |args|)))
    else
      var bound := BindRequired(env, f.required, args[..|f.required|]);
      var entered :- BindDefaults(bound, f.defaults, args[|f.required|..]);
      var v :- EvalBody(disk, loaded, file, entered, None, f.body);
      Ok(AfterPhantoms(v, phantoms))
  }

  /** Runs a function body; exactly one statement must be a return. */
  function EvalBody(disk: Disk, loaded: Loaded, file: string, env: Env, result: Option<Val>, stmts: seq<Statement>)
    : Result<Val, Ir.Fault>
    decreases stmts, 0
  {
    if stmts == [] then
      if result.Some? then Ok(result.value) else Err(Ir.Undefined)
    else
      var (next, returned) :- EvalStatement(disk, loaded, file, env, result, stmts[0]);
      EvalBody(disk, loaded, file, next, returned, stmts[1..])
  }

  /** One statement of a function body: the scope after it and the value returned so far. */
  function EvalStatement(disk: Disk, loaded: Loaded, file: string, env: Env, result: Option<Val>, stmt: Statement)
    : Result<(Env, Option<Val>), Ir.Fault>
    decreases stmt, 1
  {
    match stmt
    case Return(e) =>
      var v :- EvalExpression(env, e);
      if result.Some? then Err(Ir.Undefined) else Ok((env, Some(v)))
    case Import(exported, path, name) =>
      if exported || disk.target(file, path) !in loaded then Err(Ir.Undefined)
      else Ok((env[name := ModuleV(loaded[disk.target(file, path)])], result))
    case Assign(exported, e, name) =>
      var v :- EvalExpression(env, e);
      if exported then Err(Ir.Undefined) else Ok((env[name := LabelV(v)], result))
    case Def(exported, f) =>
      if exported then Err(Ir.Undefined)
      else Ok((env[f.name := Closure(disk, loaded, file, env, f)], result))
  }

  /** Loads a file unless it is loaded already; importing a file that is being loaded is an error. */
  function Load(disk: Disk, loaded: Loaded, loading: set<string>, file: string): (r: Result<Loaded, Ir.Fault>)
    ensures r.Ok? ==> loaded.Keys + {file} <= r.value.Keys
    decreases disk.files.Keys - (loaded.Keys + loading), 0
  {
    if file in loaded then Ok(loaded)
    else if file in loading || file !in disk.files then Err(Ir.Undefined)
    else
      assert file in disk.files.Keys - (loaded.Keys + loading);
      var (after, exports) :- LoadStatements(disk, loaded, loading + {file}, file, PreludeEnv(), map[],
                                             disk.files[file]);
      Ok(after[file := exports])
  }

  /** Runs the statements of a file, yielding the files loaded on the way and the exports. */
  function LoadStatements(disk: Disk, loaded: Loaded, loading: set<string>, file: string, env: Env, exports: Env,
                          stmts: seq<Statement>)
    : (r: Result<(Loaded, Env), Ir.Fault>)
    ensures r.Ok? ==> loaded.Keys <= r.value.0.Keys
    decreases disk.files.Keys - (loaded.Keys + loading), 1, stmts, 0
  {
    if stmts == [] then Ok((loaded, exports))
    else
      var (after, next, exported) :- LoadStatement(disk, loaded, loading, file, env, exports, stmts[0]);
      LoadStatements(disk, after, loading, file, next, exported, stmts[1..])
  }

  /** One statement of a file: the files loaded, the scope and the exports after it. */
  function LoadStatement(disk: Disk, loaded: Loaded, loading: set<string>, file: string, env: Env, exports: Env,
                         stmt: Statement)
    : (r: Result<(Loaded, Env, Env), Ir.Fault>)
    ensures r.Ok? ==> loaded.Keys <= r.value.0.Keys
    decreases disk.files.Keys - (loaded.Keys + loading), 1, stmt, 1
  {
    match stmt
    case Return(_) => Err(Ir.Undefined)
    case Import(exported, path, name) =>
      var after :- Load(disk, loaded, loading, disk.target(file, path));
      var m := ModuleV(after[disk.target(file, path)]);
      Ok((after, env[name := m], if exported then exports[name := m] else exports))
    case Assign(exported, e, name) =>
      var v :- EvalExpression(env, e);
      Ok((loaded, env[name := LabelV(v)], if exported then exports[name := LabelV(v)] else exports))
    case Def(exported, f) =>
      var after :- LoadImports(disk, loaded, loading, file, f.body);
      var m := Closure(disk, after, file, env, f);
      Ok((after, env[f.name := m], if exported then exports[f.name := m] else exports))
  }

  /** Loads what a function body imports, nested definitions included. */
  function LoadImports(disk: Disk, loaded: Loaded, loading: set<string>, file: string, stmts: seq<Statement>)
    : (r: Result<Loaded, Ir.Fault>)
    ensures r.Ok? ==> loaded.Keys <= r.value.Keys
    decreases disk.files.Keys - (loaded.Keys + loading), 1, stmts, 0
  {
    if stmts == [] then Ok(loaded)
    else
      var after :- LoadImport(disk, loaded, loading, file, stmts[0]);
      LoadImports(disk, after, loading, file, stmts[1..])
  }

  function LoadImport(disk: Disk, loaded: Loaded, loading: set<string>, file: string, stmt: Statement)
    : (r: Result<Loaded, Ir.Fault>)
    ensures r.Ok? ==> loaded.Keys <= r.value.Keys
    decreases disk.files.Keys - (loaded.Keys + loading), 1, stmt, 1
  {
    match stmt
    case Import(_, path, _) => Load(disk, loaded, loading, disk.target(file, path))
    case Def(_, f) => LoadImports(disk, loaded, loading, file, f.body)
    case _ => Ok(loaded)
  }

  /** The meaning of the program whose entry point is the label `entry` exported by `file`. */
  function Program(disk: Disk, file: string, entry: string): Result<Val, Ir.Fault> {
    var loaded :- Load(disk, map[], {}, file);
    match EvalPath(loaded[file], ItemPath(entry, []))
    case Some(LabelV(v)) => Ok(v)
    case _ => Err(Ir.Undefined)
  }
}
