/** The resolver: turns lexically scoped source files into the IR over global symbols. */
module Resolvers {
  import opened Wrappers
  import opened DataModel
  import Ast
  import Ir

  datatype ItemKind = LabelKind | FunctionKind | ModuleKind

  datatype ResolveError =
    | FileReading(file: string)
    | CircularImport(file: string)
    | ImportError(path: string, inner: ResolveError)
    | ItemNotFound(ident: string)
    | WrongItemKind(expected: ItemKind, got: ItemKind)
    | InvalidStatement(stmt: string)
    | DoubleReturn
    | ReturnNotFound(function_: string)

  datatype Item = Label(symbol: Ir.Symbol) | Function(id: Ir.FunctionId) | Module(index: nat) {
    function Kind(): ItemKind {
      match this
      case Label(_) => LabelKind
      case Function(_) => FunctionKind
      case Module(_) => ModuleKind
    }
  }

  type Items = map<string, Item>

  /** A lexical scope; an item not found here is looked up in the parent. */
  datatype Scope = Scope(parent: Option<Scope>, items: Items) {
    function Find(name: string): Option<Item> {
      if name in items then Some(items[name])
      else match parent
        case Some(p) => p.Find(name)
        case None => None
    }

    function Insert(name: string, item: Item): Scope {
      Scope(parent, items[name := item])
    }

    function Child(): Scope {
      Scope(Some(this), map[])
    }
  }

  /** Everything the resolver accumulates. In `moduleCache`, None marks a module being resolved. */
  datatype State = State(
    functions: seq<Ir.Function>,
    nodes: seq<NodeImpl>,
    next: nat,
    literals: map<Literal, Ir.Symbol>,
    modules: seq<Items>,
    moduleCache: map<string, Option<nat>>,
    topLevel: Ir.Body)

  /** Where statements emit: a module emits to the top level, a function to its own body. */
  datatype Target =
    | ModuleTarget(exports: Items)
    | FunctionTarget(result: Option<Ir.Symbol>, body: Ir.Body)

  /** A state with the target it emitted to and what was resolved. */
  datatype Step<+T> = Step(state: State, target: Target, value: T)

  /** `b` comes after `a`: stores only grow, cached entries stay, and whatever the top level
      gained carries a symbol allocated in between. */
  ghost predicate Grows(a: State, b: State) {
    && StoresGrow(a, b)
    && a.moduleCache.Keys <= b.moduleCache.Keys
    && (forall p :: p in a.moduleCache ==> b.moduleCache[p] == a.moduleCache[p])
  }

  ghost predicate StoresGrow(a: State, b: State) {
    && a.functions <= b.functions && a.nodes <= b.nodes && a.modules <= b.modules
    && a.topLevel <= b.topLevel && a.next <= b.next
    && a.literals.Keys <= b.literals.Keys
    && (forall l :: l in a.literals ==> b.literals[l] == a.literals[l])
    && (forall i :: |a.topLevel| <= i < |b.topLevel| ==> a.next <= b.topLevel[i].name.id < b.next)
    && (forall k :: |a.nodes| <= k < |b.nodes| ==> b.nodes[k].LiteralNode?)
  }

  /** Resolving in a function leaves its target a function target whose body only grew. */
  ghost predicate TargetGrows(a: Target, b: Target) {
    match a
    case ModuleTarget(_) => b.ModuleTarget?
    case FunctionTarget(_, body) => b.FunctionTarget? && body <= b.body
  }

  /** What resolving an expression does to the state: modules stay as they are, and the target
      keeps its exports or return value. */
  ghost predicate Advances<T>(st: State, target: Target, s: Step<T>) {
    && Grows(st, s.state) && TargetGrows(target, s.target)
    && s.state.modules == st.modules && s.state.moduleCache == st.moduleCache
    && (target.ModuleTarget? ==> s.target == target)
    && (target.FunctionTarget? ==> s.target.result == target.result)
  }

  /** The item refers to a symbol, function or module that exists. */
  ghost predicate InRange(item: Item, st: State) {
    match item
    case Label(s) => s.id < st.next
    case Function(id) => id < |st.functions|
    case Module(index) => index < |st.modules|
  }

  ghost predicate ScopeInRange(scope: Scope, st: State) {
    forall name {:trigger scope.Find(name)} :: scope.Find(name).Some? ==> InRange(scope.Find(name).value, st)
  }

  ghost predicate ItemsInRange(items: Items, st: State) {
    forall name :: name in items ==> InRange(items[name], st)
  }

  ghost predicate TargetInRange(target: Target, st: State) {
    target.ModuleTarget? ==> ItemsInRange(target.exports, st)
  }

  /** Every symbol, function and module that the state mentions exists, and no two node
      implementations are equal. */
  ghost predicate Valid(st: State) {
    && (forall l :: l in st.literals ==> st.literals[l].id < st.next)
    && (forall i :: 0 <= i < |st.topLevel| ==> st.topLevel[i].name.id < st.next)
    && (forall i :: 0 <= i < |st.modules| ==> ItemsInRange(st.modules[i], st))
    && (forall p :: p in st.moduleCache && st.moduleCache[p].Some? ==> st.moduleCache[p].value < |st.modules|)
    && (forall i, j :: 0 <= i < j < |st.nodes| ==> st.nodes[i] != st.nodes[j])
    && (forall i :: 0 <= i < |st.nodes| && st.nodes[i].LiteralNode? ==> st.nodes[i].literal in st.literals)
  }

  function Fresh(st: State): Ir.Symbol {
    Ir.Symbol(st.next)
  }

  function Bump(st: State): State {
    st.(next := st.next + 1)
  }

  /** Emits a node under a new symbol. */
  function Emit(st: State, target: Target, function_: Ir.FunctionId, args: seq<Ir.Symbol>, phantoms: seq<Ir.Symbol>)
    : (r: Step<Ir.Symbol>)
    ensures Advances(st, target, r)
    ensures Valid(st) ==> Valid(r.state) && InRange(Label(r.value), r.state)
  {
    var node := Ir.Node(Fresh(st), function_, args, phantoms);
    match target
    case ModuleTarget(_) => Step(Bump(st).(topLevel := st.topLevel + [node]), target, node.name)
    case FunctionTarget(_, body) => Step(Bump(st), target.(body := body + [node]), node.name)
  }

  function Lookup(scope: Scope, name: string): Result<Item, ResolveError> {
    match scope.Find(name)
    case Some(item) => Ok(item)
    case None => Err(ItemNotFound(name))
  }

  /** Follows `rest` through module exports. */
  function Follow(st: State, item: Item, rest: seq<string>): (r: Result<Item, ResolveError>)
    ensures r.Ok? && Valid(st) && InRange(item, st) ==> InRange(r.value, st)
    decreases |rest|
  {
    if rest == [] then Ok(item)
    else if !item.Module? then Err(WrongItemKind(ModuleKind, item.Kind()))
    else if item.index >= |st.modules| || rest[0] !in st.modules[item.index] then Err(ItemNotFound(rest[0]))
    else Follow(st, st.modules[item.index][rest[0]], rest[1..])
  }

  function GetItemPath(st: State, scope: Scope, path: Ast.ItemPath): (r: Result<Item, ResolveError>)
    ensures r.Ok? && Valid(st) && ScopeInRange(scope, st) ==> InRange(r.value, st)
  {
    var item :- Lookup(scope, path.base);
    Follow(st, item, path.rest)
  }

  function GetLabel(st: State, scope: Scope, path: Ast.ItemPath): (r: Result<Ir.Symbol, ResolveError>)
    ensures r.Ok? && Valid(st) && ScopeInRange(scope, st) ==> r.value.id < st.next
  {
    var item :- GetItemPath(st, scope, path);
    if item.Label? then Ok(item.symbol) else Err(WrongItemKind(LabelKind, item.Kind()))
  }

  function GetFunction(st: State, scope: Scope, path: Ast.ItemPath): (r: Result<Ir.FunctionId, ResolveError>)
    ensures r.Ok? && Valid(st) && ScopeInRange(scope, st) ==> r.value < |st.functions|
  {
    var item :- GetItemPath(st, scope, path);
    if item.Function? then Ok(item.id) else Err(WrongItemKind(FunctionKind, item.Kind()))
  }

  function GetLabels(st: State, scope: Scope, paths: seq<Ast.ItemPath>): Result<seq<Ir.Symbol>, ResolveError> {
    if paths == [] then Ok([])
    else
      var s :- GetLabel(st, scope, paths[0]);
      var rest :- GetLabels(st, scope, paths[1..]);
      Ok([s] + rest)
  }

  /** A literal gets one node in the top level, shared by every later occurrence. */
  function ResolveLiteral(st: State, l: Literal): (r: (State, Ir.Symbol))
    ensures Grows(st, r.0) && r.0.modules == st.modules && r.0.moduleCache == st.moduleCache
    ensures Valid(st) ==> Valid(r.0) && InRange(Label(r.1), r.0)
  {
    if l in st.literals then (st, st.literals[l])
    else
      var symbol := Fresh(st);
      (Bump(st).(nodes := st.nodes + [LiteralNode(l)],
                 functions := st.functions + [Ir.Builtin(|st.nodes|)],
                 topLevel := st.topLevel + [Ir.Node(symbol, |st.functions|, [], [])],
                 literals := st.literals[l := symbol]),
       symbol)
  }

  function LiteralStep(st: State, target: Target, l: Literal): (r: Step<Ir.Symbol>)
    ensures Advances(st, target, r)
    ensures Valid(st) ==> Valid(r.state) && InRange(Label(r.value), r.state)
  {
    var (next, s) := ResolveLiteral(st, l);
    Step(next, target, s)
  }

  function ResolveExpression(st: State, scope: Scope, target: Target, e: Ast.Expression)
    : (r: Result<Step<Ir.Symbol>, ResolveError>)
    ensures r.Ok? ==> Advances(st, target, r.value)
    ensures r.Ok? && Valid(st) && ScopeInRange(scope, st) ==>
              Valid(r.value.state) && InRange(Label(r.value.value), r.value.state)
    decreases e, 1
  {
    match e
    case Number(n) => Ok(LiteralStep(st, target, IntLit(n)))
    case Text(t) => Ok(LiteralStep(st, target, StrLit(t)))
    case Label(path) =>
      var s :- GetLabel(st, scope, path);
      Ok(Step(st, target, s))
    case Call(node) => ResolveNode(st, scope, target, node, [])
    case Chain(start, nodes) =>
      var first :- ResolveExpression(st, scope, target, start);
      ResolveChain(first.state, scope, first.target, first.value, nodes)
  }

  /** `A > B(1) > C(2)`: the value so far becomes the first argument of the next node. */
  function ResolveChain(st: State, scope: Scope, target: Target, current: Ir.Symbol, nodes: seq<Ast.Node>)
    : (r: Result<Step<Ir.Symbol>, ResolveError>)
    ensures r.Ok? ==> Advances(st, target, r.value)
    ensures r.Ok? && Valid(st) && ScopeInRange(scope, st) && InRange(Label(current), st) ==>
              Valid(r.value.state) && InRange(Label(r.value.value), r.value.state)
    decreases nodes, 0
  {
    if nodes == [] then Ok(Step(st, target, current))
    else
      var next :- ResolveNode(st, scope, target, nodes[0], [current]);
      ResolveChain(next.state, scope, next.target, next.value, nodes[1..])
  }

  function ResolveNode(st: State, scope: Scope, target: Target, node: Ast.Node, first: seq<Ir.Symbol>)
    : (r: Result<Step<Ir.Symbol>, ResolveError>)
    ensures r.Ok? ==> Advances(st, target, r.value)
    ensures r.Ok? && Valid(st) && ScopeInRange(scope, st) ==>
              Valid(r.value.state) && InRange(Label(r.value.value), r.value.state)
    decreases node, 1
  {
    var function_ :- GetFunction(st, scope, node.name);
    var phantoms :- GetLabels(st, scope, node.phantoms);
    var args :- ResolveArguments(st, scope, target, node.arguments);
    Ok(Emit(args.state, args.target, function_, first + args.value, phantoms))
  }

  function ResolveArguments(st: State, scope: Scope, target: Target, es: seq<Ast.Expression>)
    : (r: Result<Step<seq<Ir.Symbol>>, ResolveError>)
    ensures r.Ok? ==> Advances(st, target, r.value)
    ensures r.Ok? && Valid(st) && ScopeInRange(scope, st) ==>
              Valid(r.value.state) &&
              (forall i :: 0 <= i < |r.value.value| ==> InRange(Label(r.value.value[i]), r.value.state))
    decreases es, 0
  {
    if es == [] then Ok(Step(st, target, []))
    else
      var head :- ResolveExpression(st, scope, target, es[0]);
      var tail :- ResolveArguments(head.state, scope, head.target, es[1..]);
      Ok(Step(tail.state, tail.target, [head.value] + tail.value))
  }

  /** Runs the defaulted parameters left to right; each default sees the parameters before it. */
  function ResolveDefaults(st: State, scope: Scope, defaults: seq<Ast.Default>)
    : (r: Result<(State, Scope, seq<Ir.DefaultParam>), ResolveError>)
    ensures r.Ok? ==> Grows(st, r.value.0) && r.value.0.modules == st.modules && r.value.0.moduleCache == st.moduleCache
    decreases |defaults|
  {
    if defaults == [] then Ok((st, scope, []))
    else
      var default :- ResolveExpression(st, scope, FunctionTarget(None, []), defaults[0].value);
      var param := Fresh(default.state);
      var (end, inner, rest) :-
        ResolveDefaults(Bump(default.state), scope.Insert(defaults[0].name, Label(param)), defaults[1..]);
      Ok((end, inner, [Ir.DefaultParam(param, default.value, default.target.body)] + rest))
  }

  function ResolveRequired(st: State, scope: Scope, names: seq<string>): (r: (State, Scope, seq<Ir.Symbol>))
    ensures st.next <= r.0.next && r.0 == st.(next := r.0.next)
    decreases |names|
  {
    if names == [] then (st, scope, [])
    else
      var param := Fresh(st);
      var (end, inner, rest) := ResolveRequired(Bump(st), scope.Insert(names[0], Label(param)), names[1..]);
      (end, inner, [param] + rest)
  }

  /** Puts an exported item into the module's exports; a function cannot export. */
  function Export(target: Target, exported: bool, name: string, item: Item): Result<Target, ResolveError> {
    if !exported then Ok(target)
    else match target
      case ModuleTarget(exports) => Ok(ModuleTarget(exports[name := item]))
      case FunctionTarget(_, _) => Err(InvalidStatement("export"))
  }

  function SetReturnValue(target: Target, value: Ir.Symbol): Result<Target, ResolveError> {
    match target
    case ModuleTarget(_) => Err(InvalidStatement("return"))
    case FunctionTarget(Some(_), _) => Err(DoubleReturn)
    case FunctionTarget(None, body) => Ok(FunctionTarget(Some(value), body))
  }

  function ResolveStatement(disk: Ast.Disk, st: State, scope: Scope, target: Target, file: string, stmt: Ast.Statement)
    : (r: Result<Step<Scope>, ResolveError>)
    ensures r.Ok? ==> Grows(st, r.value.state) && TargetGrows(target, r.value.target)
    decreases disk.files.Keys - st.moduleCache.Keys, 1, stmt, 1
  {
    match stmt
    case Return(e) =>
      var value :- ResolveExpression(st, scope, target, e);
      var done :- SetReturnValue(value.target, value.value);
      Ok(Step(value.state, done, scope))
    case Import(exported, path, name) =>
      (match GetModule(disk, st, disk.target(file, path))
       case Err(e) => Err(ImportError(path, e))
       case Ok((loaded, index)) =>
         var done :- Export(target, exported, name, Module(index));
         Ok(Step(loaded, done, scope.Insert(name, Module(index)))))
    case Assign(exported, e, name) =>
      var value :- ResolveExpression(st, scope, target, e);
      var done :- Export(value.target, exported, name, Label(value.value));
      Ok(Step(value.state, done, scope.Insert(name, Label(value.value))))
    case Def(exported, f) =>
      var (end, id) :- ResolveFunction(disk, st, scope, file, f);
      var done :- Export(target, exported, f.name, Function(id));
      Ok(Step(end, done, scope.Insert(f.name, Function(id))))
  }

  function ResolveStatements(disk: Ast.Disk, st: State, scope: Scope, target: Target, file: string,
                             stmts: seq<Ast.Statement>)
    : (r: Result<Step<Scope>, ResolveError>)
    ensures r.Ok? ==> Grows(st, r.value.state) && TargetGrows(target, r.value.target)
    decreases disk.files.Keys - st.moduleCache.Keys, 1, stmts, 0
  {
    if stmts == [] then Ok(Step(st, target, scope))
    else
      var next :- ResolveStatement(disk, st, scope, target, file, stmts[0]);
      ResolveStatements(disk, next.state, next.value, next.target, file, stmts[1..])
  }

  /** Resolves a definition; the function gets its id after everything its body calls. */
  function ResolveFunction(disk: Ast.Disk, st: State, scope: Scope, file: string, f: Ast.Function)
    : (r: Result<(State, Ir.FunctionId), ResolveError>)
    ensures r.Ok? ==> Grows(st, r.value.0) && r.value.1 < |r.value.0.functions|
    decreases disk.files.Keys - st.moduleCache.Keys, 1, f, 0
  {
    var (bound, inner, required) := ResolveRequired(st, scope.Child(), f.required);
    var (ready, outer, defaults) :- ResolveDefaults(bound, inner, f.defaults);
    var body :- ResolveStatements(disk, ready, outer, FunctionTarget(None, []), file, f.body);
    if body.target.result.None? then Err(ReturnNotFound(f.name))
    else
      var custom := Ir.Custom(required, defaults, body.target.body, body.target.result.value);
      Ok((body.state.(functions := body.state.functions + [custom]), |body.state.functions|))
  }

  /** A module is resolved at its first import; importing one that is being resolved is an error. */
  function GetModule(disk: Ast.Disk, st: State, file: string): (r: Result<(State, nat), ResolveError>)
    ensures r.Ok? ==>
              Grows(st, r.value.0) && file in r.value.0.moduleCache && r.value.0.moduleCache[file] == Some(r.value.1)
    decreases disk.files.Keys - st.moduleCache.Keys, 0
  {
    if file in st.moduleCache then
      match st.moduleCache[file]
      case Some(index) => Ok((st, index))
      case None => Err(CircularImport(file))
    else if file !in disk.files then Err(FileReading(file))
    else
      var loading := st.(moduleCache := st.moduleCache[file := None]);
      assert disk.files.Keys - loading.moduleCache.Keys < disk.files.Keys - st.moduleCache.Keys by {
        assert file in disk.files.Keys - st.moduleCache.Keys;
      }
      var module_ :- ResolveStatements(disk, loading, PreludeScope().Child(), ModuleTarget(map[]), file,
                                       disk.files[file]);
      var index := |module_.state.modules|;
      Ok((module_.state.(modules := module_.state.modules + [module_.target.exports],
                         moduleCache := module_.state.moduleCache[file := Some(index)]),
          index))
  }

  function PreludeScope(): Scope {
    Scope(None, map i | 0 <= i < |Prelude()| :: Prelude()[i].0 := Function(i))
  }

  function Initial(): State {
    State(seq(|Prelude()|, i requires 0 <= i < |Prelude()| => Ir.Builtin(i)),
          seq(|Prelude()|, i requires 0 <= i < |Prelude()| => Prelude()[i].1),
          0, map[], [], map[], [])
  }

  const NOOP: Ir.KindId := 0

  function ContextOf(st: State): Ir.Context {
    Ir.Context(st.functions, st.nodes, NOOP)
  }

  /** Resolves the program whose entry point is the label `entry` exported by `file`. */
  function Resolve(disk: Ast.Disk, file: string, entry: string): Result<Ir.Pipeline, ResolveError> {
    var (st, index) :- GetModule(disk, Initial(), file);
    if index >= |st.modules| || entry !in st.modules[index] then Err(ItemNotFound(entry))
    else
      var item := st.modules[index][entry];
      if item.Label? then Ok(Ir.Pipeline(st.topLevel, ContextOf(st), item.symbol))
      else Err(WrongItemKind(LabelKind, item.Kind()))
  }
}
