/** The resolver succeeds exactly on the programs that are well scoped, and its errors are theirs. */
module ResolverErrors {
  import opened Wrappers
  import Ast
  import DataModel
  import Ir
  import opened Resolvers
  import S = Scoping

  /** The resolved item is one of the shape. */
  ghost predicate ItemFits(item: Item, s: S.Shape, modules: seq<Items>)
    decreases s
  {
    match s
    case ALabel => item.Label?
    case AFunction => item.Function?
    case AModule(exports) =>
      && item.Module? && item.index < |modules| && modules[item.index].Keys == exports.Keys
      && forall k :: k in exports ==> ItemFits(modules[item.index][k], exports[k], modules)
  }

  ghost predicate ItemsFit(items: Items, names: S.Names, modules: seq<Items>) {
    items.Keys == names.Keys && forall k :: k in names ==> ItemFits(items[k], names[k], modules)
  }

  ghost predicate ScopeFits(scope: Scope, names: S.Names, modules: seq<Items>) {
    forall name {:trigger scope.Find(name)} {:trigger name in names} ::
      && (scope.Find(name).Some? <==> name in names)
      && (name in names ==> ItemFits(scope.Find(name).value, names[name], modules))
  }

  /** The files that are resolved and those that are being resolved are the same. */
  ghost predicate CacheFits(st: State, files: S.Files, open: set<string>) {
    && (forall p :: p in files <==> p in st.moduleCache && st.moduleCache[p].Some?)
    && (forall p :: p in open <==> p in st.moduleCache && st.moduleCache[p].None?)
    && (forall p :: p in files ==> ModuleFits(st, st.moduleCache[p].value, files[p]))
  }

  ghost predicate ModuleFits(st: State, index: nat, exports: S.Names) {
    index < |st.modules| && ItemsFit(st.modules[index], exports, st.modules)
  }

  ghost predicate PlaceFits(target: Target, place: S.Place, modules: seq<Items>) {
    match place
    case InFile(exports) => target.ModuleTarget? && ItemsFit(target.exports, exports, modules)
    case InFunction(returned) => target.FunctionTarget? && (target.result.Some? <==> returned)
  }

  ghost predicate SameError<T, U>(r: Result<T, ResolveError>, c: Result<U, ResolveError>) {
    (r.Ok? <==> c.Ok?) && (r.Err? ==> r.error == c.error)
  }

  lemma {:induction false} ItemStillFits(item: Item, s: S.Shape, a: seq<Items>, b: seq<Items>)
    requires ItemFits(item, s, a) && a <= b
    ensures ItemFits(item, s, b)
    decreases s
  {
    if s.AModule? {
      forall k | k in s.exports ensures ItemFits(b[item.index][k], s.exports[k], b) {
        ItemStillFits(a[item.index][k], s.exports[k], a, b);
      }
    }
  }

  lemma ItemsStillFit(items: Items, names: S.Names, a: seq<Items>, b: seq<Items>)
    requires ItemsFit(items, names, a) && a <= b
    ensures ItemsFit(items, names, b)
  {
    hide ItemFits;
    forall k | k in names ensures ItemFits(items[k], names[k], b) { ItemStillFits(items[k], names[k], a, b); }
  }

  lemma ScopeStillFits(scope: Scope, names: S.Names, a: seq<Items>, b: seq<Items>)
    requires ScopeFits(scope, names, a) && a <= b
    ensures ScopeFits(scope, names, b)
  {
    hide ItemFits;
    forall name | name in names ensures ItemFits(scope.Find(name).value, names[name], b) {
      ItemStillFits(scope.Find(name).value, names[name], a, b);
    }
  }

  lemma InsertFits(scope: Scope, names: S.Names, name: string, item: Item, s: S.Shape, modules: seq<Items>)
    requires ScopeFits(scope, names, modules) && ItemFits(item, s, modules)
    ensures ScopeFits(scope.Insert(name, item), names[name := s], modules)
  {
    hide ItemFits;
    forall n
      ensures scope.Insert(name, item).Find(n).Some? <==> n in names[name := s]
      ensures n in names[name := s] ==> ItemFits(scope.Insert(name, item).Find(n).value, names[name := s][n], modules)
    {
      if n != name { assert scope.Insert(name, item).Find(n) == scope.Find(n); }
    }
  }

  lemma ChildFits(scope: Scope, names: S.Names, modules: seq<Items>)
    requires ScopeFits(scope, names, modules)
    ensures ScopeFits(scope.Child(), names, modules)
  {
    hide ItemFits;
    forall n
      ensures scope.Child().Find(n).Some? <==> n in names
      ensures n in names ==> ItemFits(scope.Child().Find(n).value, names[n], modules)
    {
      assert scope.Child().Find(n) == scope.Find(n);
    }
  }

  lemma KindFits(item: Item, s: S.Shape, modules: seq<Items>)
    requires ItemFits(item, s, modules)
    ensures item.Kind() == S.Kind(s)
  {
  }

  lemma {:induction false} FollowFits(st: State, item: Item, s: S.Shape, rest: seq<string>)
    requires ItemFits(item, s, st.modules)
    ensures SameError(Follow(st, item, rest), S.Inside(s, rest))
    ensures Follow(st, item, rest).Ok? ==> ItemFits(Follow(st, item, rest).value, S.Inside(s, rest).value, st.modules)
    decreases |rest|
  {
    if rest != [] && s.AModule? && rest[0] in s.exports {
      FollowFits(st, st.modules[item.index][rest[0]], s.exports[rest[0]], rest[1..]);
    }
  }

  /** A path that is used as a label or as a function resolves if it names one. */
  lemma UseFits(st: State, scope: Scope, names: S.Names, path: Ast.ItemPath)
    requires ScopeFits(scope, names, st.modules)
    ensures SameError(GetLabel(st, scope, path), S.Uses(names, path, LabelKind))
    ensures SameError(GetFunction(st, scope, path), S.Uses(names, path, FunctionKind))
  {
    hide ItemFits, Follow, S.Inside;
    assert scope.Find(path.base).Some? <==> path.base in names;
    if path.base in names {
      FollowFits(st, scope.Find(path.base).value, names[path.base], path.rest);
      var item := Follow(st, scope.Find(path.base).value, path.rest);
      if item.Ok? { KindFits(item.value, S.Inside(names[path.base], path.rest).value, st.modules); }
    }
  }

  lemma {:induction false} LabelsFit(st: State, scope: Scope, names: S.Names, paths: seq<Ast.ItemPath>)
    requires ScopeFits(scope, names, st.modules)
    ensures SameError(GetLabels(st, scope, paths), S.CheckLabels(names, paths))
    decreases |paths|
  {
    hide ScopeFits, GetLabel, S.Uses;
    if paths != [] {
      UseFits(st, scope, names, paths[0]);
      LabelsFit(st, scope, names, paths[1..]);
    }
  }

  /** An expression resolves exactly if it is well scoped. */
  lemma {:induction false} ExpressionFits(st: State, scope: Scope, names: S.Names, target: Target, e: Ast.Expression)
    requires ScopeFits(scope, names, st.modules)
    ensures SameError(ResolveExpression(st, scope, target, e), S.CheckExpression(names, e))
    decreases e, 1
  {
    hide ScopeFits, Grows, GetLabel, S.Uses;
    match e
    case Number(_) =>
    case Text(_) =>
    case Label(path) => UseFits(st, scope, names, path);
    case Call(node) => NodeFits(st, scope, names, target, node, []);
    case Chain(start, nodes) =>
      ExpressionFits(st, scope, names, target, start);
      var first := ResolveExpression(st, scope, target, start);
      if first.Ok? { ChainFits(first.value.state, scope, names, first.value.target, first.value.value, nodes); }
  }

  lemma {:induction false} ChainFits(st: State, scope: Scope, names: S.Names, target: Target, current: Ir.Symbol,
                                     nodes: seq<Ast.Node>)
    requires ScopeFits(scope, names, st.modules)
    ensures SameError(ResolveChain(st, scope, target, current, nodes), S.CheckNodes(names, nodes))
    decreases nodes, 0
  {
    hide ScopeFits, Grows;
    if nodes != [] {
      NodeFits(st, scope, names, target, nodes[0], [current]);
      var next := ResolveNode(st, scope, target, nodes[0], [current]);
      if next.Ok? { ChainFits(next.value.state, scope, names, next.value.target, next.value.value, nodes[1..]); }
    }
  }

  lemma {:induction false} NodeFits(st: State, scope: Scope, names: S.Names, target: Target, node: Ast.Node,
                                    first: seq<Ir.Symbol>)
    requires ScopeFits(scope, names, st.modules)
    ensures SameError(ResolveNode(st, scope, target, node, first), S.CheckNode(names, node))
    decreases node, 1
  {
    hide ScopeFits, Grows, GetFunction, GetLabels, S.Uses, S.CheckLabels;
    UseFits(st, scope, names, node.name);
    LabelsFit(st, scope, names, node.phantoms);
    ArgumentsFit(st, scope, names, target, node.arguments);
  }

  lemma {:induction false} ArgumentsFit(st: State, scope: Scope, names: S.Names, target: Target,
                                        es: seq<Ast.Expression>)
    requires ScopeFits(scope, names, st.modules)
    ensures SameError(ResolveArguments(st, scope, target, es), S.CheckArguments(names, es))
    decreases es, 0
  {
    hide ScopeFits, Grows;
    if es != [] {
      ExpressionFits(st, scope, names, target, es[0]);
      var head := ResolveExpression(st, scope, target, es[0]);
      if head.Ok? { ArgumentsFit(head.value.state, scope, names, head.value.target, es[1..]); }
    }
  }

  lemma {:induction false} RequiredFit(st: State, scope: Scope, names: S.Names, params: seq<string>)
    requires ScopeFits(scope, names, st.modules)
    ensures ScopeFits(ResolveRequired(st, scope, params).1, S.WithLabels(names, params), st.modules)
    decreases |params|
  {
    hide ScopeFits;
    if params != [] {
      InsertFits(scope, names, params[0], Label(Fresh(st)), S.ALabel, st.modules);
      RequiredFit(Bump(st), scope.Insert(params[0], Label(Fresh(st))), names[params[0] := S.ALabel], params[1..]);
    }
  }

  lemma {:induction false} DefaultsFit(st: State, scope: Scope, names: S.Names, defaults: seq<Ast.Default>)
    requires ScopeFits(scope, names, st.modules)
    ensures SameError(ResolveDefaults(st, scope, defaults), S.CheckDefaults(names, defaults))
    ensures ResolveDefaults(st, scope, defaults).Ok? ==>
              ScopeFits(ResolveDefaults(st, scope, defaults).value.1, S.CheckDefaults(names, defaults).value,
                        st.modules)
    decreases |defaults|
  {
    hide ScopeFits, ResolveExpression, S.CheckExpression, Grows;
    if defaults != [] {
      var apart := FunctionTarget(None, []);
      ExpressionFits(st, scope, names, apart, defaults[0].value);
      var d := ResolveExpression(st, scope, apart, defaults[0].value);
      if d.Ok? {
        var param := Label(Fresh(d.value.state));
        InsertFits(scope, names, defaults[0].name, param, S.ALabel, st.modules);
        DefaultsFit(Bump(d.value.state), scope.Insert(defaults[0].name, param), names[defaults[0].name := S.ALabel],
                    defaults[1..]);
      }
    }
  }

  /** What a statement leaves, resolved and checked. */
  ghost predicate StepFits(r: Result<Step<Scope>, ResolveError>, c: Result<(S.Files, S.Names, S.Place), ResolveError>,
                           open: set<string>) {
    SameError(r, c) &&
    (r.Ok? ==>
       && CacheFits(r.value.state, c.value.0, open) && ScopeFits(r.value.value, c.value.1, r.value.state.modules)
       && PlaceFits(r.value.target, c.value.2, r.value.state.modules))
  }

  /** Binding and exporting an item of the shape. */
  lemma BindFits(st: State, files: S.Files, open: set<string>, scope: Scope, names: S.Names, target: Target,
                 place: S.Place, exported: bool, name: string, item: Item, s: S.Shape)
    requires CacheFits(st, files, open) && ScopeFits(scope, names, st.modules) && PlaceFits(target, place, st.modules)
    requires ItemFits(item, s, st.modules)
    ensures var r, c := Export(target, exported, name, item), S.Bind(names, place, exported, name, s);
      && SameError(r, c)
      && (r.Ok? ==> ScopeFits(scope.Insert(name, item), c.value.0, st.modules)
                    && PlaceFits(r.value, c.value.1, st.modules))
  {
    hide ItemFits, ScopeFits, CacheFits, ItemsFit;
    InsertFits(scope, names, name, item, s, st.modules);
    if exported && place.InFile? { ExportFits(target.exports, place.exports, name, item, s, st.modules); }
  }

  lemma ExportFits(items: Items, names: S.Names, name: string, item: Item, s: S.Shape, modules: seq<Items>)
    requires ItemsFit(items, names, modules) && ItemFits(item, s, modules)
    ensures ItemsFit(items[name := item], names[name := s], modules)
  {
    hide ItemFits;
  }

  lemma PlaceStillFits(target: Target, after: Target, place: S.Place, a: seq<Items>, b: seq<Items>)
    requires PlaceFits(target, place, a) && a <= b && TargetGrows(target, after)
    requires (target.ModuleTarget? ==> after == target) && (target.FunctionTarget? ==> after.result == target.result)
    ensures PlaceFits(after, place, b)
  {
    hide ItemsFit;
    if place.InFile? { ItemsStillFit(target.exports, place.exports, a, b); }
  }

  lemma SameCache(a: State, b: State, files: S.Files, open: set<string>)
    requires CacheFits(a, files, open) && b.modules == a.modules && b.moduleCache == a.moduleCache
    ensures CacheFits(b, files, open)
  {
    hide ItemsFit;
    assert forall p :: p in files ==> ModuleFits(a, a.moduleCache[p].value, files[p]);
  }

  /** A statement resolves exactly if it is well scoped. */
  lemma {:induction false} StatementFits(disk: Ast.Disk, st: State, files: S.Files, open: set<string>, scope: Scope,
                                         names: S.Names, target: Target, place: S.Place, file: string,
                                         stmt: Ast.Statement)
    requires CacheFits(st, files, open) && ScopeFits(scope, names, st.modules) && PlaceFits(target, place, st.modules)
    ensures StepFits(ResolveStatement(disk, st, scope, target, file, stmt),
                     S.CheckStatement(disk, files, open, names, place, file, stmt), open)
    decreases disk.files.Keys - st.moduleCache.Keys, 1, stmt, 1
  {
    hide CacheFits, ScopeFits, PlaceFits, ItemFits, Grows, ResolveExpression, S.CheckExpression, GetModule, S.CheckFile,
         ResolveFunction, S.CheckFunction, TargetGrows;
    match stmt
    case Return(e) => ReturnFits(disk, st, files, open, scope, names, target, place, file, e);
    case Assign(exported, e, name) =>
      AssignFits(disk, st, files, open, scope, names, target, place, file, exported, e, name);
    case Import(exported, path, name) =>
      var t := disk.target(file, path);
      GetModuleFits(disk, st, files, open, t);
      if GetModule(disk, st, t).Ok? {
        var (after, index) := GetModule(disk, st, t).value;
        var loaded := S.CheckFile(disk, files, open, t).value;
        ImportBinds(st, after, loaded, open, scope, names, target, place, exported, name, index, t);
      }
    case Def(exported, f) =>
      FunctionFits(disk, st, files, open, scope, names, file, f);
      if ResolveFunction(disk, st, scope, file, f).Ok? {
        var (after, id) := ResolveFunction(disk, st, scope, file, f).value;
        var loaded := S.CheckFunction(disk, files, open, names, file, f).value;
        DefinitionBinds(st, after, loaded, open, scope, names, target, place, exported, f.name, id);
      }
  }

  lemma ReturnFits(disk: Ast.Disk, st: State, files: S.Files, open: set<string>, scope: Scope, names: S.Names,
                   target: Target, place: S.Place, file: string, e: Ast.Expression)
    requires CacheFits(st, files, open) && ScopeFits(scope, names, st.modules) && PlaceFits(target, place, st.modules)
    ensures StepFits(ResolveStatement(disk, st, scope, target, file, Ast.Return(e)),
                     S.CheckStatement(disk, files, open, names, place, file, Ast.Return(e)), open)
  {
    hide CacheFits, ScopeFits, ItemsFit, Grows, ResolveExpression, S.CheckExpression;
    ExpressionFits(st, scope, names, target, e);
    var value := ResolveExpression(st, scope, target, e);
    if value.Ok? { SameCache(st, value.value.state, files, open); }
  }

  lemma AssignFits(disk: Ast.Disk, st: State, files: S.Files, open: set<string>, scope: Scope, names: S.Names,
                   target: Target, place: S.Place, file: string, exported: bool, e: Ast.Expression, name: string)
    requires CacheFits(st, files, open) && ScopeFits(scope, names, st.modules) && PlaceFits(target, place, st.modules)
    ensures StepFits(ResolveStatement(disk, st, scope, target, file, Ast.Assign(exported, e, name)),
                     S.CheckStatement(disk, files, open, names, place, file, Ast.Assign(exported, e, name)), open)
  {
    hide CacheFits, ScopeFits, PlaceFits, ItemsFit, ResolveExpression, S.CheckExpression, Export, S.Bind,
         TargetGrows, StepFits;
    ExpressionFits(st, scope, names, target, e);
    var value := ResolveExpression(st, scope, target, e);
    if value.Ok? {
      var after := value.value.state;
      SameCache(st, after, files, open);
      PlaceStillFits(target, value.value.target, place, st.modules, after.modules);
      BindFits(after, files, open, scope, names, value.value.target, place, exported, name, Label(value.value.value),
               S.ALabel);
    }
    AssignSteps(disk, st, scope, target, file, files, open, names, place, exported, e, name);
  }

  lemma AssignSteps(disk: Ast.Disk, st: State, scope: Scope, target: Target, file: string, files: S.Files,
                    open: set<string>, names: S.Names, place: S.Place, exported: bool, e: Ast.Expression, name: string)
    requires SameError(ResolveExpression(st, scope, target, e), S.CheckExpression(names, e))
    requires ResolveExpression(st, scope, target, e).Ok? ==>
               var value := ResolveExpression(st, scope, target, e).value;
               var item := Label(value.value);
               var r, c := Export(value.target, exported, name, item), S.Bind(names, place, exported, name, S.ALabel);
               && CacheFits(value.state, files, open) && SameError(r, c)
               && (r.Ok? ==> ScopeFits(scope.Insert(name, item), c.value.0, value.state.modules)
                             && PlaceFits(r.value, c.value.1, value.state.modules))
    ensures StepFits(ResolveStatement(disk, st, scope, target, file, Ast.Assign(exported, e, name)),
                     S.CheckStatement(disk, files, open, names, place, file, Ast.Assign(exported, e, name)), open)
  {
    hide CacheFits, ScopeFits, PlaceFits, ResolveExpression, S.CheckExpression, Export, S.Bind, Grows, TargetGrows;
  }

  lemma ImportBinds(st: State, after: State, loaded: S.Files, open: set<string>, scope: Scope, names: S.Names,
                    target: Target, place: S.Place, exported: bool, name: string, index: nat, t: string)
    requires ScopeFits(scope, names, st.modules) && PlaceFits(target, place, st.modules) && Grows(st, after)
    requires CacheFits(after, loaded, open) && t in loaded && t in after.moduleCache
    requires after.moduleCache[t] == Some(index)
    ensures var r, c := Export(target, exported, name, Module(index)),
                        S.Bind(names, place, exported, name, S.AModule(loaded[t]));
      && SameError(r, c)
      && (r.Ok? ==> ScopeFits(scope.Insert(name, Module(index)), c.value.0, after.modules)
                    && PlaceFits(r.value, c.value.1, after.modules))
  {
    hide ScopeFits, PlaceFits, Export, S.Bind;
    ScopeStillFits(scope, names, st.modules, after.modules);
    PlaceStillFits(target, target, place, st.modules, after.modules) by { TargetStaysItself(target); }
    assert ModuleFits(after, index, loaded[t]);
    BindFits(after, loaded, open, scope, names, target, place, exported, name, Module(index), S.AModule(loaded[t]));
  }

  lemma DefinitionBinds(st: State, after: State, loaded: S.Files, open: set<string>, scope: Scope, names: S.Names,
                        target: Target, place: S.Place, exported: bool, name: string, id: nat)
    requires ScopeFits(scope, names, st.modules) && PlaceFits(target, place, st.modules) && Grows(st, after)
    requires CacheFits(after, loaded, open)
    ensures var r, c := Export(target, exported, name, Function(id)), S.Bind(names, place, exported, name, S.AFunction);
      && SameError(r, c)
      && (r.Ok? ==> ScopeFits(scope.Insert(name, Function(id)), c.value.0, after.modules)
                    && PlaceFits(r.value, c.value.1, after.modules))
  {
    hide ScopeFits, PlaceFits, CacheFits, Export, S.Bind;
    ScopeStillFits(scope, names, st.modules, after.modules);
    PlaceStillFits(target, target, place, st.modules, after.modules) by { TargetStaysItself(target); }
    BindFits(after, loaded, open, scope, names, target, place, exported, name, Function(id), S.AFunction);
  }

  lemma TargetStaysItself(target: Target)
    ensures TargetGrows(target, target)
  {
  }

  /** What a list of statements leaves, resolved and checked. */
  ghost predicate BodyFits(r: Result<Step<Scope>, ResolveError>, c: Result<(S.Files, S.Place), ResolveError>,
                           open: set<string>) {
    SameError(r, c) &&
    (r.Ok? ==>
       CacheFits(r.value.state, c.value.0, open) && PlaceFits(r.value.target, c.value.1, r.value.state.modules))
  }

  lemma {:induction false} StatementsFit(disk: Ast.Disk, st: State, files: S.Files, open: set<string>, scope: Scope,
                                         names: S.Names, target: Target, place: S.Place, file: string,
                                         stmts: seq<Ast.Statement>)
    requires CacheFits(st, files, open) && ScopeFits(scope, names, st.modules) && PlaceFits(target, place, st.modules)
    ensures BodyFits(ResolveStatements(disk, st, scope, target, file, stmts),
                     S.CheckStatements(disk, files, open, names, place, file, stmts), open)
    decreases disk.files.Keys - st.moduleCache.Keys, 1, stmts, 0
  {
    hide CacheFits, ScopeFits, PlaceFits, ResolveStatement, S.CheckStatement;
    if stmts != [] {
      StatementFits(disk, st, files, open, scope, names, target, place, file, stmts[0]);
      var r, c := ResolveStatement(disk, st, scope, target, file, stmts[0]),
                  S.CheckStatement(disk, files, open, names, place, file, stmts[0]);
      if r.Ok? {
        StatementsFit(disk, r.value.state, c.value.0, open, r.value.value, c.value.1, r.value.target, c.value.2, file,
                      stmts[1..]);
      }
    }
  }

  /** What a definition or a file leaves, resolved and checked. */
  ghost predicate FilesFit<T>(r: Result<(State, T), ResolveError>, c: Result<S.Files, ResolveError>, open: set<string>)
  {
    SameError(r, c) && (r.Ok? ==> CacheFits(r.value.0, c.value, open))
  }

  /** A definition resolves exactly if it is well scoped and returns once. */
  lemma {:induction false} FunctionFits(disk: Ast.Disk, st: State, files: S.Files, open: set<string>, scope: Scope,
                                        names: S.Names, file: string, f: Ast.Function)
    requires CacheFits(st, files, open) && ScopeFits(scope, names, st.modules)
    ensures FilesFit(ResolveFunction(disk, st, scope, file, f), S.CheckFunction(disk, files, open, names, file, f),
                     open)
    decreases disk.files.Keys - st.moduleCache.Keys, 1, f, 0
  {
    hide CacheFits, ScopeFits, ResolveStatements, S.CheckStatements, ResolveDefaults, S.CheckDefaults, ResolveRequired,
         S.WithLabels, Grows;
    ChildFits(scope, names, st.modules);
    var (bound, inner, required) := ResolveRequired(st, scope.Child(), f.required);
    RequiredFit(st, scope.Child(), names, f.required);
    var with := S.WithLabels(names, f.required);
    DefaultsFit(bound, inner, with, f.defaults);
    var d := ResolveDefaults(bound, inner, f.defaults);
    if d.Ok? {
      var (ready, outer, defaults) := d.value;
      SameCache(st, ready, files, open);
      StatementsFit(disk, ready, files, open, outer, S.CheckDefaults(with, f.defaults).value, FunctionTarget(None, []),
                    S.InFunction(false), file, f.body);
      var r := ResolveStatements(disk, ready, outer, FunctionTarget(None, []), file, f.body);
      if r.Ok? && ResolveFunction(disk, st, scope, file, f).Ok? {
        var loaded := S.CheckStatements(disk, files, open, S.CheckDefaults(with, f.defaults).value, S.InFunction(false),
                                        file, f.body).value.0;
        SameCache(r.value.state, ResolveFunction(disk, st, scope, file, f).value.0, loaded, open);
      }
    }
  }

  /** A file resolves exactly if it is well scoped. */
  lemma {:induction false} GetModuleFits(disk: Ast.Disk, st: State, files: S.Files, open: set<string>, file: string)
    requires CacheFits(st, files, open)
    ensures FilesFit(GetModule(disk, st, file), S.CheckFile(disk, files, open, file), open)
    decreases disk.files.Keys - st.moduleCache.Keys, 0
  {
    hide ResolveStatements, S.CheckStatements, ItemsFit, PreludeScope, S.PreludeNames, Grows, ScopeFits;
    if file !in st.moduleCache && file in disk.files {
      var begun := st.(moduleCache := st.moduleCache[file := None]);
      assert file in disk.files.Keys - st.moduleCache.Keys;
      OpenFits(st, files, open, file);
      PreludeFits(begun.modules);
      StatementsFit(disk, begun, files, open + {file}, PreludeScope().Child(), S.PreludeNames(), ModuleTarget(map[]),
                    S.InFile(map[]), file, disk.files[file]);
      var r := ResolveStatements(disk, begun, PreludeScope().Child(), ModuleTarget(map[]), file, disk.files[file]);
      if r.Ok? {
        var c := S.CheckStatements(disk, files, open + {file}, S.PreludeNames(), S.InFile(map[]), file,
                                   disk.files[file]).value;
        CloseFits(r.value, c.0, c.1, open, file);
      }
    }
  }

  lemma OpenFits(st: State, files: S.Files, open: set<string>, file: string)
    requires CacheFits(st, files, open) && file !in st.moduleCache
    ensures CacheFits(st.(moduleCache := st.moduleCache[file := None]), files, open + {file})
    ensures PlaceFits(ModuleTarget(map[]), S.InFile(map[]), st.modules)
  {
    hide ItemFits;
    assert forall p :: p in files ==> ModuleFits(st, st.moduleCache[p].value, files[p]);
  }

  lemma PreludeFits(modules: seq<Items>)
    ensures ScopeFits(PreludeScope().Child(), S.PreludeNames(), modules)
  {
    hide DataModel.Prelude;
    forall name
      ensures PreludeScope().Find(name).Some? <==> name in S.PreludeNames()
      ensures name in S.PreludeNames() ==> ItemFits(PreludeScope().Find(name).value, S.PreludeNames()[name], modules)
    {
    }
    ChildFits(PreludeScope(), S.PreludeNames(), modules);
  }

  /** Storing the exports of a file that has been resolved. */
  lemma CloseFits(s: Step<Scope>, files: S.Files, place: S.Place, open: set<string>, file: string)
    requires CacheFits(s.state, files, open + {file}) && PlaceFits(s.target, place, s.state.modules)
    requires s.target.ModuleTarget? && file !in open
    ensures place.InFile?
    ensures CacheFits(s.state.(modules := s.state.modules + [s.target.exports],
                               moduleCache := s.state.moduleCache[file := Some(|s.state.modules|)]),
                      files[file := place.exports], open)
  {
    hide ItemFits;
    var after := s.state.(modules := s.state.modules + [s.target.exports],
                          moduleCache := s.state.moduleCache[file := Some(|s.state.modules|)]);
    ItemsStillFit(s.target.exports, place.exports, s.state.modules, after.modules);
    forall p | p in files && p != file ensures ModuleFits(after, after.moduleCache[p].value, files[p]) {
      assert ModuleFits(s.state, s.state.moduleCache[p].value, files[p]);
      ItemsStillFit(s.state.modules[s.state.moduleCache[p].value], files[p], s.state.modules, after.modules);
    }
  }

  /** A program resolves if and only if it is well scoped, and otherwise the error is the one that checking
      names and kinds finds first. */
  lemma ResolvesIffWellScoped(disk: Ast.Disk, file: string, entry: string)
    ensures SameError(Resolve(disk, file, entry), S.CheckProgram(disk, file, entry))
  {
    hide GetModule, S.CheckFile, ItemFits, DataModel.Prelude;
    GetModuleFits(disk, Initial(), map[], {}, file);
    var r := GetModule(disk, Initial(), file);
    if r.Ok? {
      var files := S.CheckFile(disk, map[], {}, file).value;
      assert ModuleFits(r.value.0, r.value.1, files[file]);
      if entry in files[file] { KindFits(r.value.0.modules[r.value.1][entry], files[file][entry], r.value.0.modules); }
    }
  }
}
