/** The resolver never mentions a symbol, function or module that does not exist, and never stores
    the same node implementation twice. */
module ResolverRanges {
  import opened Wrappers
  import opened DataModel
  import Ast
  import Ir
  import opened Resolvers

  lemma InsertInRange(scope: Scope, name: string, item: Item, st: State)
    requires ScopeInRange(scope, st) && InRange(item, st)
    ensures ScopeInRange(scope.Insert(name, item), st)
  {
    forall n | scope.Insert(name, item).Find(n).Some? ensures InRange(scope.Insert(name, item).Find(n).value, st) {
      if n != name { assert scope.Insert(name, item).Find(n) == scope.Find(n); }
    }
  }

  lemma ChildInRange(scope: Scope, st: State)
    requires ScopeInRange(scope, st)
    ensures ScopeInRange(scope.Child(), st)
  {
    forall n | scope.Child().Find(n).Some? ensures InRange(scope.Child().Find(n).value, st) {
      assert scope.Child().Find(n) == scope.Find(n);
    }
  }

  lemma ScopeStays(scope: Scope, a: State, b: State)
    requires ScopeInRange(scope, a) && Grows(a, b)
    ensures ScopeInRange(scope, b)
  {
  }

  lemma {:induction false} RequiredInRange(st: State, scope: Scope, names: seq<string>)
    requires Valid(st) && ScopeInRange(scope, st)
    ensures var (end, inner, params) := ResolveRequired(st, scope, names);
            Valid(end) && ScopeInRange(inner, end)
    decreases |names|
  {
    if names != [] {
      InsertInRange(scope, names[0], Label(Fresh(st)), Bump(st));
      RequiredInRange(Bump(st), scope.Insert(names[0], Label(Fresh(st))), names[1..]);
    }
  }

  lemma {:induction false} DefaultsInRange(st: State, scope: Scope, defaults: seq<Ast.Default>)
    requires Valid(st) && ScopeInRange(scope, st) && ResolveDefaults(st, scope, defaults).Ok?
    ensures var (end, inner, params) := ResolveDefaults(st, scope, defaults).value;
            Valid(end) && ScopeInRange(inner, end)
    decreases |defaults|
  {
    hide ResolveExpression;
    if defaults != [] {
      var after := ResolveExpression(st, scope, FunctionTarget(None, []), defaults[0].value).value.state;
      var param := Label(Fresh(after));
      ScopeStays(scope, st, Bump(after));
      InsertInRange(scope, defaults[0].name, param, Bump(after));
      DefaultsInRange(Bump(after), scope.Insert(defaults[0].name, param), defaults[1..]);
    }
  }

  lemma {:induction false} StatementInRange(disk: Ast.Disk, st: State, scope: Scope, target: Target, file: string,
                                            stmt: Ast.Statement)
    requires Valid(st) && ScopeInRange(scope, st) && TargetInRange(target, st) && |Prelude()| <= |st.functions|
    requires ResolveStatement(disk, st, scope, target, file, stmt).Ok?
    ensures var s := ResolveStatement(disk, st, scope, target, file, stmt).value;
            Valid(s.state) && ScopeInRange(s.value, s.state) && TargetInRange(s.target, s.state)
    decreases disk.files.Keys - st.moduleCache.Keys, 1, stmt, 1
  {
    hide ScopeInRange, ItemsInRange, ResolveExpression, GetModule, ResolveFunction;
    match stmt
    case Return(e) =>
      ScopeStays(scope, st, ResolveExpression(st, scope, target, e).value.state);
    case Import(exported, path, name) =>
      ModuleInRange(disk, st, disk.target(file, path));
      var (after, index) := GetModule(disk, st, disk.target(file, path)).value;
      BindInRange(st, after, scope, target, exported, name, Module(index));
    case Assign(exported, e, name) =>
      var value := ResolveExpression(st, scope, target, e).value;
      TargetStays(target, value.target, st, value.state);
      BindInRange(value.state, value.state, scope, value.target, exported, name, Label(value.value)) by {
        ScopeStays(scope, st, value.state);
      }
    case Def(exported, f) =>
      FunctionInRange(disk, st, scope, file, f);
      var (after, id) := ResolveFunction(disk, st, scope, file, f).value;
      BindInRange(st, after, scope, target, exported, f.name, Function(id));
  }

  lemma TargetStays(target: Target, after: Target, st: State, later: State)
    requires TargetInRange(target, st) && Grows(st, later) && (target.ModuleTarget? ==> after == target)
    requires TargetGrows(target, after)
    ensures TargetInRange(after, later)
  {
  }

  /** Binding and possibly exporting an item that exists. */
  lemma BindInRange(st: State, later: State, scope: Scope, target: Target, exported: bool, name: string, item: Item)
    requires ScopeInRange(scope, st) && TargetInRange(target, st) && Grows(st, later) && InRange(item, later)
    requires Export(target, exported, name, item).Ok?
    ensures ScopeInRange(scope.Insert(name, item), later)
    ensures TargetInRange(Export(target, exported, name, item).value, later)
  {
    ScopeStays(scope, st, later);
    InsertInRange(scope, name, item, later);
  }

  lemma {:induction false} StatementsInRange(disk: Ast.Disk, st: State, scope: Scope, target: Target, file: string,
                                             stmts: seq<Ast.Statement>)
    requires Valid(st) && ScopeInRange(scope, st) && TargetInRange(target, st) && |Prelude()| <= |st.functions|
    requires ResolveStatements(disk, st, scope, target, file, stmts).Ok?
    ensures var s := ResolveStatements(disk, st, scope, target, file, stmts).value;
            Valid(s.state) && ScopeInRange(s.value, s.state) && TargetInRange(s.target, s.state)
    decreases disk.files.Keys - st.moduleCache.Keys, 1, stmts, 0
  {
    if stmts != [] {
      StatementInRange(disk, st, scope, target, file, stmts[0]);
      var s := ResolveStatement(disk, st, scope, target, file, stmts[0]).value;
      StatementsInRange(disk, s.state, s.value, s.target, file, stmts[1..]);
    }
  }

  lemma {:induction false} FunctionInRange(disk: Ast.Disk, st: State, scope: Scope, file: string, f: Ast.Function)
    requires Valid(st) && ScopeInRange(scope, st) && |Prelude()| <= |st.functions|
    requires ResolveFunction(disk, st, scope, file, f).Ok?
    ensures Valid(ResolveFunction(disk, st, scope, file, f).value.0)
    decreases disk.files.Keys - st.moduleCache.Keys, 1, f, 0
  {
    hide ScopeInRange, ResolveRequired, ResolveDefaults, ResolveStatements;
    ChildInRange(scope, st);
    RequiredInRange(st, scope.Child(), f.required);
    var (bound, inner, required) := ResolveRequired(st, scope.Child(), f.required);
    DefaultsInRange(bound, inner, f.defaults);
    var (ready, outer, defaults) := ResolveDefaults(bound, inner, f.defaults).value;
    StatementsInRange(disk, ready, outer, FunctionTarget(None, []), file, f.body);
  }

  lemma {:induction false} ModuleInRange(disk: Ast.Disk, st: State, file: string)
    requires Valid(st) && |Prelude()| <= |st.functions| && GetModule(disk, st, file).Ok?
    ensures Valid(GetModule(disk, st, file).value.0)
    ensures GetModule(disk, st, file).value.1 < |GetModule(disk, st, file).value.0.modules|
    decreases disk.files.Keys - st.moduleCache.Keys, 0
  {
    hide Valid, ScopeInRange, ItemsInRange, Grows, PreludeScope, ResolveStatements;
    if file in st.moduleCache {
      CachedInRange(st, file);
    } else {
      var loading := st.(moduleCache := st.moduleCache[file := None]);
      assert file in disk.files.Keys - st.moduleCache.Keys;
      LoadingInRange(st, file);
      PreludeInRange(loading);
      var scope := PreludeScope().Child();
      StatementsInRange(disk, loading, scope, ModuleTarget(map[]), file, disk.files[file]);
      FinishInRange(ResolveStatements(disk, loading, scope, ModuleTarget(map[]), file, disk.files[file]).value, file);
    }
  }

  lemma CachedInRange(st: State, file: string)
    requires Valid(st) && file in st.moduleCache && st.moduleCache[file].Some?
    ensures st.moduleCache[file].value < |st.modules|
  {
  }

  lemma LoadingInRange(st: State, file: string)
    requires Valid(st)
    ensures Valid(st.(moduleCache := st.moduleCache[file := None]))
    ensures TargetInRange(ModuleTarget(map[]), st.(moduleCache := st.moduleCache[file := None]))
  {
  }

  lemma PreludeInRange(st: State)
    requires |Prelude()| <= |st.functions|
    ensures ScopeInRange(PreludeScope().Child(), st)
  {
    ChildInRange(PreludeScope(), st);
  }

  /** Storing the exports of a module that has just been resolved. */
  lemma FinishInRange(s: Step<Scope>, file: string)
    requires Valid(s.state) && TargetInRange(s.target, s.state) && s.target.ModuleTarget?
    ensures Valid(s.state.(modules := s.state.modules + [s.target.exports],
                           moduleCache := s.state.moduleCache[file := Some(|s.state.modules|)]))
  {
    var after := s.state.(modules := s.state.modules + [s.target.exports],
                          moduleCache := s.state.moduleCache[file := Some(|s.state.modules|)]);
    forall i | 0 <= i < |after.modules| ensures ItemsInRange(after.modules[i], after) {
      assert ItemsInRange(after.modules[i], s.state);
    }
  }
}
