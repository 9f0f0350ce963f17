/** Resolving whole modules keeps the top level in step with loading the source files: the same
    files are loaded in the same order, each stands for what it exports, and running the top level
    fails exactly where loading the source does. */
module ResolverModules {
  import opened Wrappers
  import opened DataModel
  import Ast
  import Ir
  import Source
  import opened Resolvers
  import opened ResolverRanges
  import opened ResolverMeaning
  import opened ResolverFunctions

  /** The stream of the top level, whatever the module exports. */
  const TOP: Target := ModuleTarget(map[])

  lemma TopRuns(w: Run, st: State, a: Target, b: Target, known: Ir.Env, env: Ir.Env)
    requires Running(w, st, a, known, env) && a.ModuleTarget? && b.ModuleTarget?
    ensures Running(w, st, b, known, env)
  {
  }

  lemma TopReady(w: Run, st: State, a: Target, b: Target)
    requires Ready(w, st, a) && a.ModuleTarget? && b.ModuleTarget?
    ensures Ready(w, st, b)
  {
  }

  /** The top level that has not grown is still running in a later state. */
  lemma TopRunsOn(w: Run, a: State, b: State, known: Ir.Env, env: Ir.Env)
    requires Running(w, a, TOP, known, env)
    requires b.topLevel == a.topLevel && b.literals == a.literals && a.next <= b.next
    ensures Running(w, b, TOP, known, env)
  {
  }

  /** The top level after a step that cannot fail. */
  ghost predicate TopAfter(w: Run, st: State, known: Ir.Env, known': Ir.Env, env': Ir.Env) {
    Running(w, st, TOP, known', env') && Within(known, known')
  }

  /** Inside a function, an expression only adds literals to the top level. */
  lemma {:induction false} ExpressionAtTop(w: Run, st: State, scope: Scope, target: Target, e: Ast.Expression,
                                           known: Ir.Env, env: Ir.Env)
    returns (known': Ir.Env, env': Ir.Env)
    requires Valid(st) && ScopeInRange(scope, st) && target.FunctionTarget?
    requires ResolveExpression(st, scope, target, e).Ok?
    requires Ready(w, ResolveExpression(st, scope, target, e).value.state, TOP) && Running(w, st, TOP, known, env)
    ensures TopAfter(w, ResolveExpression(st, scope, target, e).value.state, known, known', env')
    decreases e, 1
  {
    hide Running, Ready, Grows, StoresGrow, Valid, ScopeInRange;
    known', env' := known, env;
    match e
    case Number(n) => known', env' := LiteralAtTop(w, st, target, known, env, IntLit(n));
    case Text(t) => known', env' := LiteralAtTop(w, st, target, known, env, StrLit(t));
    case Label(path) =>
    case Call(node) => known', env' := NodeAtTop(w, st, scope, target, node, [], known, env);
    case Chain(start, nodes) =>
      var first := ResolveExpression(st, scope, target, start).value;
      var s := ResolveExpression(st, scope, target, e).value;
      ReadyBefore(w, first.state, TOP, s.state, TOP);
      ScopeStays(scope, st, first.state);
      var middle, env1 := ExpressionAtTop(w, st, scope, target, start, known, env);
      known', env' := ChainAtTop(w, first.state, scope, first.target, first.value, nodes, middle, env1);
  }

  lemma LiteralAtTop(w: Run, st: State, target: Target, known: Ir.Env, env: Ir.Env, l: Literal)
    returns (known': Ir.Env, env': Ir.Env)
    requires Valid(st) && Ready(w, LiteralStep(st, target, l).state, TOP) && Running(w, st, TOP, known, env)
    ensures TopAfter(w, LiteralStep(st, target, l).state, known, known', env')
  {
    hide Running, Ready, Grows, StoresGrow, Valid;
    assert LiteralStep(st, target, l).state == LiteralStep(st, TOP, l).state;
    known', env' := LiteralMeaning(w, st, TOP, known, env, l);
  }

  lemma {:induction false} ChainAtTop(w: Run, st: State, scope: Scope, target: Target, current: Ir.Symbol,
                                      nodes: seq<Ast.Node>, known: Ir.Env, env: Ir.Env)
    returns (known': Ir.Env, env': Ir.Env)
    requires Valid(st) && ScopeInRange(scope, st) && InRange(Label(current), st) && target.FunctionTarget?
    requires ResolveChain(st, scope, target, current, nodes).Ok?
    requires Ready(w, ResolveChain(st, scope, target, current, nodes).value.state, TOP)
    requires Running(w, st, TOP, known, env)
    ensures TopAfter(w, ResolveChain(st, scope, target, current, nodes).value.state, known, known', env')
    decreases nodes, 0
  {
    hide Running, Ready, Grows, StoresGrow, Valid, ScopeInRange;
    known', env' := known, env;
    if nodes != [] {
      var s := ResolveChain(st, scope, target, current, nodes).value;
      var next := ResolveNode(st, scope, target, nodes[0], [current]).value;
      ReadyBefore(w, next.state, TOP, s.state, TOP);
      ScopeStays(scope, st, next.state);
      var middle, env1 := NodeAtTop(w, st, scope, target, nodes[0], [current], known, env);
      known', env' := ChainAtTop(w, next.state, scope, next.target, next.value, nodes[1..], middle, env1);
    }
  }

  lemma {:induction false} NodeAtTop(w: Run, st: State, scope: Scope, target: Target, node: Ast.Node,
                                     first: seq<Ir.Symbol>, known: Ir.Env, env: Ir.Env)
    returns (known': Ir.Env, env': Ir.Env)
    requires Valid(st) && ScopeInRange(scope, st) && target.FunctionTarget?
    requires ResolveNode(st, scope, target, node, first).Ok?
    requires Ready(w, ResolveNode(st, scope, target, node, first).value.state, TOP) && Running(w, st, TOP, known, env)
    ensures TopAfter(w, ResolveNode(st, scope, target, node, first).value.state, known, known', env')
    decreases node, 1
  {
    hide Running, Ready, Grows, StoresGrow, Valid, ScopeInRange;
    var s := ResolveNode(st, scope, target, node, first).value;
    var args := ResolveArguments(st, scope, target, node.arguments).value;
    ReadyBefore(w, args.state, TOP, s.state, TOP);
    known', env' := ArgumentsAtTop(w, st, scope, target, node.arguments, known, env);
    TopRunsOn(w, args.state, s.state, known', env');
  }

  lemma {:induction false} ArgumentsAtTop(w: Run, st: State, scope: Scope, target: Target, es: seq<Ast.Expression>,
                                          known: Ir.Env, env: Ir.Env)
    returns (known': Ir.Env, env': Ir.Env)
    requires Valid(st) && ScopeInRange(scope, st) && target.FunctionTarget?
    requires ResolveArguments(st, scope, target, es).Ok?
    requires Ready(w, ResolveArguments(st, scope, target, es).value.state, TOP) && Running(w, st, TOP, known, env)
    ensures TopAfter(w, ResolveArguments(st, scope, target, es).value.state, known, known', env')
    decreases es, 0
  {
    hide Running, Ready, Grows, StoresGrow, Valid, ScopeInRange;
    known', env' := known, env;
    if es != [] {
      var s := ResolveArguments(st, scope, target, es).value;
      var head := ResolveExpression(st, scope, target, es[0]).value;
      ReadyBefore(w, head.state, TOP, s.state, TOP);
      ScopeStays(scope, st, head.state);
      var middle, env1 := ExpressionAtTop(w, st, scope, target, es[0], known, env);
      known', env' := ArgumentsAtTop(w, head.state, scope, head.target, es[1..], middle, env1);
    }
  }

  lemma {:induction false} DefaultsAtTop(w: Run, st: State, scope: Scope, defaults: seq<Ast.Default>, known: Ir.Env,
                                         env: Ir.Env)
    returns (known': Ir.Env, env': Ir.Env)
    requires Valid(st) && ScopeInRange(scope, st) && ResolveDefaults(st, scope, defaults).Ok?
    requires Ready(w, ResolveDefaults(st, scope, defaults).value.0, TOP) && Running(w, st, TOP, known, env)
    ensures TopAfter(w, ResolveDefaults(st, scope, defaults).value.0, known, known', env')
    decreases |defaults|
  {
    hide Running, Ready, Grows, StoresGrow, Valid, ScopeInRange, ResolveExpression;
    known', env' := known, env;
    if defaults != [] {
      var d := ResolveExpression(st, scope, APART, defaults[0].value).value;
      var end := ResolveDefaults(st, scope, defaults).value.0;
      StepGrows(st, d, end, defaults, scope);
      ReadyBefore(w, d.state, TOP, end, TOP);
      var middle, env1 := ExpressionAtTop(w, st, scope, APART, defaults[0].value, known, env);
      TopRunsOn(w, d.state, Bump(d.state), middle, env1);
      ScopeStays(scope, st, Bump(d.state));
      InsertInRange(scope, defaults[0].name, Label(Fresh(d.state)), Bump(d.state));
      BumpIsValid(d.state);
      known', env' := DefaultsAtTop(w, Bump(d.state), scope.Insert(defaults[0].name, Label(Fresh(d.state))),
                                    defaults[1..], middle, env1);
    }
  }

  /** The resolver's module cache and the source's loading agree: what is cached is loaded and
      stands for it, and what is being resolved is being loaded. */
  ghost predicate Lockstep(st: State, loaded: Source.Loaded, loading: set<string>, final: State, known: Ir.Env) {
    && (forall p {:trigger p in st.moduleCache} {:trigger p in loaded} ::
          p in loaded <==> p in st.moduleCache && st.moduleCache[p].Some?)
    && (forall p {:trigger p in st.moduleCache} {:trigger p in loading} ::
          p in loading <==> p in st.moduleCache && st.moduleCache[p].None?)
    && ModulesStand(st, loaded, final, known)
  }

  /** The outcome of running the top level after a step is the one that loading gives. */
  ghost predicate Loads(w: Run, m: Result<Source.Loaded, Ir.Fault>, st: State, loading: set<string>, known: Ir.Env,
                        known': Ir.Env, env': Ir.Env) {
    match m
    case Ok(after) => TopAfter(w, st, known, known', env') && Lockstep(st, after, loading, w.final, known')
    case Err(x) => x != Ir.Undefined && Outcome(w, st, TOP) == Err(x)
  }

  lemma ModulesStandLonger(st: State, loaded: Source.Loaded, final: State, known: Ir.Env, more: Ir.Env)
    requires ModulesStand(st, loaded, final, known) && Within(known, more)
    ensures ModulesStand(st, loaded, final, more)
  {
    forall p | p in st.moduleCache && st.moduleCache[p].Some?
      ensures ItemsStand(final.modules[st.moduleCache[p].value], loaded[p], final, more)
    {
      ItemsStandLonger(final.modules[st.moduleCache[p].value], loaded[p], final, known, more);
    }
  }

  lemma ItemsStandLonger(items: Items, env: Source.Env, final: State, known: Ir.Env, more: Ir.Env)
    requires ItemsStand(items, env, final, known) && Within(known, more)
    ensures ItemsStand(items, env, final, more)
  {
    forall k | k in env ensures Stands(items[k], env[k], final, more) {
      StandsLonger(items[k], env[k], final, known, more);
    }
  }

  lemma LockstepLater(a: State, b: State, loaded: Source.Loaded, loading: set<string>, final: State, known: Ir.Env,
                      more: Ir.Env)
    requires Lockstep(a, loaded, loading, final, known) && Within(known, more) && b.moduleCache == a.moduleCache
    ensures Lockstep(b, loaded, loading, final, more)
  {
    hide ItemsStand;
    ModulesStandLonger(a, loaded, final, known, more);
  }

  lemma LoadsWithin(w: Run, m: Result<Source.Loaded, Ir.Fault>, st: State, loading: set<string>, first: Ir.Env,
                    known: Ir.Env, known': Ir.Env, env': Ir.Env)
    requires Within(first, known) && Loads(w, m, st, loading, known, known', env')
    ensures Loads(w, m, st, loading, first, known', env')
  {
    hide Running, Lockstep;
  }

  /** Inside a function, a statement adds literals and imported modules to the top level. */
  lemma {:induction false} StatementAtTop(w: Run, disk: Ast.Disk, st: State, scope: Scope, target: Target, file: string,
                                          stmt: Ast.Statement, loaded: Source.Loaded, loading: set<string>,
                                          known: Ir.Env, env: Ir.Env)
    returns (known': Ir.Env, env': Ir.Env)
    requires Valid(st) && ScopeInRange(scope, st) && Grows(Initial(), st)
    requires target.FunctionTarget? && ResolveStatement(disk, st, scope, target, file, stmt).Ok?
    requires Ready(w, ResolveStatement(disk, st, scope, target, file, stmt).value.state, TOP)
    requires Running(w, st, TOP, known, env) && Lockstep(st, loaded, loading, w.final, known)
    ensures Loads(w, Source.LoadImport(disk, loaded, loading, file, stmt),
                  ResolveStatement(disk, st, scope, target, file, stmt).value.state, loading, known, known', env')
    decreases disk.files.Keys - st.moduleCache.Keys, 1, stmt, 1
  {
    hide Running, Ready, Grows, StoresGrow, Valid, ScopeInRange, Lockstep, ResolveExpression, GetModule,
         ResolveFunction, Source.Load, Source.LoadImports;
    var s := ResolveStatement(disk, st, scope, target, file, stmt).value;
    match stmt
    case Return(e) =>
      known', env' := ExpressionAtTop(w, st, scope, target, e, known, env);
      LockstepLater(st, s.state, loaded, loading, w.final, known, known');
    case Assign(_, e, _) =>
      known', env' := ExpressionAtTop(w, st, scope, target, e, known, env);
      LockstepLater(st, s.state, loaded, loading, w.final, known, known');
    case Import(_, path, _) =>
      known', env' := ModuleMeaning(w, disk, st, disk.target(file, path), loaded, loading, known, env);
    case Def(_, f) =>
      known', env' := FunctionAtTop(w, disk, st, scope, file, f, loaded, loading, known, env);
  }

  lemma {:induction false} StatementsAtTop(w: Run, disk: Ast.Disk, st: State, scope: Scope, target: Target,
                                           file: string, stmts: seq<Ast.Statement>, loaded: Source.Loaded,
                                           loading: set<string>, known: Ir.Env, env: Ir.Env)
    returns (known': Ir.Env, env': Ir.Env)
    requires Valid(st) && ScopeInRange(scope, st) && Grows(Initial(), st)
    requires target.FunctionTarget? && ResolveStatements(disk, st, scope, target, file, stmts).Ok?
    requires Ready(w, ResolveStatements(disk, st, scope, target, file, stmts).value.state, TOP)
    requires Running(w, st, TOP, known, env) && Lockstep(st, loaded, loading, w.final, known)
    ensures Loads(w, Source.LoadImports(disk, loaded, loading, file, stmts),
                  ResolveStatements(disk, st, scope, target, file, stmts).value.state, loading, known, known', env')
    decreases disk.files.Keys - st.moduleCache.Keys, 1, stmts, 0
  {
    hide Running, Ready, Valid, ScopeInRange, Lockstep, ResolveStatement, Source.LoadImport, Outcome;
    known', env' := known, env;
    if stmts != [] {
      var s := ResolveStatements(disk, st, scope, target, file, stmts).value;
      var next := ResolveStatement(disk, st, scope, target, file, stmts[0]).value;
      ReadyBefore(w, next.state, TOP, s.state, TOP);
      StatementInRangeHere(disk, st, scope, target, file, stmts[0]);
      known', env' := StatementAtTop(w, disk, st, scope, target, file, stmts[0], loaded, loading, known, env);
      var m := Source.LoadImport(disk, loaded, loading, file, stmts[0]);
      if m.Ok? {
        var middle := known';
        known', env' := StatementsAtTop(w, disk, next.state, next.value, next.target, file, stmts[1..], m.value,
                                        loading, middle, env');
        LoadsWithin(w, Source.LoadImports(disk, m.value, loading, file, stmts[1..]), s.state, loading, known, middle,
                    known', env');
      } else {
        StillFails(w, next.state, TOP, s.state, TOP);
      }
    }
  }

  lemma StatementInRangeHere(disk: Ast.Disk, st: State, scope: Scope, target: Target, file: string, stmt: Ast.Statement)
    requires Valid(st) && ScopeInRange(scope, st) && TargetInRange(target, st) && Grows(Initial(), st)
    requires ResolveStatement(disk, st, scope, target, file, stmt).Ok?
    ensures var s := ResolveStatement(disk, st, scope, target, file, stmt).value;
            Valid(s.state) && ScopeInRange(s.value, s.state) && TargetInRange(s.target, s.state) &&
            Grows(Initial(), s.state)
  {
    hide Valid, ScopeInRange, ResolveStatement;
    PreludeFits(st);
    StatementInRange(disk, st, scope, target, file, stmt);
  }

  lemma PreludeFits(st: State)
    requires Grows(Initial(), st)
    ensures |Prelude()| <= |st.functions|
  {
  }

  lemma {:induction false} FunctionAtTop(w: Run, disk: Ast.Disk, st: State, scope: Scope, file: string, f: Ast.Function,
                                         loaded: Source.Loaded, loading: set<string>, known: Ir.Env, env: Ir.Env)
    returns (known': Ir.Env, env': Ir.Env)
    requires Valid(st) && ScopeInRange(scope, st) && Grows(Initial(), st)
    requires ResolveFunction(disk, st, scope, file, f).Ok?
    requires Ready(w, ResolveFunction(disk, st, scope, file, f).value.0, TOP)
    requires Running(w, st, TOP, known, env) && Lockstep(st, loaded, loading, w.final, known)
    ensures Loads(w, Source.LoadImports(disk, loaded, loading, file, f.body),
                  ResolveFunction(disk, st, scope, file, f).value.0, loading, known, known', env')
    decreases disk.files.Keys - st.moduleCache.Keys, 1, f, 0
  {
    hide Running, Ready, Valid, ScopeInRange, Lockstep, ResolveStatements, ResolveDefaults, Source.LoadImports, Outcome;
    var p := PartsOf(disk, st, scope, file, f);
    var end := ResolveFunction(disk, st, scope, file, f).value.0;
    PartsInRange(disk, st, scope, file, f);
    ReadyBefore(w, p.body.state, TOP, end, TOP);
    ReadyBefore(w, p.ready, TOP, p.body.state, TOP);
    TopRunsOn(w, st, p.bound, known, env);
    var middle, env1 := DefaultsAtTop(w, p.bound, p.inner, f.defaults, known, env);
    LockstepLater(st, p.ready, loaded, loading, w.final, known, middle);
    known', env' := StatementsAtTop(w, disk, p.ready, p.outer, APART, file, f.body, loaded, loading, middle, env1);
    var m := Source.LoadImports(disk, loaded, loading, file, f.body);
    LoadsWithin(w, m, p.body.state, loading, known, middle, known', env');
    LoadsOn(w, m, p.body.state, end, loading, known, known', env');
  }

  lemma LoadsOn(w: Run, m: Result<Source.Loaded, Ir.Fault>, a: State, b: State, loading: set<string>, known: Ir.Env,
                known': Ir.Env, env': Ir.Env)
    requires Loads(w, m, a, loading, known, known', env')
    requires b.topLevel == a.topLevel && b.literals == a.literals && a.next <= b.next && b.moduleCache == a.moduleCache
    ensures Loads(w, m, b, loading, known, known', env')
  {
    hide Running, Lockstep;
    if m.Ok? {
      TopRunsOn(w, a, b, known', env');
      LockstepLater(a, b, m.value, loading, w.final, known', known');
    }
  }

  /** Getting a module puts the file at the top level exactly when the source loads it. */
  lemma {:induction false} ModuleMeaning(w: Run, disk: Ast.Disk, st: State, file: string, loaded: Source.Loaded,
                                         loading: set<string>, known: Ir.Env, env: Ir.Env)
    returns (known': Ir.Env, env': Ir.Env)
    requires Valid(st) && Grows(Initial(), st) && GetModule(disk, st, file).Ok?
    requires Ready(w, GetModule(disk, st, file).value.0, TOP)
    requires Running(w, st, TOP, known, env) && Lockstep(st, loaded, loading, w.final, known)
    ensures Loads(w, Source.Load(disk, loaded, loading, file), GetModule(disk, st, file).value.0, loading, known,
                  known', env')
    decreases disk.files.Keys - st.moduleCache.Keys, 0
  {
    hide Running, Ready, Valid, Lockstep, ResolveStatements, Source.LoadStatements, Outcome, ScopeInRange,
         ScopeStands, Grows, StoresGrow, ItemsStand;
    known', env' := known, env;
    CacheAgrees(st, file, loaded, loading, w.final, known);
    if file !in st.moduleCache {
      var begun := st.(moduleCache := st.moduleCache[file := None]);
      var scope := PreludeScope().Child();
      var s := ResolveStatements(disk, begun, scope, TOP, file, disk.files[file]).value;
      var end := GetModule(disk, st, file).value.0;
      assert file in disk.files.Keys - st.moduleCache.Keys;
      BeginModule(w, st, begun, file, loaded, loading, known, env);
      ModuleBefore(w, st, s, end, file);
      PreludeStands(w, known);
      NothingStands(w.final, known);
      known', env' := ModuleStatements(w, disk, begun, scope, TOP, file, disk.files[file], loaded, loading + {file},
                                       Source.PreludeEnv(), map[], known, env);
      EndModule(w,
                Source.LoadStatements(disk, loaded, loading + {file}, file, Source.PreludeEnv(), map[],
                                      disk.files[file]),
                Source.Load(disk, loaded, loading, file), s, end, file, loading, known, known', env');
    }
  }

  lemma CacheAgrees(st: State, file: string, loaded: Source.Loaded, loading: set<string>, final: State, known: Ir.Env)
    requires Lockstep(st, loaded, loading, final, known)
    ensures file in loaded <==> file in st.moduleCache && st.moduleCache[file].Some?
    ensures file in loading <==> file in st.moduleCache && st.moduleCache[file].None?
  {
  }

  /** Marking a file as being resolved is marking it as being loaded. */
  lemma BeginModule(w: Run, st: State, begun: State, file: string, loaded: Source.Loaded, loading: set<string>,
                    known: Ir.Env, env: Ir.Env)
    requires Valid(st) && Grows(Initial(), st) && Running(w, st, TOP, known, env)
    requires Lockstep(st, loaded, loading, w.final, known)
    requires file !in st.moduleCache && begun == st.(moduleCache := st.moduleCache[file := None])
    ensures Valid(begun) && Grows(Initial(), begun) && Running(w, begun, TOP, known, env)
    ensures Lockstep(begun, loaded, loading + {file}, w.final, known)
    ensures ScopeInRange(PreludeScope().Child(), begun)
  {
    hide Running, ScopeInRange, Valid, ModulesStand, StoresGrow;
    TopRunsOn(w, st, begun, known, env);
    BegunIsValid(st, begun, file);
    BegunModules(st, begun, file, loaded, w.final, known);
    PreludeFits(st);
    PreludeInRange(begun);
  }

  lemma BegunIsValid(st: State, begun: State, file: string)
    requires Valid(st) && file !in st.moduleCache && begun == st.(moduleCache := st.moduleCache[file := None])
    ensures Valid(begun)
  {
  }

  lemma BegunModules(st: State, begun: State, file: string, loaded: Source.Loaded, final: State, known: Ir.Env)
    requires ModulesStand(st, loaded, final, known)
    requires file !in st.moduleCache && begun == st.(moduleCache := st.moduleCache[file := None])
    ensures ModulesStand(begun, loaded, final, known) && (StoresGrow(Initial(), st) ==> StoresGrow(Initial(), begun))
  {
    hide ItemsStand;
  }

  lemma NothingStands(final: State, known: Ir.Env)
    ensures ItemsStand(map[], map[], final, known)
  {
  }

  /** The state that `GetModule` leaves once the statements of the file have been resolved. */
  ghost predicate Stored(s: Step<Scope>, end: State, file: string) {
    && s.target.ModuleTarget?
    && end == s.state.(modules := s.state.modules + [s.target.exports],
                       moduleCache := s.state.moduleCache[file := Some(|s.state.modules|)])
  }

  lemma ModuleBefore(w: Run, st: State, s: Step<Scope>, end: State, file: string)
    requires Stored(s, end, file) && Ready(w, end, TOP) && Grows(Initial(), st) && Grows(st, end)
    ensures Ready(w, s.state, TOP) && StoresGrow(Initial(), w.final) && StoresGrow(end, w.final)
  {
  }

  /** Each prelude function stands for its node. */
  lemma PreludeStands(w: Run, known: Ir.Env)
    requires StoresGrow(Initial(), w.final)
    ensures ScopeStands(PreludeScope().Child(), Source.PreludeEnv(), w.final, known)
  {
    var scope, source := PreludeScope().Child(), Source.PreludeEnv();
    forall name
      ensures scope.Find(name).Some? <==> name in source
      ensures name in source ==> Stands(scope.Find(name).value, source[name], w.final, known)
    {
      PreludeNames(name);
      if i :| 0 <= i < |Prelude()| && Prelude()[i].0 == name {
        PreludeFunction(i, source[name].call, w.final, known);
      }
    }
  }

  lemma PreludeDistinct()
    ensures forall i, j :: 0 <= i < j < |Prelude()| ==>
              Prelude()[i].0 != Prelude()[j].0 && Prelude()[i].1 != Prelude()[j].1
    ensures forall i :: 0 <= i < |Prelude()| ==> !Prelude()[i].1.LiteralNode?
  {
    hide Prelude, Position;
    forall i, j | 0 <= i < j < |Prelude()|
      ensures Prelude()[i].0 != Prelude()[j].0 && Prelude()[i].1 != Prelude()[j].1
    {
      PreludePosition(i);
      PreludePosition(j);
    }
    forall i | 0 <= i < |Prelude()| ensures !Prelude()[i].1.LiteralNode? {
      PreludePosition(i);
    }
  }

  /** The place of a name in the prelude, told from its length and its first letter. */
  function Position(name: string): nat
    requires name != ""
  {
    match (|name|, name[0])
    case (4, 'N') => 0
    case (5, 'I') => 1
    case (12, 'I') => 2
    case (4, 'E') => 3
    case (10, 'E') => 4
    case (8, 'F') => 5
    case (6, 'E') => 6
    case (6, 'T') => 7
    case (4, 'W') => 8
    case (10, 'W') => 9
    case (3, 'E') => 10
    case (6, 'G') => 11
    case (4, 'U') => 12
    case (4, 'J') => 13
    case (3, 'A') => 14
    case (9, 'T') => 15
    case (11, 'W') => 16
    case (11, 'H') => 17
    case _ => 18
  }

  function FunctionPosition(f: Wrapped): nat {
    match f
    case PullImage => 1
    case PullService => 2
    case RunCommand => 3
    case CommandOutput => 4
    case ReadHost => 5
    case ExportPath => 6
    case WriteHost => 7
    case CopyInto => 8
    case ChangeDir => 9
    case SetEnvVar => 10
    case GetEnvVar => 11
    case ChangeUser => 12
    case IntoService => 15
    case AttachService => 16
    case SetHealthcheck => 17
    case EscapeShell => 18
  }

  /** Each name of the prelude is told from the others, and so is each implementation. */
  lemma PreludePosition(i: nat)
    requires i < |Prelude()|
    ensures Prelude()[i].0 != "" && Position(Prelude()[i].0) == i
    ensures var impl := Prelude()[i].1;
      if impl.Wrap? then FunctionPosition(impl.function_) == i
      else impl == (if i == 0 then Noop else if i == 13 then Join else All) && (i == 0 || i == 13 || i == 14)
  {
  }

  lemma PreludeNames(name: string)
    ensures PreludeScope().Child().Find(name) == PreludeScope().Find(name)
    ensures PreludeScope().Find(name).Some? <==> exists i :: 0 <= i < |Prelude()| && Prelude()[i].0 == name
    ensures name in Source.PreludeEnv() <==> exists i :: 0 <= i < |Prelude()| && Prelude()[i].0 == name
    ensures forall i :: 0 <= i < |Prelude()| && Prelude()[i].0 == name ==>
              && PreludeScope().Find(name) == Some(Function(i))
              && Source.PreludeEnv()[name].FunctionV?
              && forall args, phantoms ::
                   Source.PreludeEnv()[name].call(args, phantoms) == Source.Builtin(Prelude()[i].1, args, phantoms)
  {
    hide Prelude;
    PreludeDistinct();
  }

  lemma PreludeFunction(i: nat, call: (seq<Val>, seq<Term>) -> Result<Val, Ir.Fault>, final: State, known: Ir.Env)
    requires StoresGrow(Initial(), final) && i < |Prelude()|
    requires forall args, phantoms :: call(args, phantoms) == Source.Builtin(Prelude()[i].1, args, phantoms)
    ensures Behaves(i, call, ContextOf(final), known)
  {
    hide Prelude;
    assert Initial().functions[i] == Ir.Builtin(i) && Initial().nodes[i] == Prelude()[i].1;
    assert final.functions[i] == Ir.Builtin(i) && final.nodes[i] == Prelude()[i].1;
    forall e, args, phantoms | Within(known, e)
      ensures Ir.Call(ContextOf(final), e, i, args, phantoms) == call(args, phantoms) != Err(Ir.Undefined)
    {
    }
  }

  /** Storing the exports of the file just resolved is what loading it does. */
  lemma EndModule(w: Run, m: Result<(Source.Loaded, Source.Env), Ir.Fault>, whole: Result<Source.Loaded, Ir.Fault>,
                  s: Step<Scope>, end: State, file: string, loading: set<string>, known: Ir.Env, known': Ir.Env,
                  env': Ir.Env)
    requires ModuleLoads(w, m, s, loading + {file}, known, known', env') && Stored(s, end, file) && file !in loading
    requires StoresGrow(end, w.final)
    requires m.Ok? ==> whole == Ok(m.value.0[file := m.value.1])
    requires m.Err? ==> whole == Err(m.error)
    ensures Loads(w, whole, end, loading, known, known', env')
  {
    hide Running, ItemsStand, Outcome, ModulesStand;
    if m.Ok? {
      TopRunsOn(w, s.state, end, known', env');
      StoredStands(s, end, file, m.value.0, m.value.1, w.final, known');
    } else {
      StoredOutcome(w, s, end, file);
    }
  }

  lemma StoredOutcome(w: Run, s: Step<Scope>, end: State, file: string)
    requires Stored(s, end, file)
    ensures Outcome(w, end, TOP) == Outcome(w, s.state, TOP)
  {
  }

  lemma StoredStands(s: Step<Scope>, end: State, file: string, after: Source.Loaded, exports: Source.Env, final: State,
                     known: Ir.Env)
    requires Stored(s, end, file) && StoresGrow(end, final)
    requires ModulesStand(s.state, after, final, known) && ItemsStand(s.target.exports, exports, final, known)
    ensures ModulesStand(end, after[file := exports], final, known)
  {
    hide ItemsStand;
    assert end.modules[|s.state.modules|] == s.target.exports;
  }

  /** Binding and possibly exporting an item keeps scope and exports in step with the source. */
  lemma BindingStands(final: State, scope: Scope, source: Source.Env, target: Target, exports: Source.Env,
                      known: Ir.Env, exported: bool, name: string, item: Item, m: Source.Meaning)
    requires ScopeStands(scope, source, final, known) && target.ModuleTarget?
    requires ItemsStand(target.exports, exports, final, known)
    requires Stands(item, m, final, known)
    ensures ScopeStands(scope.Insert(name, item), source[name := m], final, known)
    ensures Export(target, exported, name, item).Ok? && Export(target, exported, name, item).value.ModuleTarget?
    ensures ItemsStand(Export(target, exported, name, item).value.exports,
                       if exported then exports[name := m] else exports, final, known)
  {
    hide ScopeStands;
    InsertStands(scope, source, final, known, name, item, m);
  }

  /** The outcome of running the top level after a statement is the one that the source gives. */
  ghost predicate StatementLoads(w: Run, m: Result<(Source.Loaded, Source.Env, Source.Env), Ir.Fault>, s: Step<Scope>,
                                 loading: set<string>, known: Ir.Env, known': Ir.Env, env': Ir.Env) {
    match m
    case Ok((after, source, exports)) =>
      && TopAfter(w, s.state, known, known', env') && Lockstep(s.state, after, loading, w.final, known')
      && ScopeStands(s.value, source, w.final, known') && s.target.ModuleTarget?
      && ItemsStand(s.target.exports, exports, w.final, known')
    case Err(x) => x != Ir.Undefined && Outcome(w, s.state, TOP) == Err(x)
  }

  /** What the top level holds after a definition is what its calls may rely on. */
  lemma TopCovers(w: Run, st: State, loaded: Source.Loaded, loading: set<string>, known: Ir.Env, env: Ir.Env)
    requires Running(w, st, TOP, known, env) && Lockstep(st, loaded, loading, w.final, known) && Ready(w, st, TOP)
    ensures Covers(w.final, known, loaded, st)
  {
  }

  lemma ModuleAssign(w: Run, disk: Ast.Disk, st: State, scope: Scope, target: Target, file: string, stmt: Ast.Statement,
                     loaded: Source.Loaded, loading: set<string>, source: Source.Env, exports: Source.Env,
                     known: Ir.Env, env: Ir.Env)
    returns (known': Ir.Env, env': Ir.Env)
    requires Valid(st) && ScopeInRange(scope, st) && stmt.Assign?
    requires target.ModuleTarget? && ResolveStatement(disk, st, scope, target, file, stmt).Ok?
    requires Ready(w, ResolveStatement(disk, st, scope, target, file, stmt).value.state, TOP)
    requires Running(w, st, TOP, known, env) && Lockstep(st, loaded, loading, w.final, known)
    requires ScopeStands(scope, source, w.final, known) && ItemsStand(target.exports, exports, w.final, known)
    ensures StatementLoads(w, Source.LoadStatement(disk, loaded, loading, file, source, exports, stmt),
                           ResolveStatement(disk, st, scope, target, file, stmt).value, loading, known, known', env')
  {
    hide Running, Ready, Grows, StoresGrow, Valid, ScopeInRange, Lockstep, ScopeStands, ItemsStand, Outcome,
         ResolveExpression, Source.EvalExpression;
    var s := ResolveStatement(disk, st, scope, target, file, stmt).value;
    var value := ResolveExpression(st, scope, target, stmt.value).value;
    TopReady(w, s.state, TOP, target);
    TopRuns(w, st, TOP, target, known, env);
    known', env' := ExpressionMeaning(w, st, scope, target, stmt.value, source, known, env);
    var m := Source.EvalExpression(source, stmt.value);
    if m.Ok? {
      TopRuns(w, s.state, target, TOP, known', env');
      HoldsOne(known', env', value.value, m.value) by { RunningWithin(w, s.state, TOP, known', env'); }
      LockstepLater(st, s.state, loaded, loading, w.final, known, known');
      ScopeStandsLonger(scope, source, w.final, known, known');
      ItemsStandLonger(target.exports, exports, w.final, known, known');
      BindingStands(w.final, scope, source, target, exports, known', stmt.exported, stmt.name, Label(value.value),
                    Source.LabelV(m.value));
    } else {
      TopOutcome(w, s.state, target);
    }
  }

  lemma {:induction false} ModuleStatement(w: Run, disk: Ast.Disk, st: State, scope: Scope, target: Target,
                                           file: string, stmt: Ast.Statement, loaded: Source.Loaded,
                                           loading: set<string>, source: Source.Env, exports: Source.Env, known: Ir.Env,
                                           env: Ir.Env)
    returns (known': Ir.Env, env': Ir.Env)
    requires Valid(st) && ScopeInRange(scope, st) && Grows(Initial(), st)
    requires target.ModuleTarget? && ResolveStatement(disk, st, scope, target, file, stmt).Ok?
    requires Ready(w, ResolveStatement(disk, st, scope, target, file, stmt).value.state, TOP)
    requires Running(w, st, TOP, known, env) && Lockstep(st, loaded, loading, w.final, known)
    requires ScopeStands(scope, source, w.final, known) && ItemsStand(target.exports, exports, w.final, known)
    ensures StatementLoads(w, Source.LoadStatement(disk, loaded, loading, file, source, exports, stmt),
                           ResolveStatement(disk, st, scope, target, file, stmt).value, loading, known, known', env')
    decreases disk.files.Keys - st.moduleCache.Keys, 1, stmt, 1
  {
    hide Running, Ready, Grows, StoresGrow, Valid, ScopeInRange, Lockstep, ScopeStands, ItemsStand, Covers, Outcome,
         ResolveExpression, Source.EvalExpression, GetModule, ResolveFunction, Source.Load, Source.LoadImports;
    var s := ResolveStatement(disk, st, scope, target, file, stmt).value;
    known', env' := known, env;
    match stmt
    case Return(e) =>
    case Assign(exported, e, name) =>
      known', env' := ModuleAssign(w, disk, st, scope, target, file, stmt, loaded, loading, source, exports, known,
                                   env);
    case Import(exported, path, name) =>
      var t := disk.target(file, path);
      known', env' := ModuleMeaning(w, disk, st, t, loaded, loading, known, env);
      var m := Source.Load(disk, loaded, loading, t);
      if m.Ok? {
        LoadedStands(w.final, s.state, m.value, loading, t, known');
        ScopeStandsLonger(scope, source, w.final, known, known');
        ItemsStandLonger(target.exports, exports, w.final, known, known');
        BindingStands(w.final, scope, source, target, exports, known', exported, name,
                      Module(GetModule(disk, st, t).value.1), Source.ModuleV(m.value[t]));
      }
    case Def(exported, f) =>
      known', env' := FunctionAtTop(w, disk, st, scope, file, f, loaded, loading, known, env);
      var m := Source.LoadImports(disk, loaded, loading, file, f.body);
      if m.Ok? {
        TopCovers(w, s.state, m.value, loading, known', env');
        ScopeStandsLonger(scope, source, w.final, known, known');
        ItemsStandLonger(target.exports, exports, w.final, known, known');
        PreludeFits(st);
        DefinitionMeaning(disk, w.final, known', m.value, st, scope, file, f, source, known');
        BindingStands(w.final, scope, source, target, exports, known', exported, f.name,
                      Function(ResolveFunction(disk, st, scope, file, f).value.1),
                      Source.Closure(disk, m.value, file, source, f));
      }
  }

  lemma RunningWithin(w: Run, st: State, target: Target, known: Ir.Env, env: Ir.Env)
    requires Running(w, st, target, known, env)
    ensures Within(known, env)
  {
  }

  lemma TopOutcome(w: Run, st: State, target: Target)
    requires target.ModuleTarget?
    ensures Outcome(w, st, target) == Outcome(w, st, TOP)
  {
  }

  lemma LoadedStands(final: State, st: State, loaded: Source.Loaded, loading: set<string>, file: string, known: Ir.Env)
    requires Lockstep(st, loaded, loading, final, known) && file in st.moduleCache && st.moduleCache[file].Some?
    ensures file in loaded && Stands(Module(st.moduleCache[file].value), Source.ModuleV(loaded[file]), final, known)
  {
  }

  /** The outcome of running the top level after the statements of a file is the one that loading gives. */
  ghost predicate ModuleLoads(w: Run, m: Result<(Source.Loaded, Source.Env), Ir.Fault>, s: Step<Scope>,
                              loading: set<string>, known: Ir.Env, known': Ir.Env, env': Ir.Env) {
    match m
    case Ok((after, exports)) =>
      && TopAfter(w, s.state, known, known', env') && Lockstep(s.state, after, loading, w.final, known')
      && s.target.ModuleTarget? && ItemsStand(s.target.exports, exports, w.final, known')
    case Err(x) => x != Ir.Undefined && Outcome(w, s.state, TOP) == Err(x)
  }

  lemma {:induction false} ModuleStatements(w: Run, disk: Ast.Disk, st: State, scope: Scope, target: Target,
                                            file: string, stmts: seq<Ast.Statement>, loaded: Source.Loaded,
                                            loading: set<string>, source: Source.Env, exports: Source.Env,
                                            known: Ir.Env, env: Ir.Env)
    returns (known': Ir.Env, env': Ir.Env)
    requires Valid(st) && ScopeInRange(scope, st) && TargetInRange(target, st) && Grows(Initial(), st)
    requires target.ModuleTarget? && ResolveStatements(disk, st, scope, target, file, stmts).Ok?
    requires Ready(w, ResolveStatements(disk, st, scope, target, file, stmts).value.state, TOP)
    requires Running(w, st, TOP, known, env) && Lockstep(st, loaded, loading, w.final, known)
    requires ScopeStands(scope, source, w.final, known) && ItemsStand(target.exports, exports, w.final, known)
    ensures ModuleLoads(w, Source.LoadStatements(disk, loaded, loading, file, source, exports, stmts),
                        ResolveStatements(disk, st, scope, target, file, stmts).value, loading, known, known', env')
    decreases disk.files.Keys - st.moduleCache.Keys, 1, stmts, 0
  {
    hide Running, Ready, Valid, ScopeInRange, Lockstep, ScopeStands, ItemsStand, ResolveStatement,
         Source.LoadStatement, Outcome, TargetInRange;
    known', env' := known, env;
    if stmts != [] {
      var s := ResolveStatements(disk, st, scope, target, file, stmts).value;
      var next := ResolveStatement(disk, st, scope, target, file, stmts[0]).value;
      ReadyBefore(w, next.state, TOP, s.state, TOP);
      StatementInRangeHere(disk, st, scope, target, file, stmts[0]);
      known', env' := ModuleStatement(w, disk, st, scope, target, file, stmts[0], loaded, loading, source, exports,
                                      known, env);
      var m := Source.LoadStatement(disk, loaded, loading, file, source, exports, stmts[0]);
      if m.Ok? {
        var middle := known';
        known', env' := ModuleStatements(w, disk, next.state, next.value, next.target, file, stmts[1..], m.value.0,
                                         loading,
                                         m.value.1, m.value.2, middle, env');
      } else {
        StillFails(w, next.state, TOP, s.state, TOP);
      }
    }
  }
}
