/** A resolved function behaves as the closure that its definition denotes: from every activation
    that extends the scope of the definition, calling it computes what applying the closure does. */
module ResolverFunctions {
  import opened Wrappers
  import opened DataModel
  import Ast
  import Ir
  import Source
  import opened Resolvers
  import opened ResolverRanges
  import opened ResolverMeaning

  /** The top-level bindings `top` hold everything that resolving up to `st` put at the top level. */
  ghost predicate Covers(final: State, top: Ir.Env, loaded: Source.Loaded, st: State) {
    && StoresGrow(st, final) && Avoids(top, st)
    && LiteralsBound(st.literals, top) && ModulesStand(st, loaded, final, top)
  }

  /** The bindings relied on extend `top` only by symbols that exist. */
  ghost predicate Visible(known: Ir.Env, st: State, top: Ir.Env) {
    Within(top, known) && forall s :: s in known ==> s.id < st.next || s in top
  }

  lemma CoversBefore(final: State, top: Ir.Env, loaded: Source.Loaded, a: State, b: State)
    requires Covers(final, top, loaded, b) && Grows(a, b)
    ensures Covers(final, top, loaded, a)
  {
    AvoidsBefore(top, a, b);
  }

  lemma CoversIsReady(w: Run, st: State, target: Target)
    requires Covers(w.final, w.top, w.loaded, st) && |st.functions| <= w.limit <= |w.final.functions|
    requires target.FunctionTarget?
    ensures Ready(w, st, target)
  {
  }

  /** A function body starts running with nothing emitted. */
  lemma StartsRunning(w: Run, st: State, known: Ir.Env)
    requires Visible(known, st, w.top) && Within(known, w.start)
    ensures Running(w, st, FunctionTarget(None, []), known, w.start)
  {
  }

  lemma RunningShows(w: Run, st: State, target: Target, known: Ir.Env, env: Ir.Env)
    requires Running(w, st, target, known, env) && target.FunctionTarget?
    ensures Visible(known, st, w.top) && Within(known, env)
  {
  }

  lemma VisibleLater(known: Ir.Env, top: Ir.Env, a: State, b: State)
    requires Visible(known, a, top) && a.next <= b.next
    ensures Visible(known, b, top)
  {
  }

  lemma FreshIsInvisible(known: Ir.Env, st: State, top: Ir.Env)
    requires Valid(st) && Visible(known, st, top) && Avoids(top, Bump(st))
    ensures Fresh(st) !in known
  {
  }

  /** Binding a fresh symbol and a name to the same value keeps scope and activation in step. */
  lemma BindStands(final: State, st: State, top: Ir.Env, scope: Scope, source: Source.Env, known: Ir.Env, env: Ir.Env,
                   name: string, v: Val)
    requires Valid(st) && Visible(known, st, top) && Avoids(top, Bump(st))
    requires ScopeStands(scope, source, final, known) && Within(known, env)
    ensures Fresh(st) !in known && Visible(known[Fresh(st) := v], Bump(st), top)
    ensures ScopeStands(scope.Insert(name, Label(Fresh(st))), source[name := Source.LabelV(v)], final,
                        known[Fresh(st) := v])
    ensures Within(known[Fresh(st) := v], env[Fresh(st) := v])
  {
    FreshIsInvisible(known, st, top);
    ScopeStandsLonger(scope, source, final, known, known[Fresh(st) := v]);
    InsertStands(scope, source, final, known[Fresh(st) := v], name, Label(Fresh(st)), Source.LabelV(v));
  }

  lemma InsertStands(scope: Scope, source: Source.Env, final: State, known: Ir.Env, name: string, item: Item,
                     m: Source.Meaning)
    requires ScopeStands(scope, source, final, known) && Stands(item, m, final, known)
    ensures ScopeStands(scope.Insert(name, item), source[name := m], final, known)
  {
    forall n
      ensures scope.Insert(name, item).Find(n).Some? <==> n in source[name := m]
      ensures n in source[name := m] ==>
                Stands(scope.Insert(name, item).Find(n).value, source[name := m][n], final, known)
    {
      if n != name { assert scope.Insert(name, item).Find(n) == scope.Find(n); }
    }
  }

  lemma ChildStands(scope: Scope, source: Source.Env, final: State, known: Ir.Env)
    requires ScopeStands(scope, source, final, known)
    ensures ScopeStands(scope.Child(), source, final, known)
  {
    forall n
      ensures scope.Child().Find(n).Some? <==> n in source
      ensures n in source ==> Stands(scope.Child().Find(n).value, source[n], final, known)
    {
      assert scope.Child().Find(n) == scope.Find(n);
    }
  }

  /** Binding required parameters keeps scope and activation in step. */
  lemma {:induction false} RequiredMeaning(final: State, top: Ir.Env, st: State, scope: Scope, names: seq<string>,
                                           args: seq<Val>, source: Source.Env, known: Ir.Env, env: Ir.Env)
    returns (known': Ir.Env)
    requires Valid(st) && |names| == |args| && Avoids(top, ResolveRequired(st, scope, names).0)
    requires Visible(known, st, top) && Within(known, env) && ScopeStands(scope, source, final, known)
    ensures |ResolveRequired(st, scope, names).2| == |args|
    ensures Within(known, known') && Visible(known', ResolveRequired(st, scope, names).0, top)
    ensures Within(known', Ir.BindRequired(env, ResolveRequired(st, scope, names).2, args))
    ensures ScopeStands(ResolveRequired(st, scope, names).1, Source.BindRequired(source, names, args), final, known')
    decreases |names|
  {
    hide Visible, ScopeStands, Avoids, Valid;
    known' := known;
    if names != [] {
      var end := ResolveRequired(st, scope, names).0;
      AvoidsEarlier(top, Bump(st), end);
      BindStands(final, st, top, scope, source, known, env, names[0], args[0]);
      BumpIsValid(st);
      known' := RequiredMeaning(final, top, Bump(st), scope.Insert(names[0], Label(Fresh(st))), names[1..], args[1..],
                                source[names[0] := Source.LabelV(args[0])], known[Fresh(st) := args[0]],
                                env[Fresh(st) := args[0]]);
    }
  }

  lemma AvoidsEarlier(top: Ir.Env, a: State, b: State)
    requires Avoids(top, b) && b == a.(next := b.next) && a.next <= b.next
    ensures Avoids(top, a)
  {
    forall s | s in top ensures a.next <= s.id || BoundAtTop(a, s) {
      if s.id < b.next {
        var i :| 0 <= i < |b.topLevel| && b.topLevel[i].name == s;
        assert a.topLevel[i].name == s;
      }
    }
  }

  lemma BumpIsValid(st: State)
    requires Valid(st)
    ensures Valid(Bump(st))
  {
  }

  /** The target in which a default expression is resolved. */
  const APART: Target := FunctionTarget(None, [])

  /** Bindings `r` are those that the source scope `m` describes. */
  ghost predicate Enters(m: Result<Source.Env, Ir.Fault>, r: Result<Ir.Env, Ir.Fault>, scope: Scope, st: State,
                         final: State, top: Ir.Env, known: Ir.Env) {
    match m
    case Ok(source) =>
      r.Ok? && Visible(known, st, top) && Within(known, r.value) && ScopeStands(scope, source, final, known)
    case Err(x) => x != Ir.Undefined && r == Err(x)
  }

  /** Running the body of a default computes what its expression denotes. */
  lemma DefaultMeaning(w: Run, st: State, scope: Scope, e: Ast.Expression, source: Source.Env, known: Ir.Env)
    returns (known': Ir.Env, env': Ir.Env)
    requires Valid(st) && ScopeInRange(scope, st) && ResolveExpression(st, scope, APART, e).Ok?
    requires Covers(w.final, w.top, w.loaded, ResolveExpression(st, scope, APART, e).value.state)
    requires |ResolveExpression(st, scope, APART, e).value.state.functions| <= w.limit <= |w.final.functions|
    requires Visible(known, st, w.top) && Within(known, w.start) && ScopeStands(scope, source, w.final, known)
    ensures Source.EvalExpression(source, e).Ok? ==>
              && Ir.Exec(ContextOf(w.final), w.limit, w.start,
                         ResolveExpression(st, scope, APART, e).value.target.body) == Ok(env')
              && Within(known', env') && Within(known, known')
              && Visible(known', ResolveExpression(st, scope, APART, e).value.state, w.top)
              && Holds(known', [ResolveExpression(st, scope, APART, e).value.value],
                       [Source.EvalExpression(source, e).value])
    ensures Source.EvalExpression(source, e).Err? ==>
              && Source.EvalExpression(source, e) != Err(Ir.Undefined)
              && Ir.Exec(ContextOf(w.final), w.limit, w.start, ResolveExpression(st, scope, APART, e).value.target.body)
                 == Err(Source.EvalExpression(source, e).error)
  {
    hide Running, Covers, Visible, Ready, Valid, ScopeStands, Grows, StoresGrow, ScopeInRange;
    var s := ResolveExpression(st, scope, APART, e).value;
    StartsRunning(w, st, known);
    CoversIsReady(w, s.state, s.target);
    known', env' := ExpressionMeaning(w, st, scope, APART, e, source, known, w.start);
    if Source.EvalExpression(source, e).Ok? {
      RunningShows(w, s.state, s.target, known', env');
      RunningRan(w, s.state, s.target, known', env');
    }
  }

  lemma RunningRan(w: Run, st: State, target: Target, known: Ir.Env, env: Ir.Env)
    requires Running(w, st, target, known, env)
    ensures Outcome(w, st, target) == Ok(env)
  {
  }

  /** Binding defaulted parameters left to right keeps scope and activation in step. */
  lemma {:induction false} DefaultsMeaning(final: State, top: Ir.Env, loaded: Source.Loaded, id: Ir.FunctionId,
                                           st: State, scope: Scope, defaults: seq<Ast.Default>, args: seq<Val>,
                                           source: Source.Env, known: Ir.Env, env: Ir.Env)
    returns (known': Ir.Env)
    requires Valid(st) && ScopeInRange(scope, st) && ResolveDefaults(st, scope, defaults).Ok?
    requires Covers(final, top, loaded, ResolveDefaults(st, scope, defaults).value.0)
    requires |ResolveDefaults(st, scope, defaults).value.0.functions| <= id <= |final.functions|
    requires Visible(known, st, top) && Within(known, env) && ScopeStands(scope, source, final, known)
    ensures Enters(Source.BindDefaults(source, defaults, args),
                   Ir.BindDefaults(ContextOf(final), id, env, ResolveDefaults(st, scope, defaults).value.2, args),
                   ResolveDefaults(st, scope, defaults).value.1, ResolveDefaults(st, scope, defaults).value.0,
                   final, top, known')
    decreases |defaults|
  {
    hide Covers, Visible, Valid, ScopeStands, Grows, StoresGrow, ScopeInRange, ResolveExpression,
         Source.EvalExpression, Ir.Exec, Avoids;
    known' := known;
    if defaults != [] {
      var d := ResolveExpression(st, scope, APART, defaults[0].value).value;
      var param, name := Fresh(d.state), defaults[0].name;
      var end := ResolveDefaults(st, scope, defaults).value.0;
      StepGrows(st, d, end, defaults, scope);
      CoversBefore(final, top, loaded, Bump(d.state), end);
      CoversBefore(final, top, loaded, d.state, end);
      CoversAvoids(final, top, loaded, Bump(d.state));
      ScopeStays(scope, st, Bump(d.state));
      InsertInRange(scope, name, Label(param), Bump(d.state));
      BumpIsValid(d.state);
      if args != [] {
        VisibleLater(known, top, st, d.state);
        BindStands(final, d.state, top, scope, source, known, env, name, args[0]);
        known' := DefaultsMeaning(final, top, loaded, id, Bump(d.state), scope.Insert(name, Label(param)),
                                  defaults[1..], args[1..],
                                  source[name := Source.LabelV(args[0])], known[param := args[0]],
                                  env[param := args[0]]);
      } else {
        var known1, env1 := DefaultMeaning(Run(final, id, env, top, loaded), st, scope, defaults[0].value, source,
                                           known);
        if Source.EvalExpression(source, defaults[0].value).Ok? {
          var v := Source.EvalExpression(source, defaults[0].value).value;
          HoldsOne(known1, env1, d.value, v);
          ScopeStandsLonger(scope, source, final, known, known1);
          BindStands(final, d.state, top, scope, source, known1, env1, name, v);
          known' := DefaultsMeaning(final, top, loaded, id, Bump(d.state), scope.Insert(name, Label(param)),
                                    defaults[1..], [],
                                    source[name := Source.LabelV(v)], known1[param := v], env1[param := v]);
        }
      }
    }
  }

  lemma HoldsOne(known: Ir.Env, env: Ir.Env, s: Ir.Symbol, v: Val)
    requires Holds(known, [s], [v]) && Within(known, env)
    ensures s in known && known[s] == v && s in env && env[s] == v
  {
    assert [s][0] == s && [v][0] == v;
  }

  lemma CoversAvoids(final: State, top: Ir.Env, loaded: Source.Loaded, st: State)
    requires Covers(final, top, loaded, st)
    ensures Avoids(top, st)
  {
  }

  lemma StepGrows(st: State, d: Step<Ir.Symbol>, end: State, defaults: seq<Ast.Default>, scope: Scope)
    requires defaults != [] && ResolveDefaults(st, scope, defaults).Ok?
    requires end == ResolveDefaults(st, scope, defaults).value.0
    requires ResolveExpression(st, scope, APART, defaults[0].value) == Ok(d)
    ensures Grows(st, d.state) && Grows(st, Bump(d.state)) && Grows(d.state, end) && Grows(Bump(d.state), end)
    ensures |d.state.functions| <= |end.functions| && st.next <= d.state.next
  {
    var rest := ResolveDefaults(Bump(d.state), scope.Insert(defaults[0].name, Label(Fresh(d.state))), defaults[1..]);
    assert rest.Ok? && rest.value.0 == end;
  }

  ghost predicate ResultHolds(target: Target, result: Option<Val>, known: Ir.Env) {
    && target.FunctionTarget? && target.result.Some? == result.Some?
    && (result.Some? ==> target.result.value in known && known[target.result.value] == result.value)
  }

  /** The outcome of running a statement is the one that the source gives. */
  ghost predicate StatementFollows(w: Run, m: Result<(Source.Env, Option<Val>), Ir.Fault>, s: Step<Scope>,
                                   known: Ir.Env, env: Ir.Env) {
    match m
    case Ok((source, result)) =>
      && Running(w, s.state, s.target, known, env) && ScopeStands(s.value, source, w.final, known)
      && ResultHolds(s.target, result, known)
    case Err(x) => x != Ir.Undefined && Outcome(w, s.state, s.target) == Err(x)
  }

  /** The outcome of running a whole body is the one that the source gives. */
  ghost predicate BodyFollows(w: Run, m: Result<Val, Ir.Fault>, s: Step<Scope>) {
    match m
    case Ok(v) =>
      && s.target.FunctionTarget? && s.target.result.Some? && Outcome(w, s.state, s.target).Ok?
      && s.target.result.value in Outcome(w, s.state, s.target).value
      && Outcome(w, s.state, s.target).value[s.target.result.value] == v
    case Err(x) => x != Ir.Undefined && Outcome(w, s.state, s.target) == Err(x)
  }

  /** A stream that has not grown is still running in a later state. */
  lemma RunsOn(w: Run, a: State, before: Target, b: State, after: Target, known: Ir.Env, env: Ir.Env)
    requires Running(w, a, before, known, env) && before.FunctionTarget? && after.FunctionTarget?
    requires after.body == before.body && a.next <= b.next
    ensures Running(w, b, after, known, env)
  {
  }

  lemma ModuleStands(w: Run, st: State, file: string, known: Ir.Env)
    requires Covers(w.final, w.top, w.loaded, st) && Within(w.top, known)
    requires file in st.moduleCache && st.moduleCache[file].Some?
    ensures file in w.loaded
    ensures Stands(Module(st.moduleCache[file].value), Source.ModuleV(w.loaded[file]), w.final, known)
  {
    StandsLonger(Module(st.moduleCache[file].value), Source.ModuleV(w.loaded[file]), w.final, w.top, known);
  }

  lemma {:induction false} StatementMeaning(w: Run, disk: Ast.Disk, st: State, scope: Scope, target: Target,
                                            file: string, stmt: Ast.Statement, source: Source.Env, known: Ir.Env,
                                            env: Ir.Env, result: Option<Val>)
    returns (known': Ir.Env, env': Ir.Env)
    requires Valid(st) && ScopeInRange(scope, st) && |Prelude()| <= |st.functions|
    requires target.FunctionTarget? && ResolveStatement(disk, st, scope, target, file, stmt).Ok?
    requires Covers(w.final, w.top, w.loaded, ResolveStatement(disk, st, scope, target, file, stmt).value.state)
    requires |ResolveStatement(disk, st, scope, target, file, stmt).value.state.functions|
             <= w.limit <= |w.final.functions|
    requires Running(w, st, target, known, env) && ScopeStands(scope, source, w.final, known)
    requires ResultHolds(target, result, known)
    ensures StatementFollows(w, Source.EvalStatement(disk, w.loaded, file, source, result, stmt),
                             ResolveStatement(disk, st, scope, target, file, stmt).value, known', env')
    decreases stmt, 1
  {
    hide Running, Covers, Visible, Ready, Valid, ScopeStands, Grows, StoresGrow, ScopeInRange, Outcome,
         ResolveExpression, Source.EvalExpression, GetModule, ResolveFunction;
    var s := ResolveStatement(disk, st, scope, target, file, stmt).value;
    CoversIsReady(w, s.state, s.target);
    known', env' := known, env;
    RunningShows(w, st, target, known, env);
    match stmt
    case Return(e) =>
      var value := ResolveExpression(st, scope, target, e).value;
      CoversIsReady(w, s.state, value.target);
      known', env' := ExpressionMeaning(w, st, scope, target, e, source, known, env);
      if Source.EvalExpression(source, e).Ok? {
        HoldsOne(known', env', value.value, Source.EvalExpression(source, e).value) by {
          RunningShows(w, value.state, value.target, known', env');
        }
        ScopeStandsLonger(scope, source, w.final, known, known');
        RunsOn(w, value.state, value.target, s.state, s.target, known', env');
      } else {
        SameOutcome(w, value.state, value.target, s.target);
      }
    case Assign(exported, e, name) =>
      var value := ResolveExpression(st, scope, target, e).value;
      known', env' := ExpressionMeaning(w, st, scope, target, e, source, known, env);
      if Source.EvalExpression(source, e).Ok? {
        HoldsOne(known', env', value.value, Source.EvalExpression(source, e).value) by {
          RunningShows(w, value.state, value.target, known', env');
        }
        ScopeStandsLonger(scope, source, w.final, known, known');
        InsertStands(scope, source, w.final, known', name, Label(value.value),
                     Source.LabelV(Source.EvalExpression(source, e).value));
      }
    case Import(exported, path, name) =>
      var t := disk.target(file, path);
      ModuleStands(w, s.state, t, known);
      InsertStands(scope, source, w.final, known, name, Module(GetModule(disk, st, t).value.1),
                   Source.ModuleV(w.loaded[t]));
      RunsOn(w, st, target, s.state, s.target, known, env) by { GrowsNext(st, s.state); }
    case Def(exported, f) =>
      var id := ResolveFunction(disk, st, scope, file, f).value.1;
      DefinitionMeaning(disk, w.final, w.top, w.loaded, st, scope, file, f, source, known);
      InsertStands(scope, source, w.final, known, f.name, Function(id),
                   Source.Closure(disk, w.loaded, file, source, f));
      RunsOn(w, st, target, s.state, s.target, known, env) by { GrowsNext(st, s.state); }
  }

  lemma GrowsNext(a: State, b: State)
    requires Grows(a, b)
    ensures a.next <= b.next
  {
  }

  lemma SameOutcome(w: Run, st: State, a: Target, b: Target)
    requires a.FunctionTarget? && b.FunctionTarget? && a.body == b.body
    ensures Outcome(w, st, a) == Outcome(w, st, b)
  {
  }

  lemma {:induction false} BodyMeaning(w: Run, disk: Ast.Disk, st: State, scope: Scope, target: Target, file: string,
                                       stmts: seq<Ast.Statement>, source: Source.Env, known: Ir.Env, env: Ir.Env,
                                       result: Option<Val>)
    requires Valid(st) && ScopeInRange(scope, st) && |Prelude()| <= |st.functions|
    requires target.FunctionTarget? && ResolveStatements(disk, st, scope, target, file, stmts).Ok?
    requires ResolveStatements(disk, st, scope, target, file, stmts).value.target.result.Some?
    requires Covers(w.final, w.top, w.loaded, ResolveStatements(disk, st, scope, target, file, stmts).value.state)
    requires |ResolveStatements(disk, st, scope, target, file, stmts).value.state.functions|
             <= w.limit <= |w.final.functions|
    requires Running(w, st, target, known, env) && ScopeStands(scope, source, w.final, known)
    requires ResultHolds(target, result, known)
    ensures BodyFollows(w, Source.EvalBody(disk, w.loaded, file, source, result, stmts),
                        ResolveStatements(disk, st, scope, target, file, stmts).value)
    decreases stmts, 0
  {
    hide Running, Covers, Visible, Ready, Valid, ScopeStands, Grows, StoresGrow, ScopeInRange, Outcome,
         ResolveStatement, Source.EvalStatement;
    var s := ResolveStatements(disk, st, scope, target, file, stmts).value;
    if stmts == [] {
      RunningShows(w, st, target, known, env);
      RunningRan(w, st, target, known, env);
    } else {
      var next := ResolveStatement(disk, st, scope, target, file, stmts[0]).value;
      CoversBefore(w.final, w.top, w.loaded, next.state, s.state);
      FunctionsGrow(st, next.state, s.state);
      StatementInRange(disk, st, scope, target, file, stmts[0]);
      var known', env' := StatementMeaning(w, disk, st, scope, target, file, stmts[0], source, known, env, result);
      var m := Source.EvalStatement(disk, w.loaded, file, source, result, stmts[0]);
      if m.Ok? {
        BodyMeaning(w, disk, next.state, next.value, next.target, file, stmts[1..], m.value.0, known', env', m.value.1);
      } else {
        StillFails(w, next.state, next.target, s.state, s.target);
      }
    }
  }

  lemma FunctionsGrow(a: State, b: State, c: State)
    requires Grows(a, b) && Grows(b, c)
    ensures |a.functions| <= |b.functions| <= |c.functions|
  {
  }

  /** The parts that a definition resolves to. */
  datatype Parts = Parts(bound: State, inner: Scope, required: seq<Ir.Symbol>,
                         ready: State, outer: Scope, defaults: seq<Ir.DefaultParam>, body: Step<Scope>)

  function PartsOf(disk: Ast.Disk, st: State, scope: Scope, file: string, f: Ast.Function): Parts
    requires ResolveFunction(disk, st, scope, file, f).Ok?
  {
    var (bound, inner, required) := ResolveRequired(st, scope.Child(), f.required);
    var (ready, outer, defaults) := ResolveDefaults(bound, inner, f.defaults).value;
    Parts(bound, inner, required, ready, outer, defaults,
          ResolveStatements(disk, ready, outer, APART, file, f.body).value)
  }

  lemma {:induction false} RequiredLength(st: State, scope: Scope, names: seq<string>)
    ensures |ResolveRequired(st, scope, names).2| == |names|
    decreases |names|
  {
    if names != [] {
      RequiredLength(Bump(st), scope.Insert(names[0], Label(Fresh(st))), names[1..]);
    }
  }

  lemma {:induction false} DefaultsLength(st: State, scope: Scope, defaults: seq<Ast.Default>)
    requires ResolveDefaults(st, scope, defaults).Ok?
    ensures |ResolveDefaults(st, scope, defaults).value.2| == |defaults|
    decreases |defaults|
  {
    hide ResolveExpression, Grows, StoresGrow;
    if defaults != [] {
      var d := ResolveExpression(st, scope, APART, defaults[0].value).value;
      DefaultsLength(Bump(d.state), scope.Insert(defaults[0].name, Label(Fresh(d.state))), defaults[1..]);
    }
  }

  lemma PartsShape(disk: Ast.Disk, st: State, scope: Scope, file: string, f: Ast.Function, final: State)
    requires ResolveFunction(disk, st, scope, file, f).Ok?
    requires StoresGrow(ResolveFunction(disk, st, scope, file, f).value.0, final)
    ensures var p, id := PartsOf(disk, st, scope, file, f), ResolveFunction(disk, st, scope, file, f).value.1;
            && id == |p.body.state.functions| < |final.functions|
            && p.body.target.FunctionTarget? && p.body.target.result.Some?
            && final.functions[id] == Ir.Custom(p.required, p.defaults, p.body.target.body, p.body.target.result.value)
            && |p.required| == |f.required| && |p.defaults| == |f.defaults|
  {
    RequiredLength(st, scope.Child(), f.required);
    DefaultsLength(PartsOf(disk, st, scope, file, f).bound, PartsOf(disk, st, scope, file, f).inner, f.defaults);
  }

  lemma PartsCovered(disk: Ast.Disk, st: State, scope: Scope, file: string, f: Ast.Function, final: State, top: Ir.Env,
                     loaded: Source.Loaded)
    requires ResolveFunction(disk, st, scope, file, f).Ok?
    requires Covers(final, top, loaded, ResolveFunction(disk, st, scope, file, f).value.0)
    ensures var p := PartsOf(disk, st, scope, file, f);
            && Covers(final, top, loaded, p.ready) && Covers(final, top, loaded, p.body.state) && Avoids(top, p.bound)
            && |p.ready.functions| <= |p.body.state.functions|
            && |st.functions| <= |p.bound.functions| <= |p.ready.functions|
  {
    var p := PartsOf(disk, st, scope, file, f);
    CoversBefore(final, top, loaded, p.body.state, ResolveFunction(disk, st, scope, file, f).value.0);
    CoversBefore(final, top, loaded, p.ready, p.body.state);
    CoversBefore(final, top, loaded, p.bound, p.ready);
  }

  lemma PartsInRange(disk: Ast.Disk, st: State, scope: Scope, file: string, f: Ast.Function)
    requires Valid(st) && ScopeInRange(scope, st) && ResolveFunction(disk, st, scope, file, f).Ok?
    ensures var p := PartsOf(disk, st, scope, file, f);
            && Valid(p.bound) && ScopeInRange(p.inner, p.bound)
            && Valid(p.ready) && ScopeInRange(p.outer, p.ready)
  {
    hide Valid, ScopeInRange, Grows, StoresGrow;
    var p := PartsOf(disk, st, scope, file, f);
    ChildInRange(scope, st);
    RequiredInRange(st, scope.Child(), f.required);
    DefaultsInRange(p.bound, p.inner, f.defaults);
  }

  /** A resolved definition stands for the closure it denotes. */
  lemma {:induction false} DefinitionMeaning(disk: Ast.Disk, final: State, top: Ir.Env, loaded: Source.Loaded,
                                             st: State, scope: Scope, file: string, f: Ast.Function, source: Source.Env,
                                             known: Ir.Env)
    requires Valid(st) && ScopeInRange(scope, st) && |Prelude()| <= |st.functions|
    requires ResolveFunction(disk, st, scope, file, f).Ok?
    requires Covers(final, top, loaded, ResolveFunction(disk, st, scope, file, f).value.0)
    requires Visible(known, st, top) && ScopeStands(scope, source, final, known)
    ensures Stands(Function(ResolveFunction(disk, st, scope, file, f).value.1),
                   Source.Closure(disk, loaded, file, source, f), final, known)
    decreases f, 2
  {
    var id := ResolveFunction(disk, st, scope, file, f).value.1;
    forall e, args, phantoms | Within(known, e)
      ensures Ir.Call(ContextOf(final), e, id, args, phantoms)
           == Source.Apply(disk, loaded, file, source, f, args, phantoms) != Err(Ir.Undefined)
    {
      CallMeaning(disk, final, top, loaded, st, scope, file, f, source, known, e, args, phantoms);
    }
  }

  /** One call of a resolved function. */
  lemma {:induction false} CallMeaning(disk: Ast.Disk, final: State, top: Ir.Env, loaded: Source.Loaded, st: State,
                                       scope: Scope, file: string, f: Ast.Function, source: Source.Env, known: Ir.Env,
                                       env: Ir.Env, args: seq<Val>, phantoms: seq<Term>)
    requires Valid(st) && ScopeInRange(scope, st) && |Prelude()| <= |st.functions|
    requires ResolveFunction(disk, st, scope, file, f).Ok?
    requires Covers(final, top, loaded, ResolveFunction(disk, st, scope, file, f).value.0)
    requires Visible(known, st, top) && ScopeStands(scope, source, final, known) && Within(known, env)
    ensures Ir.Call(ContextOf(final), env, ResolveFunction(disk, st, scope, file, f).value.1, args, phantoms)
         == Source.Apply(disk, loaded, file, source, f, args, phantoms) != Err(Ir.Undefined)
    decreases f, 1
  {
    hide Covers, Visible, Valid, ScopeStands, Grows, StoresGrow, ScopeInRange, Avoids, Running, ResolveFunction,
         PartsOf, Ir.Exec, Ir.BindDefaults, Source.EvalBody, Source.BindDefaults, ResolveStatements;
    var id := ResolveFunction(disk, st, scope, file, f).value.1;
    var p := PartsOf(disk, st, scope, file, f);
    CoversGrows(final, top, loaded, ResolveFunction(disk, st, scope, file, f).value.0);
    PartsShape(disk, st, scope, file, f, final);
    if |f.required| <= |args| <= |f.required| + |f.defaults| {
      PartsCovered(disk, st, scope, file, f, final, top, loaded);
      PartsInRange(disk, st, scope, file, f);
      var known' := EnterMeaning(disk, final, top, loaded, st, scope, file, f, source, known, env, args);
      var entered := Ir.Enter(ContextOf(final), env, id, args);
      var inside := EnterSource(f, source, args);
      if inside.Ok? {
        BodyMeaningOfCall(disk, final, top, loaded, st, scope, file, f, inside.value, known', entered.value);
      }
    }
  }

  lemma CoversGrows(final: State, top: Ir.Env, loaded: Source.Loaded, st: State)
    requires Covers(final, top, loaded, st)
    ensures StoresGrow(st, final)
  {
  }

  /** The source scope in which the body of `f` runs. */
  ghost function EnterSource(f: Ast.Function, source: Source.Env, args: seq<Val>): Result<Source.Env, Ir.Fault>
    requires |f.required| <= |args|
  {
    Source.BindDefaults(Source.BindRequired(source, f.required, args[..|f.required|]), f.defaults, args[|f.required|..])
  }

  lemma EnterMeaning(disk: Ast.Disk, final: State, top: Ir.Env, loaded: Source.Loaded, st: State, scope: Scope,
                     file: string, f: Ast.Function, source: Source.Env, known: Ir.Env, env: Ir.Env, args: seq<Val>)
    returns (known': Ir.Env)
    requires Valid(st) && ScopeInRange(scope, st) && ResolveFunction(disk, st, scope, file, f).Ok?
    requires Covers(final, top, loaded, ResolveFunction(disk, st, scope, file, f).value.0)
    requires ResolveFunction(disk, st, scope, file, f).value.1 < |final.functions|
    requires final.functions[ResolveFunction(disk, st, scope, file, f).value.1].Custom?
    requires Visible(known, st, top) && ScopeStands(scope, source, final, known) && Within(known, env)
    requires |f.required| <= |args| <= |f.required| + |f.defaults|
    ensures Enters(EnterSource(f, source, args),
                   Ir.Enter(ContextOf(final), env, ResolveFunction(disk, st, scope, file, f).value.1, args),
                   PartsOf(disk, st, scope, file, f).outer, PartsOf(disk, st, scope, file, f).ready, final, top, known')
  {
    hide Covers, Visible, Valid, ScopeStands, Grows, StoresGrow, ScopeInRange, Avoids, Ir.BindDefaults,
         Source.BindDefaults, ResolveStatements, Enters;
    var id := ResolveFunction(disk, st, scope, file, f).value.1;
    var p := PartsOf(disk, st, scope, file, f);
    var n := |f.required|;
    CoversGrows(final, top, loaded, ResolveFunction(disk, st, scope, file, f).value.0);
    PartsShape(disk, st, scope, file, f, final);
    PartsCovered(disk, st, scope, file, f, final, top, loaded);
    PartsInRange(disk, st, scope, file, f);
    ChildStands(scope, source, final, known);
    var middle := RequiredMeaning(final, top, st, scope.Child(), f.required, args[..n], source, known, env);
    known' := DefaultsMeaning(final, top, loaded, id, p.bound, p.inner, f.defaults, args[n..],
                              Source.BindRequired(source, f.required, args[..n]), middle,
                              Ir.BindRequired(env, p.required, args[..n]));
  }

  lemma {:induction false} BodyMeaningOfCall(disk: Ast.Disk, final: State, top: Ir.Env, loaded: Source.Loaded,
                                             st: State, scope: Scope, file: string, f: Ast.Function, inside: Source.Env,
                                             known: Ir.Env, entered: Ir.Env)
    requires Valid(st) && ScopeInRange(scope, st) && |Prelude()| <= |st.functions|
    requires ResolveFunction(disk, st, scope, file, f).Ok?
    requires Covers(final, top, loaded, ResolveFunction(disk, st, scope, file, f).value.0)
    requires Enters(Ok(inside), Ok(entered), PartsOf(disk, st, scope, file, f).outer,
                    PartsOf(disk, st, scope, file, f).ready, final, top, known)
    ensures BodyFollows(Run(final, ResolveFunction(disk, st, scope, file, f).value.1, entered, top, loaded),
                        Source.EvalBody(disk, loaded, file, inside, None, f.body),
                        PartsOf(disk, st, scope, file, f).body)
    decreases f, 0
  {
    hide Covers, Visible, Valid, ScopeStands, Grows, StoresGrow, ScopeInRange, Avoids, Running, Source.EvalBody,
         ResolveStatements, BodyFollows;
    var id := ResolveFunction(disk, st, scope, file, f).value.1;
    var p := PartsOf(disk, st, scope, file, f);
    CoversGrows(final, top, loaded, ResolveFunction(disk, st, scope, file, f).value.0);
    PartsShape(disk, st, scope, file, f, final);
    PartsCovered(disk, st, scope, file, f, final, top, loaded);
    PartsInRange(disk, st, scope, file, f);
    var w := Run(final, id, entered, top, loaded);
    StartsRunning(w, p.ready, known);
    BodyMeaning(w, disk, p.ready, p.outer, APART, file, f.body, inside, known, entered, None);
  }
}
