/** Resolution preserves meaning: running the emitted IR in an activation that agrees with the
    source scope computes what the source denotes. */
module ResolverMeaning {
  import opened Wrappers
  import opened DataModel
  import Ast
  import Ir
  import Source
  import opened Resolvers
  import opened ResolverRanges

  ghost predicate Within(a: Ir.Env, b: Ir.Env) {
    a.Keys <= b.Keys && forall s :: s in a ==> b[s] == a[s]
  }

  /** Calling IR function `id` from any activation that extends `known` is applying `call`. */
  ghost predicate Behaves(id: Ir.FunctionId, call: (seq<Val>, seq<Term>) -> Result<Val, Ir.Fault>, c: Ir.Context,
                          known: Ir.Env) {
    forall e, args, phantoms {:trigger Ir.Call(c, e, id, args, phantoms)} ::
      Within(known, e) ==> Ir.Call(c, e, id, args, phantoms) == call(args, phantoms) != Err(Ir.Undefined)
  }

  /** The resolved item stands for the source meaning wherever `known` is bound. */
  ghost predicate Stands(item: Item, m: Source.Meaning, final: State, known: Ir.Env)
    decreases m
  {
    match m
    case LabelV(v) => item.Label? && item.symbol in known && known[item.symbol] == v
    case FunctionV(call) => item.Function? && Behaves(item.id, call, ContextOf(final), known)
    case ModuleV(items) =>
      && item.Module? && item.index < |final.modules| && final.modules[item.index].Keys == items.Keys
      && forall k :: k in items ==> Stands(final.modules[item.index][k], items[k], final, known)
  }

  ghost predicate ItemsStand(items: Items, env: Source.Env, final: State, known: Ir.Env) {
    items.Keys == env.Keys && forall k :: k in env ==> Stands(items[k], env[k], final, known)
  }

  ghost predicate ScopeStands(scope: Scope, env: Source.Env, final: State, known: Ir.Env) {
    forall name {:trigger scope.Find(name)} {:trigger name in env} ::
      && (scope.Find(name).Some? <==> name in env)
      && (name in env ==> Stands(scope.Find(name).value, env[name], final, known))
  }

  ghost predicate LiteralsBound(literals: map<Literal, Ir.Symbol>, known: Ir.Env) {
    forall l :: l in literals ==> literals[l] in known && known[literals[l]] == Source.LiteralValue(l)
  }

  /** What stays fixed while one stream of nodes runs: the finished program, the bound on callee
      ids, the bindings the stream starts from, and, for a function body, the top-level bindings
      `top` that every caller provides and the modules loaded when the function was defined. */
  datatype Run = Run(final: State, limit: nat, start: Ir.Env, top: Ir.Env, loaded: Source.Loaded)

  function Stream(st: State, target: Target): Ir.Body {
    match target
    case ModuleTarget(_) => st.topLevel
    case FunctionTarget(_, body) => body
  }

  function Outcome(w: Run, st: State, target: Target): Result<Ir.Env, Ir.Fault> {
    Ir.Exec(ContextOf(w.final), w.limit, w.start, Stream(st, target))
  }

  ghost predicate BoundAtTop(st: State, s: Ir.Symbol) {
    exists i :: 0 <= i < |st.topLevel| && st.topLevel[i].name == s
  }

  /** Every symbol of `top` is bound at the top level, so none is allocated for a function body. */
  ghost predicate Avoids(top: Ir.Env, st: State) {
    forall s :: s in top ==> st.next <= s.id || BoundAtTop(st, s)
  }

  /** Every module resolved so far stands for what the source loads. */
  ghost predicate ModulesStand(st: State, loaded: Source.Loaded, final: State, known: Ir.Env) {
    forall p :: p in st.moduleCache && st.moduleCache[p].Some? ==>
      && p in loaded && st.moduleCache[p].value < |final.modules|
      && ItemsStand(final.modules[st.moduleCache[p].value], loaded[p], final, known)
  }

  /** `st` is a state on the way to the finished program. */
  ghost predicate Ready(w: Run, st: State, target: Target) {
    && StoresGrow(st, w.final) && |st.functions| <= w.limit <= |w.final.functions|
    && (target.ModuleTarget? ==> w.top == map[])
    && (target.FunctionTarget? ==>
          Avoids(w.top, st) && LiteralsBound(st.literals, w.top) && ModulesStand(st, w.loaded, w.final, w.top))
  }

  /** The stream emitted so far has run to bindings `env`, of which `known` may be relied on. */
  ghost predicate Running(w: Run, st: State, target: Target, known: Ir.Env, env: Ir.Env) {
    && Outcome(w, st, target) == Ok(env)
    && Within(known, env)
    && (forall s :: s in known ==> s.id < st.next || s in w.top)
    && (target.ModuleTarget? ==> LiteralsBound(st.literals, known) && forall s :: s in known ==> BoundAtTop(st, s))
    && (target.FunctionTarget? ==> Within(w.top, known))
  }

  lemma ReadyBefore(w: Run, a: State, before: Target, b: State, after: Target)
    requires Ready(w, b, after) && Grows(a, b) && TargetGrows(before, after)
    ensures Ready(w, a, before)
  {
    if before.FunctionTarget? {
      AvoidsBefore(w.top, a, b);
    }
  }

  lemma AvoidsBefore(top: Ir.Env, a: State, b: State)
    requires Avoids(top, b) && Grows(a, b)
    ensures Avoids(top, a)
  {
    forall s | s in top ensures a.next <= s.id || BoundAtTop(a, s) {
      if s.id < b.next {
        var i :| 0 <= i < |b.topLevel| && b.topLevel[i].name == s;
        if i < |a.topLevel| { assert a.topLevel[i].name == s; }
      }
    }
  }

  lemma {:induction false} StandsLonger(item: Item, m: Source.Meaning, final: State, known: Ir.Env, more: Ir.Env)
    requires Stands(item, m, final, known) && Within(known, more)
    ensures Stands(item, m, final, more)
    decreases m
  {
    if m.ModuleV? {
      forall k | k in m.items ensures Stands(final.modules[item.index][k], m.items[k], final, more) {
        StandsLonger(final.modules[item.index][k], m.items[k], final, known, more);
      }
    }
  }

  lemma ScopeStandsLonger(scope: Scope, env: Source.Env, final: State, known: Ir.Env, more: Ir.Env)
    requires ScopeStands(scope, env, final, known) && Within(known, more)
    ensures ScopeStands(scope, env, final, more)
  {
    forall name | name in env ensures Stands(scope.Find(name).value, env[name], final, more) {
      StandsLonger(scope.Find(name).value, env[name], final, known, more);
    }
  }

  /** A failure in the stream so far is the failure of the whole stream. */
  lemma StillFails(w: Run, a: State, before: Target, b: State, after: Target)
    requires Grows(a, b) && TargetGrows(before, after) && Outcome(w, a, before).Err?
    ensures Outcome(w, b, after) == Outcome(w, a, before)
  {
    Ir.ExecPrefixFails(ContextOf(w.final), w.limit, w.start, Stream(a, before), Stream(b, after));
  }

  /** A symbol allocated for a node is new to the running stream. */
  lemma FreshIsNew(w: Run, st: State, target: Target, known: Ir.Env, env: Ir.Env)
    requires Valid(st) && Running(w, st, target, known, env)
    requires target.FunctionTarget? ==> Avoids(w.top, Bump(st))
    ensures Fresh(st) !in known
  {
  }

  lemma {:induction false} ReadAllKnown(env: Ir.Env, known: Ir.Env, symbols: seq<Ir.Symbol>, values: seq<Val>)
    requires Within(known, env) && |symbols| == |values|
    requires forall i :: 0 <= i < |symbols| ==> symbols[i] in known && known[symbols[i]] == values[i]
    ensures Ir.ReadAll(env, symbols) == Ok(values)
    decreases |symbols|
  {
    if symbols != [] {
      ReadAllKnown(env, known, symbols[1..], values[1..]);
      assert values == [values[0]] + values[1..];
    }
  }

  ghost predicate Holds(known: Ir.Env, symbols: seq<Ir.Symbol>, values: seq<Val>) {
    |symbols| == |values| && forall i :: 0 <= i < |symbols| ==> symbols[i] in known && known[symbols[i]] == values[i]
  }

  /** The outcome of running to `s` is the one that `meaning` gives. */
  ghost predicate Follows(w: Run, meaning: Result<Val, Ir.Fault>, s: Step<Ir.Symbol>, known: Ir.Env, known': Ir.Env,
                          env': Ir.Env) {
    match meaning
    case Ok(v) => Running(w, s.state, s.target, known', env') && Within(known, known') && Holds(known', [s.value], [v])
    case Err(x) => x != Ir.Undefined && Outcome(w, s.state, s.target) == Err(x)
  }

  ghost predicate FollowsAll(w: Run, meaning: Result<seq<Val>, Ir.Fault>, s: Step<seq<Ir.Symbol>>, known: Ir.Env,
                             known': Ir.Env, env': Ir.Env) {
    match meaning
    case Ok(vs) => Running(w, s.state, s.target, known', env') && Within(known, known') && Holds(known', s.value, vs)
    case Err(x) => x != Ir.Undefined && Outcome(w, s.state, s.target) == Err(x)
  }

  /** Emitting a call appends the value of the call to the running stream. */
  lemma EmitMeaning(w: Run, st: State, target: Target, known: Ir.Env, env: Ir.Env, id: Ir.FunctionId,
                    call: (seq<Val>, seq<Term>) -> Result<Val, Ir.Fault>, args: seq<Ir.Symbol>, values: seq<Val>,
                    phantoms: seq<Ir.Symbol>, waits: seq<Val>)
    returns (known': Ir.Env, env': Ir.Env)
    requires Valid(st) && Running(w, st, target, known, env)
    requires Ready(w, Emit(st, target, id, args, phantoms).state, Emit(st, target, id, args, phantoms).target)
    requires id < w.limit && Behaves(id, call, ContextOf(w.final), known)
    requires Holds(known, args, values) && Holds(known, phantoms, waits)
    ensures Follows(w, call(values, Terms(waits)), Emit(st, target, id, args, phantoms), known, known', env')
  {
    hide Ready, Grows, StoresGrow, Valid, Outcome, BoundAtTop, Avoids, ModulesStand, LiteralsBound, Ir.Call, Ir.ReadAll,
         Ir.ExecNode;
    ReadAllKnown(env, known, args, values);
    ReadAllKnown(env, known, phantoms, waits);
    var node := Ir.Node(Fresh(st), id, args, phantoms);
    ExecNodeIs(ContextOf(w.final), w.limit, env, node, values, waits);
    AppendMeaning(w, st, target, env, node, call(values, Terms(waits)));
    known', env' := known, env;
    if call(values, Terms(waits)).Ok? {
      var v := call(values, Terms(waits)).value;
      ReadyAvoids(w, st, target, id, args, phantoms);
      FreshIsNew(w, st, target, known, env);
      EmitRuns(w, st, target, known, env, id, args, phantoms, Emit(st, target, id, args, phantoms), v);
      known', env' := known[Fresh(st) := v], env[Fresh(st) := v];
    }
  }

  lemma EmitRuns(w: Run, st: State, target: Target, known: Ir.Env, env: Ir.Env, id: Ir.FunctionId, args: seq<Ir.Symbol>,
                 phantoms: seq<Ir.Symbol>, s: Step<Ir.Symbol>, v: Val)
    requires Running(w, st, target, known, env) && Fresh(st) !in known
    requires Outcome(w, s.state, s.target) == Ok(env[Fresh(st) := v])
    requires s == Emit(st, target, id, args, phantoms)
    ensures Running(w, s.state, s.target, known[Fresh(st) := v], env[Fresh(st) := v])
  {
    hide Outcome, BoundAtTop;
    if target.ModuleTarget? { PushRuns(w, st, s.state, target, known, env, v); }
  }

  lemma PushRuns(w: Run, a: State, b: State, target: Target, known: Ir.Env, env: Ir.Env, v: Val)
    requires target.ModuleTarget? && Running(w, a, target, known, env) && Fresh(a) !in known
    requires Outcome(w, b, target) == Ok(env[Fresh(a) := v]) && b.next == a.next + 1
    requires |b.topLevel| == |a.topLevel| + 1 && a.topLevel <= b.topLevel && b.topLevel[|a.topLevel|].name == Fresh(a)
    requires LiteralsBound(b.literals, known[Fresh(a) := v])
    ensures Running(w, b, target, known[Fresh(a) := v], env[Fresh(a) := v])
  {
    hide Outcome, BoundAtTop, LiteralsBound;
    GrowsAtTop(a, b, known, Fresh(a));
  }

  /** Appending a node at the top level binds its name there and keeps the names before it. */
  lemma GrowsAtTop(a: State, b: State, known: Ir.Env, name: Ir.Symbol)
    requires |b.topLevel| == |a.topLevel| + 1 && a.topLevel <= b.topLevel && b.topLevel[|a.topLevel|].name == name
    requires forall s :: s in known ==> BoundAtTop(a, s)
    ensures BoundAtTop(b, name) && forall s :: s in known ==> BoundAtTop(b, s)
  {
    forall s | s in known ensures BoundAtTop(b, s) {
      var i :| 0 <= i < |a.topLevel| && a.topLevel[i].name == s;
      assert b.topLevel[i].name == s;
    }
  }

  lemma ReadyAvoids(w: Run, st: State, target: Target, id: Ir.FunctionId, args: seq<Ir.Symbol>,
                    phantoms: seq<Ir.Symbol>)
    requires Ready(w, Emit(st, target, id, args, phantoms).state, Emit(st, target, id, args, phantoms).target)
    ensures target.FunctionTarget? ==> Avoids(w.top, Bump(st))
  {
  }

  lemma AppendMeaning(w: Run, st: State, target: Target, env: Ir.Env, node: Ir.Node, r: Result<Val, Ir.Fault>)
    requires Outcome(w, st, target) == Ok(env) && node.name == Fresh(st)
    requires Ir.ExecNode(ContextOf(w.final), w.limit, env, node)
          == Ir.Bind(env, node.name, r)
    ensures var s := Emit(st, target, node.function_, node.arguments, node.phantoms);
            Outcome(w, s.state, s.target) == Ir.Bind(env, Fresh(st), r)
  {
    var s := Emit(st, target, node.function_, node.arguments, node.phantoms);
    assert Stream(s.state, s.target) == Stream(st, target) + [node];
    Ir.ExecAppend(ContextOf(w.final), w.limit, w.start, Stream(st, target), [node]);
    Ir.ExecOne(ContextOf(w.final), w.limit, env, node);
  }

  lemma ExecNodeIs(c: Ir.Context, limit: nat, env: Ir.Env, node: Ir.Node, values: seq<Val>, waits: seq<Val>)
    requires node.function_ < limit
    requires Ir.ReadAll(env, node.arguments) == Ok(values) && Ir.ReadAll(env, node.phantoms) == Ok(waits)
    ensures Ir.ExecNode(c, limit, env, node)
         == Ir.Bind(env, node.name, Ir.Call(c, env, node.function_, values, Terms(waits)))
  {
  }

  /** A new literal runs as the first node of its own in the top level. */
  lemma NewLiteralMeaning(w: Run, st: State, target: Target, known: Ir.Env, env: Ir.Env, l: Literal)
    requires Valid(st) && Running(w, st, target, known, env) && target.ModuleTarget? && l !in st.literals
    requires Ready(w, LiteralStep(st, target, l).state, target)
    ensures Outcome(w, LiteralStep(st, target, l).state, target) == Ok(env[Fresh(st) := Source.LiteralValue(l)])
  {
    var s := LiteralStep(st, target, l);
    var c := ContextOf(w.final);
    var node := Ir.Node(Fresh(st), |st.functions|, [], []);
    assert s.state.functions[|st.functions|] == Ir.Builtin(|st.nodes|) && s.state.nodes[|st.nodes|] == LiteralNode(l);
    assert c.functions[|st.functions|] == Ir.Builtin(|st.nodes|) && c.nodes[|st.nodes|] == LiteralNode(l);
    assert Terms([]) == [];
    assert Ir.Call(c, env, node.function_, [], []) == Ok(Source.LiteralValue(l));
    ExecNodeIs(c, w.limit, env, node, [], []);
    assert s.state.topLevel == st.topLevel + [node];
    Ir.ExecAppend(c, w.limit, w.start, st.topLevel, [node]);
    Ir.ExecOne(c, w.limit, env, node);
  }

  lemma LiteralMeaning(w: Run, st: State, target: Target, known: Ir.Env, env: Ir.Env, l: Literal)
    returns (known': Ir.Env, env': Ir.Env)
    requires Valid(st) && Running(w, st, target, known, env)
    requires Ready(w, LiteralStep(st, target, l).state, LiteralStep(st, target, l).target)
    ensures Follows(w, Ok(Source.LiteralValue(l)), LiteralStep(st, target, l), known, known', env')
  {
    hide Grows, StoresGrow, Valid, Outcome, BoundAtTop, Avoids, ModulesStand, Ready;
    known', env' := known, env;
    if target.FunctionTarget? || l in st.literals {
      OldLiteralRuns(w, st, target, known, env, l);
    } else {
      NewLiteralMeaning(w, st, target, known, env, l);
      FreshIsNew(w, st, target, known, env);
      var v := Source.LiteralValue(l);
      LiteralsBoundMore(st, known, l, v);
      PushRuns(w, st, LiteralStep(st, target, l).state, target, known, env, v);
      known', env' := known[Fresh(st) := v], env[Fresh(st) := v];
    }
  }

  lemma LiteralsBoundMore(st: State, known: Ir.Env, l: Literal, v: Val)
    requires LiteralsBound(st.literals, known) && Fresh(st) !in known && v == Source.LiteralValue(l)
    ensures LiteralsBound(st.literals[l := Fresh(st)], known[Fresh(st) := v])
  {
  }

  /** In a function body, or for a literal seen before, nothing is emitted to the stream. */
  lemma OldLiteralRuns(w: Run, st: State, target: Target, known: Ir.Env, env: Ir.Env, l: Literal)
    requires Valid(st) && Running(w, st, target, known, env) && (target.FunctionTarget? || l in st.literals)
    requires Ready(w, LiteralStep(st, target, l).state, target)
    ensures Follows(w, Ok(Source.LiteralValue(l)), LiteralStep(st, target, l), known, known, env)
  {
    hide Grows, StoresGrow, Valid, BoundAtTop, Avoids, ModulesStand;
  }

  lemma {:induction false} FollowMeaning(w: Run, st: State, item: Item, m: Source.Meaning, rest: seq<string>,
                                         known: Ir.Env)
    requires Valid(st) && InRange(item, st) && StoresGrow(st, w.final) && Stands(item, m, w.final, known)
    requires Follow(st, item, rest).Ok?
    ensures Source.Follow(m, rest).Some?
    ensures Stands(Follow(st, item, rest).value, Source.Follow(m, rest).value, w.final, known)
    decreases |rest|
  {
    if rest != [] {
      FollowMeaning(w, st, st.modules[item.index][rest[0]], m.items[rest[0]], rest[1..], known);
    }
  }

  lemma PathMeaning(w: Run, st: State, scope: Scope, source: Source.Env, path: Ast.ItemPath, target: Target,
                    known: Ir.Env)
    requires Valid(st) && ScopeInRange(scope, st) && Ready(w, st, target) && ScopeStands(scope, source, w.final, known)
    requires GetItemPath(st, scope, path).Ok?
    ensures Source.EvalPath(source, path).Some?
    ensures Stands(GetItemPath(st, scope, path).value, Source.EvalPath(source, path).value, w.final, known)
  {
    assert scope.Find(path.base).Some? && path.base in source;
    FollowMeaning(w, st, scope.Find(path.base).value, source[path.base], path.rest, known);
  }

  lemma {:induction false} LabelsMeaning(w: Run, st: State, scope: Scope, source: Source.Env, paths: seq<Ast.ItemPath>,
                                         target: Target, known: Ir.Env)
    requires Valid(st) && ScopeInRange(scope, st) && Ready(w, st, target) && ScopeStands(scope, source, w.final, known)
    requires GetLabels(st, scope, paths).Ok?
    ensures Source.EvalLabels(source, paths).Ok?
    ensures Holds(known, GetLabels(st, scope, paths).value, Source.EvalLabels(source, paths).value)
    decreases |paths|
  {
    hide Running, Ready, Grows, StoresGrow, Valid, ScopeStands, ScopeInRange;
    if paths != [] {
      PathMeaning(w, st, scope, source, paths[0], target, known);
      LabelsMeaning(w, st, scope, source, paths[1..], target, known);
    }
  }

  /** Resolving an expression and running what it emits computes what the expression denotes. */
  lemma {:induction false} ExpressionMeaning(w: Run, st: State, scope: Scope, target: Target, e: Ast.Expression,
                                             source: Source.Env, known: Ir.Env, env: Ir.Env)
    returns (known': Ir.Env, env': Ir.Env)
    requires Valid(st) && ScopeInRange(scope, st) && ResolveExpression(st, scope, target, e).Ok?
    requires var s := ResolveExpression(st, scope, target, e).value; Ready(w, s.state, s.target)
    requires Running(w, st, target, known, env) && ScopeStands(scope, source, w.final, known)
    ensures Follows(w, Source.EvalExpression(source, e), ResolveExpression(st, scope, target, e).value, known, known',
                    env')
    decreases e, 1
  {
    hide Running, Ready, Grows, StoresGrow, Valid, ScopeStands, ScopeInRange, TargetGrows, Outcome, Behaves;
    var s := ResolveExpression(st, scope, target, e).value;
    match e
    case Number(n) => known', env' := LiteralMeaning(w, st, target, known, env, IntLit(n));
    case Text(t) => known', env' := LiteralMeaning(w, st, target, known, env, StrLit(t));
    case Label(path) =>
      ReadyBefore(w, st, target, s.state, s.target);
      PathMeaning(w, st, scope, source, path, target, known);
      known', env' := known, env;
    case Call(node) =>
      known', env' := NodeMeaning(w, st, scope, target, node, [], [], source, known, env);
    case Chain(start, nodes) =>
      var first := ResolveExpression(st, scope, target, start).value;
      ReadyBefore(w, first.state, first.target, s.state, s.target);
      known', env' := ExpressionMeaning(w, st, scope, target, start, source, known, env);
      match Source.EvalExpression(source, start) {
        case Ok(v) =>
          var middle := known';
          ScopeStandsLonger(scope, source, w.final, known, middle);
          ScopeStays(scope, st, first.state);
          known', env' := ChainMeaning(w, first.state, scope, first.target, first.value, v, nodes, source, middle,
                                       env');
        case Err(x) =>
          StillFails(w, first.state, first.target, s.state, s.target);
      }
  }

  lemma {:induction false} ChainMeaning(w: Run, st: State, scope: Scope, target: Target, current: Ir.Symbol, v: Val,
                                        nodes: seq<Ast.Node>, source: Source.Env, known: Ir.Env, env: Ir.Env)
    returns (known': Ir.Env, env': Ir.Env)
    requires Valid(st) && ScopeInRange(scope, st) && InRange(Label(current), st)
    requires ResolveChain(st, scope, target, current, nodes).Ok?
    requires var s := ResolveChain(st, scope, target, current, nodes).value; Ready(w, s.state, s.target)
    requires Running(w, st, target, known, env) && ScopeStands(scope, source, w.final, known)
    requires Holds(known, [current], [v])
    ensures Follows(w, Source.EvalChain(source, v, nodes), ResolveChain(st, scope, target, current, nodes).value,
                    known, known', env')
    decreases nodes, 0
  {
    hide Running, Ready, Grows, StoresGrow, Valid, ScopeStands, ScopeInRange, TargetGrows, Outcome, Behaves;
    known', env' := known, env;
    if nodes != [] {
      var s := ResolveChain(st, scope, target, current, nodes).value;
      var next := ResolveNode(st, scope, target, nodes[0], [current]).value;
      ReadyBefore(w, next.state, next.target, s.state, s.target);
      known', env' := NodeMeaning(w, st, scope, target, nodes[0], [current], [v], source, known, env);
      match Source.EvalNode(source, nodes[0], [v]) {
        case Ok(v') =>
          var middle := known';
          ScopeStandsLonger(scope, source, w.final, known, middle);
          ScopeStays(scope, st, next.state);
          known', env' := ChainMeaning(w, next.state, scope, next.target, next.value, v', nodes[1..], source, middle,
                                       env');
        case Err(x) =>
          StillFails(w, next.state, next.target, s.state, s.target);
      }
    }
  }

  lemma {:induction false} NodeMeaning(w: Run, st: State, scope: Scope, target: Target, node: Ast.Node,
                                       first: seq<Ir.Symbol>, firstValues: seq<Val>, source: Source.Env, known: Ir.Env,
                                       env: Ir.Env)
    returns (known': Ir.Env, env': Ir.Env)
    requires Valid(st) && ScopeInRange(scope, st) && ResolveNode(st, scope, target, node, first).Ok?
    requires var s := ResolveNode(st, scope, target, node, first).value; Ready(w, s.state, s.target)
    requires Running(w, st, target, known, env) && ScopeStands(scope, source, w.final, known)
    requires Holds(known, first, firstValues)
    ensures Follows(w, Source.EvalNode(source, node, firstValues), ResolveNode(st, scope, target, node, first).value,
                    known, known', env')
    decreases node, 1
  {
    hide Running, Ready, Grows, StoresGrow, Valid, ScopeStands, ScopeInRange, TargetGrows, Outcome, Behaves,
         Source.EvalNode, Source.EvalArguments, ResolveArguments, GetLabels, GetFunction;
    var s := ResolveNode(st, scope, target, node, first).value;
    var args := ResolveArguments(st, scope, target, node.arguments).value;
    ReadyBefore(w, args.state, args.target, s.state, s.target);
    ReadyBefore(w, st, target, args.state, args.target);
    var call, waits := CalleeMeaning(w, st, scope, target, node, firstValues, source, known);
    known', env' := ArgumentsMeaning(w, st, scope, target, node.arguments, source, known, env);
    match Source.EvalArguments(source, node.arguments) {
      case Ok(values) =>
        var middle := known';
        var id, phantoms := GetFunction(st, scope, node.name).value, GetLabels(st, scope, node.phantoms).value;
        HoldsLonger(known, middle, first, firstValues, args.value, values, phantoms, waits);
        BehavesLonger(id, call, ContextOf(w.final), known, middle);
        known', env' := EmitMeaning(w, args.state, args.target, middle, env', id, call, first + args.value,
                                    firstValues + values, phantoms, waits);
      case Err(x) =>
        StillFails(w, args.state, args.target, s.state, s.target);
    }
  }

  ghost function Invoke(call: (seq<Val>, seq<Term>) -> Result<Val, Ir.Fault>, first: seq<Val>,
                        args: Result<seq<Val>, Ir.Fault>, phantoms: seq<Term>): Result<Val, Ir.Fault> {
    match args
    case Ok(values) => call(first + values, phantoms)
    case Err(x) => Err(x)
  }

  /** The function and the phantom inputs that a node names. */
  lemma CalleeMeaning(w: Run, st: State, scope: Scope, target: Target, node: Ast.Node, first: seq<Val>,
                      source: Source.Env, known: Ir.Env)
    returns (call: (seq<Val>, seq<Term>) -> Result<Val, Ir.Fault>, waits: seq<Val>)
    requires Valid(st) && ScopeInRange(scope, st) && Ready(w, st, target) && ScopeStands(scope, source, w.final, known)
    requires GetFunction(st, scope, node.name).Ok? && GetLabels(st, scope, node.phantoms).Ok?
    ensures GetFunction(st, scope, node.name).value < w.limit
    ensures Behaves(GetFunction(st, scope, node.name).value, call, ContextOf(w.final), known)
    ensures Holds(known, GetLabels(st, scope, node.phantoms).value, waits)
    ensures Source.EvalNode(source, node, first)
         == Invoke(call, first, Source.EvalArguments(source, node.arguments), Terms(waits))
  {
    PathMeaning(w, st, scope, source, node.name, target, known);
    LabelsMeaning(w, st, scope, source, node.phantoms, target, known);
    call, waits := Source.EvalPath(source, node.name).value.call, Source.EvalLabels(source, node.phantoms).value;
  }

  lemma BehavesLonger(id: Ir.FunctionId, call: (seq<Val>, seq<Term>) -> Result<Val, Ir.Fault>, c: Ir.Context,
                      known: Ir.Env, more: Ir.Env)
    requires Behaves(id, call, c, known) && Within(known, more)
    ensures Behaves(id, call, c, more)
  {
  }

  lemma HoldsLonger(known: Ir.Env, more: Ir.Env, first: seq<Ir.Symbol>, firstValues: seq<Val>, args: seq<Ir.Symbol>,
                    values: seq<Val>, phantoms: seq<Ir.Symbol>, waits: seq<Val>)
    requires Within(known, more) && Holds(known, first, firstValues) && Holds(more, args, values)
    requires Holds(known, phantoms, waits)
    ensures Holds(more, first + args, firstValues + values) && Holds(more, phantoms, waits)
  {
  }

  lemma {:induction false} ArgumentsMeaning(w: Run, st: State, scope: Scope, target: Target, es: seq<Ast.Expression>,
                                            source: Source.Env, known: Ir.Env, env: Ir.Env)
    returns (known': Ir.Env, env': Ir.Env)
    requires Valid(st) && ScopeInRange(scope, st) && ResolveArguments(st, scope, target, es).Ok?
    requires var s := ResolveArguments(st, scope, target, es).value; Ready(w, s.state, s.target)
    requires Running(w, st, target, known, env) && ScopeStands(scope, source, w.final, known)
    ensures FollowsAll(w, Source.EvalArguments(source, es), ResolveArguments(st, scope, target, es).value, known,
                       known', env')
    decreases es, 0
  {
    hide Running, Ready, Grows, StoresGrow, Valid, ScopeStands, ScopeInRange, TargetGrows, Outcome, Behaves, Holds,
         Within, ResolveExpression, Source.EvalExpression;
    known', env' := known, env;
    NothingHolds(known);
    if es != [] {
      var s := ResolveArguments(st, scope, target, es).value;
      var head := ResolveExpression(st, scope, target, es[0]).value;
      ReadyBefore(w, head.state, head.target, s.state, s.target);
      known', env' := ExpressionMeaning(w, st, scope, target, es[0], source, known, env);
      match Source.EvalExpression(source, es[0]) {
        case Ok(v) =>
          var middle := known';
          ScopeStandsLonger(scope, source, w.final, known, middle);
          ScopeStays(scope, st, head.state);
          known', env' := ArgumentsMeaning(w, head.state, scope, head.target, es[1..], source, middle, env');
          if Source.EvalArguments(source, es[1..]).Ok? {
            HoldsCons(known, middle, known', head.value, v,
                      ResolveArguments(head.state, scope, head.target, es[1..]).value.value,
                      Source.EvalArguments(source, es[1..]).value);
          }
        case Err(x) =>
          StillFails(w, head.state, head.target, s.state, s.target);
      }
    }
  }

  lemma NothingHolds(known: Ir.Env)
    ensures Within(known, known) && Holds(known, [], [])
  {
  }

  lemma HoldsCons(known: Ir.Env, middle: Ir.Env, more: Ir.Env, s: Ir.Symbol, v: Val, symbols: seq<Ir.Symbol>,
                  values: seq<Val>)
    requires Within(known, middle) && Within(middle, more) && Holds(middle, [s], [v]) && Holds(more, symbols, values)
    ensures Within(known, more) && Holds(more, [s] + symbols, [v] + values)
  {
    assert [s][0] == s && [v][0] == v;
  }
}
