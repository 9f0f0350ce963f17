/** Every symbol that the resolver hands out is bound once: as a parameter or by one node, of one
    function or of the top level. This is what lets the compiler keep a single symbol map that is never
    popped. */
module ResolverSites {
  import opened Wrappers
  import Ast
  import DataModel
  import opened Ir
  import opened Resolvers
  import opened Structure

  type Symbols = multiset<Symbol>

  /** Everything that the top level and the finished functions bind. */
  function Bindings(st: State): Symbols {
    multiset(BodySymbols(st.topLevel)) + multiset(AllSymbols(st.functions))
  }

  /** The symbols that the target binds so far. */
  function Pending(target: Target): Symbols {
    match target
    case ModuleTarget(_) => multiset{}
    case FunctionTarget(_, body) => multiset(BodySymbols(body))
  }

  ghost predicate Once(m: Symbols, next: nat) {
    forall s :: m[s] <= 1 && (s in m ==> s.id < next)
  }

  /** Nothing is bound twice among the finished functions, the top level, and the symbols `open` that
      functions still being resolved bind. */
  ghost predicate Sites(st: State, open: Symbols) {
    Once(open + Bindings(st), st.next)
  }

  lemma SymbolsSnoc(body: Body, node: Node)
    ensures BodySymbols(body + [node]) == BodySymbols(body) + [node.name]
  {
  }

  lemma TopBindings(st: State, node: Node)
    ensures Bindings(st.(topLevel := st.topLevel + [node])) == Bindings(st) + multiset{node.name}
  {
    hide AllSymbols;
    SymbolsSnoc(st.topLevel, node);
  }

  lemma FunctionBindings(st: State, f: Function)
    ensures Bindings(st.(functions := st.functions + [f])) == Bindings(st) + multiset(FunctionSymbols(f))
  {
    hide FunctionSymbols;
    assert (st.functions + [f])[..|st.functions|] == st.functions;
  }

  /** A symbol that has not been handed out is bound nowhere. */
  lemma FreshOnce(m: Symbols, next: nat)
    requires Once(m, next)
    ensures Once(m + multiset{Symbol(next)}, next + 1)
  {
  }

  /** Opening a fresh symbol: a parameter, or a node of a function body. */
  lemma OpenFresh(st: State, open: Symbols)
    requires Sites(st, open)
    ensures Sites(Bump(st), open + multiset{Fresh(st)})
  {
    hide Bindings;
    FreshOnce(open + Bindings(st), st.next);
    assert Bindings(Bump(st)) == Bindings(st) by { SameBindings(st, Bump(st)); }
    assert open + multiset{Fresh(st)} + Bindings(st) == open + Bindings(st) + multiset{Fresh(st)};
  }

  lemma SameBindings(a: State, b: State)
    requires b.functions == a.functions && b.topLevel == a.topLevel
    ensures Bindings(a) == Bindings(b)
  {
  }

  lemma SameSites(a: State, b: State, open: Symbols)
    requires Sites(a, open) && b.functions == a.functions && b.topLevel == a.topLevel && b.next == a.next
    ensures Sites(b, open)
  {
  }

  /** Binding a fresh symbol at the top level. */
  lemma TopFresh(st: State, node: Node, open: Symbols)
    requires Sites(st, open) && node.name == Fresh(st)
    ensures Sites(Bump(st).(topLevel := st.topLevel + [node]), open)
  {
    hide Bindings;
    var after := st.(topLevel := st.topLevel + [node]);
    TopBindings(st, node);
    FreshOnce(open + Bindings(st), st.next);
    SameBindings(after, Bump(st).(topLevel := st.topLevel + [node]));
    assert open + Bindings(after) == open + Bindings(st) + multiset{Fresh(st)};
  }

  /** Adding a function whose symbols were open. */
  lemma CloseFunction(st: State, f: Function, open: Symbols)
    requires Sites(st, open + multiset(FunctionSymbols(f)))
    ensures Sites(st.(functions := st.functions + [f]), open)
  {
    hide Bindings, FunctionSymbols;
    FunctionBindings(st, f);
    assert open + multiset(FunctionSymbols(f)) + Bindings(st) == open + (Bindings(st) + multiset(FunctionSymbols(f)));
  }

  lemma LiteralSites(st: State, l: DataModel.Literal, open: Symbols)
    requires Sites(st, open)
    ensures Sites(ResolveLiteral(st, l).0, open)
  {
    hide Sites;
    if l !in st.literals {
      var node := Node(Fresh(st), |st.functions|, [], []);
      var builtin := Builtin(|st.nodes|);
      assert open + multiset(FunctionSymbols(builtin)) == open;
      CloseFunction(st, builtin, open);
      var middle := st.(functions := st.functions + [builtin]);
      TopFresh(middle, node, open);
      SameSites(Bump(middle).(topLevel := middle.topLevel + [node]), ResolveLiteral(st, l).0, open);
    }
  }

  lemma EmitSites(st: State, target: Target, id: FunctionId, args: seq<Symbol>, phantoms: seq<Symbol>, open: Symbols)
    requires Sites(st, open + Pending(target))
    ensures Sites(Emit(st, target, id, args, phantoms).state,
                  open + Pending(Emit(st, target, id, args, phantoms).target))
  {
    hide Sites;
    var node := Node(Fresh(st), id, args, phantoms);
    match target
    case ModuleTarget(_) => TopFresh(st, node, open + Pending(target));
    case FunctionTarget(_, body) =>
      SymbolsSnoc(body, node);
      OpenFresh(st, open + Pending(target));
      assert open + Pending(target) + multiset{Fresh(st)} == open + multiset(BodySymbols(body + [node]));
  }

  lemma {:induction false} ExpressionSites(st: State, scope: Scope, target: Target, e: Ast.Expression, open: Symbols)
    requires Sites(st, open + Pending(target)) && ResolveExpression(st, scope, target, e).Ok?
    ensures SitedBy(ResolveExpression(st, scope, target, e).value, open)
    decreases e, 1
  {
    hide Sites, Pending;
    match e
    case Number(n) => LiteralSites(st, DataModel.IntLit(n), open + Pending(target));
    case Text(t) => LiteralSites(st, DataModel.StrLit(t), open + Pending(target));
    case Label(path) =>
    case Call(node) => NodeSites(st, scope, target, node, [], open);
    case Chain(start, nodes) =>
      var first := ResolveExpression(st, scope, target, start).value;
      ExpressionSites(st, scope, target, start, open);
      ChainSites(first.state, scope, first.target, first.value, nodes, open);
  }

  ghost predicate SitedBy<T>(s: Step<T>, open: Symbols) {
    Sites(s.state, open + Pending(s.target))
  }

  lemma {:induction false} ChainSites(st: State, scope: Scope, target: Target, current: Symbol, nodes: seq<Ast.Node>,
                                      open: Symbols)
    requires Sites(st, open + Pending(target)) && ResolveChain(st, scope, target, current, nodes).Ok?
    ensures SitedBy(ResolveChain(st, scope, target, current, nodes).value, open)
    decreases nodes, 0
  {
    hide Sites, Pending;
    if nodes != [] {
      var next := ResolveNode(st, scope, target, nodes[0], [current]).value;
      NodeSites(st, scope, target, nodes[0], [current], open);
      ChainSites(next.state, scope, next.target, next.value, nodes[1..], open);
    }
  }

  lemma {:induction false} NodeSites(st: State, scope: Scope, target: Target, node: Ast.Node, first: seq<Symbol>,
                                     open: Symbols)
    requires Sites(st, open + Pending(target)) && ResolveNode(st, scope, target, node, first).Ok?
    ensures SitedBy(ResolveNode(st, scope, target, node, first).value, open)
    decreases node, 1
  {
    hide Sites, Pending;
    var args := ResolveArguments(st, scope, target, node.arguments).value;
    ArgumentsSites(st, scope, target, node.arguments, open);
    EmitSites(args.state, args.target, GetFunction(st, scope, node.name).value, first + args.value,
              GetLabels(st, scope, node.phantoms).value, open);
  }

  lemma {:induction false} ArgumentsSites(st: State, scope: Scope, target: Target, es: seq<Ast.Expression>,
                                          open: Symbols)
    requires Sites(st, open + Pending(target)) && ResolveArguments(st, scope, target, es).Ok?
    ensures SitedBy(ResolveArguments(st, scope, target, es).value, open)
    decreases es, 0
  {
    hide Sites, Pending;
    if es != [] {
      var head := ResolveExpression(st, scope, target, es[0]).value;
      ExpressionSites(st, scope, target, es[0], open);
      ArgumentsSites(head.state, scope, head.target, es[1..], open);
    }
  }

  lemma {:induction false} RequiredSites(st: State, scope: Scope, names: seq<string>, open: Symbols)
    requires Sites(st, open)
    ensures Sites(ResolveRequired(st, scope, names).0, open + multiset(ResolveRequired(st, scope, names).2))
    decreases |names|
  {
    hide Sites;
    var params := ResolveRequired(st, scope, names).2;
    if names == [] {
      assert open + multiset(params) == open;
    } else {
      OpenFresh(st, open);
      RequiredSites(Bump(st), scope.Insert(names[0], Label(Fresh(st))), names[1..], open + multiset{Fresh(st)});
      var rest := ResolveRequired(Bump(st), scope.Insert(names[0], Label(Fresh(st))), names[1..]).2;
      assert params == [Fresh(st)] + rest;
      assert open + multiset{Fresh(st)} + multiset(rest) == open + multiset(params);
    }
  }

  lemma {:induction false} DefaultsSites(st: State, scope: Scope, defaults: seq<Ast.Default>, open: Symbols)
    requires Sites(st, open) && ResolveDefaults(st, scope, defaults).Ok?
    ensures Sites(ResolveDefaults(st, scope, defaults).value.0,
                  open + multiset(DefaultSymbols(ResolveDefaults(st, scope, defaults).value.2)))
    decreases |defaults|
  {
    hide Sites, ResolveExpression, BodySymbols;
    var params := ResolveDefaults(st, scope, defaults).value.2;
    if defaults == [] {
      assert open + multiset(DefaultSymbols(params)) == open;
    } else {
      var apart := FunctionTarget(None, []);
      var d := ResolveExpression(st, scope, apart, defaults[0].value).value;
      var param, names := Fresh(d.state), BodySymbols(d.target.body);
      NothingPending(open);
      ExpressionSites(st, scope, apart, defaults[0].value, open);
      OpenFresh(d.state, open + multiset(names));
      var more := open + multiset(names) + multiset{param};
      var inner := scope.Insert(defaults[0].name, Label(param));
      DefaultsSites(Bump(d.state), inner, defaults[1..], more);
      var rest := DefaultSymbols(ResolveDefaults(Bump(d.state), inner, defaults[1..]).value.2);
      assert params[1..] == ResolveDefaults(Bump(d.state), inner, defaults[1..]).value.2;
      assert DefaultSymbols(params) == names + [param] + rest;
      assert more + multiset(rest) == open + multiset(names + [param] + rest);
    }
  }

  lemma NothingPending(open: Symbols)
    ensures open + Pending(FunctionTarget(None, [])) == open && open + Pending(ModuleTarget(map[])) == open
  {
  }

  lemma {:induction false} StatementSites(disk: Ast.Disk, st: State, scope: Scope, target: Target, file: string,
                                          stmt: Ast.Statement, open: Symbols)
    requires Sites(st, open + Pending(target)) && ResolveStatement(disk, st, scope, target, file, stmt).Ok?
    ensures SitedBy(ResolveStatement(disk, st, scope, target, file, stmt).value, open)
    decreases disk.files.Keys - st.moduleCache.Keys, 1, stmt, 1
  {
    hide Sites, BodySymbols, ResolveExpression, GetModule, ResolveFunction;
    match stmt
    case Return(e) => ExpressionSites(st, scope, target, e, open);
    case Assign(_, e, _) => ExpressionSites(st, scope, target, e, open);
    case Import(_, path, _) => ModuleSites(disk, st, disk.target(file, path), open + Pending(target));
    case Def(_, f) => FunctionSites(disk, st, scope, file, f, open + Pending(target));
  }

  lemma {:induction false} StatementsSites(disk: Ast.Disk, st: State, scope: Scope, target: Target, file: string,
                                           stmts: seq<Ast.Statement>, open: Symbols)
    requires Sites(st, open + Pending(target)) && ResolveStatements(disk, st, scope, target, file, stmts).Ok?
    ensures SitedBy(ResolveStatements(disk, st, scope, target, file, stmts).value, open)
    decreases disk.files.Keys - st.moduleCache.Keys, 1, stmts, 0
  {
    hide Sites, ResolveStatement, Pending;
    if stmts != [] {
      var next := ResolveStatement(disk, st, scope, target, file, stmts[0]).value;
      StatementSites(disk, st, scope, target, file, stmts[0], open);
      StatementsSites(disk, next.state, next.value, next.target, file, stmts[1..], open);
    }
  }

  /** A resolved function binds fresh symbols only, and each once. */
  lemma {:induction false} FunctionSites(disk: Ast.Disk, st: State, scope: Scope, file: string, f: Ast.Function,
                                         open: Symbols)
    requires Sites(st, open) && ResolveFunction(disk, st, scope, file, f).Ok?
    ensures Sites(ResolveFunction(disk, st, scope, file, f).value.0, open)
    decreases disk.files.Keys - st.moduleCache.Keys, 1, f, 0
  {
    hide Sites, BodySymbols, DefaultSymbols, ResolveStatements, ResolveDefaults, ResolveRequired;
    var apart := FunctionTarget(None, []);
    var (bound, inner, required) := ResolveRequired(st, scope.Child(), f.required);
    var (ready, outer, defaults) := ResolveDefaults(bound, inner, f.defaults).value;
    var body := ResolveStatements(disk, ready, outer, apart, file, f.body).value;
    var custom := Custom(required, defaults, body.target.body, body.target.result.value);
    var open1 := open + multiset(required);
    var open2 := open1 + multiset(DefaultSymbols(defaults));
    RequiredSites(st, scope.Child(), f.required, open);
    DefaultsSites(bound, inner, f.defaults, open1);
    NothingPending(open2);
    StatementsSites(disk, ready, outer, apart, file, f.body, open2);
    assert open2 + Pending(body.target) == open + multiset(FunctionSymbols(custom));
    CloseFunction(body.state, custom, open);
  }

  /** Resolving a file binds fresh symbols only, and each once. */
  lemma {:induction false} ModuleSites(disk: Ast.Disk, st: State, file: string, open: Symbols)
    requires Sites(st, open) && GetModule(disk, st, file).Ok?
    ensures Sites(GetModule(disk, st, file).value.0, open)
    decreases disk.files.Keys - st.moduleCache.Keys, 0
  {
    hide Sites, Pending, ResolveStatements;
    if file !in st.moduleCache {
      var begun := st.(moduleCache := st.moduleCache[file := None]);
      assert file in disk.files.Keys - st.moduleCache.Keys;
      var scope, target := PreludeScope().Child(), ModuleTarget(map[]);
      SameSites(st, begun, open);
      NothingPending(open);
      StatementsSites(disk, begun, scope, target, file, disk.files[file], open);
      var s := ResolveStatements(disk, begun, scope, target, file, disk.files[file]).value;
      ModulePending(s.target, open);
      SameSites(s.state, GetModule(disk, st, file).value.0, open);
    }
  }

  lemma ModulePending(target: Target, open: Symbols)
    requires target.ModuleTarget?
    ensures open + Pending(target) == open
  {
  }

  /** Symbols that are bound once each make a list without duplicates. */
  lemma OnceIsDifferent(s: seq<Symbol>, next: nat)
    requires Once(multiset(s), next)
    ensures PairwiseDifferent(s)
  {
    forall i, j | 0 <= i < j < |s| ensures s[i] != s[j] {
      assert s == s[..i] + [s[i]] + s[i + 1..j] + [s[j]] + s[j + 1..];
      assert multiset(s) == multiset(s[..i]) + multiset{s[i]} + multiset(s[i + 1..j]) + multiset{s[j]}
        + multiset(s[j + 1..]);
      assert multiset(s)[s[i]] <= 1;
    }
  }
}
