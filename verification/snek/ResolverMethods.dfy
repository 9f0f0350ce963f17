/** The resolver as the object it is: its methods update the stores in place while they walk the
    syntax, and each leaves exactly the state that the functions of module Resolvers describe. */
module ResolverMethods {
  import opened Wrappers
  import opened DataModel
  import Ast
  import Ir
  import R = Resolvers

  class Resolver {
    var functions: seq<Ir.Function>
    var nodes: seq<NodeImpl>
    var nextSymbolId: nat
    var literals: map<Literal, Ir.Symbol>
    var modules: seq<R.Items>
    var moduleCache: map<string, Option<nat>>
    var topLevel: Ir.Body

    function State(): R.State
      reads this
    {
      R.State(functions, nodes, nextSymbolId, literals, modules, moduleCache, topLevel)
    }

    /** A resolver that knows the prelude and nothing else. */
    constructor ()
      ensures State() == R.Initial()
    {
      hide Prelude;
      nodes := [];
      functions := [];
      nextSymbolId, literals, modules, moduleCache, topLevel := 0, map[], [], map[], [];
      new;
      for i := 0 to |Prelude()|
        invariant |nodes| == |functions| == i
        invariant forall k :: 0 <= k < i ==> nodes[k] == Prelude()[k].1 && functions[k] == Ir.Builtin(k)
        invariant nextSymbolId == 0 && literals == map[] && modules == [] && moduleCache == map[] && topLevel == []
      {
        functions := functions + [Ir.Builtin(|nodes|)];
        nodes := nodes + [Prelude()[i].1];
      }
    }

    method NewSymbol() returns (s: Ir.Symbol)
      modifies this
      ensures s == R.Fresh(old(State())) && State() == R.Bump(old(State()))
    {
      s := Ir.Symbol(nextSymbolId);
      nextSymbolId := nextSymbolId + 1;
    }

    method ResolveLiteral(l: Literal) returns (s: Ir.Symbol)
      modifies this
      ensures (State(), s) == R.ResolveLiteral(old(State()), l)
    {
      if l in literals { return literals[l]; }
      var node := |nodes|;
      nodes := nodes + [LiteralNode(l)];
      var function_ := |functions|;
      functions := functions + [Ir.Builtin(node)];
      s := NewSymbol();
      topLevel := topLevel + [Ir.Node(s, function_, [], [])];
      literals := literals[l := s];
    }

    method Emit(target: R.Target, function_: Ir.FunctionId, args: seq<Ir.Symbol>, phantoms: seq<Ir.Symbol>)
      returns (after: R.Target, s: Ir.Symbol)
      modifies this
      ensures R.Step(State(), after, s) == R.Emit(old(State()), target, function_, args, phantoms)
    {
      s := NewSymbol();
      var node := Ir.Node(s, function_, args, phantoms);
      match target
      case ModuleTarget(_) =>
        topLevel := topLevel + [node];
        after := target;
      case FunctionTarget(_, body) =>
        after := target.(body := body + [node]);
    }

    /** What a method reports and leaves behind is what the specification `spec` says. */
    ghost predicate Gives<T>(spec: Result<R.Step<T>, R.ResolveError>, r: Result<(R.Target, T), R.ResolveError>)
      reads this
    {
      match spec
      case Ok(s) => r == Ok((s.target, s.value)) && State() == s.state
      case Err(e) => r == Err(e)
    }

    method ResolveExpression(scope: R.Scope, target: R.Target, e: Ast.Expression)
      returns (r: Result<(R.Target, Ir.Symbol), R.ResolveError>)
      modifies this
      ensures Gives(R.ResolveExpression(old(State()), scope, target, e), r)
      decreases e, 1
    {
      match e {
        case Number(n) =>
          var s := ResolveLiteral(IntLit(n));
          r := Ok((target, s));
        case Text(t) =>
          var s := ResolveLiteral(StrLit(t));
          r := Ok((target, s));
        case Label(path) =>
          var s :- R.GetLabel(State(), scope, path);
          r := Ok((target, s));
        case Call(node) =>
          r := ResolveNode(scope, target, node, []);
        case Chain(start, links) =>
          var first :- ResolveExpression(scope, target, start);
          r := ResolveChain(scope, first.0, first.1, links);
      }
    }

    method ResolveChain(scope: R.Scope, target: R.Target, start: Ir.Symbol, links: seq<Ast.Node>)
      returns (r: Result<(R.Target, Ir.Symbol), R.ResolveError>)
      modifies this
      ensures Gives(R.ResolveChain(old(State()), scope, target, start, links), r)
      decreases links, 0
    {
      var into, current, i := target, start, 0;
      ghost var rest := links;
      while i < |links|
        invariant 0 <= i <= |links| && rest == links[i..]
        invariant R.ResolveChain(old(State()), scope, target, start, links)
             == R.ResolveChain(State(), scope, into, current, rest)
      {
        assert rest[0] == links[i];
        var next :- ResolveNode(scope, into, links[i], [current]);
        into, current := next.0, next.1;
        i, rest := i + 1, rest[1..];
      }
      r := Ok((into, current));
    }

    method ResolveNode(scope: R.Scope, target: R.Target, node: Ast.Node, first: seq<Ir.Symbol>)
      returns (r: Result<(R.Target, Ir.Symbol), R.ResolveError>)
      modifies this
      ensures Gives(R.ResolveNode(old(State()), scope, target, node, first), r)
      decreases node, 1
    {
      var function_ :- R.GetFunction(State(), scope, node.name);
      var phantoms :- R.GetLabels(State(), scope, node.phantoms);
      var args :- ResolveArguments(scope, target, node.arguments);
      var after, s := Emit(args.0, function_, first + args.1, phantoms);
      r := Ok((after, s));
    }

    method ResolveArguments(scope: R.Scope, target: R.Target, es: seq<Ast.Expression>)
      returns (r: Result<(R.Target, seq<Ir.Symbol>), R.ResolveError>)
      modifies this
      ensures Gives(R.ResolveArguments(old(State()), scope, target, es), r)
      decreases es, 0
    {
      if es == [] { return Ok((target, [])); }
      var head :- ResolveExpression(scope, target, es[0]);
      var tail :- ResolveArguments(scope, head.0, es[1..]);
      r := Ok((tail.0, [head.1] + tail.1));
    }

    method ResolveRequired(scope: R.Scope, names: seq<string>) returns (inner: R.Scope, params: seq<Ir.Symbol>)
      modifies this
      ensures (State(), inner, params) == R.ResolveRequired(old(State()), scope, names)
    {
      inner, params := scope, [];
      var i := 0;
      ghost var rest := names;
      AfterNothing(R.ResolveRequired(State(), scope, names));
      while i < |names|
        invariant 0 <= i <= |names| && rest == names[i..]
        invariant R.ResolveRequired(old(State()), scope, names)
             == After(params, R.ResolveRequired(State(), inner, rest))
      {
        assert rest[0] == names[i];
        var symbol := NewSymbol();
        AfterMore(params, symbol, R.ResolveRequired(State(), inner.Insert(names[i], R.Label(symbol)), rest[1..]));
        inner := inner.Insert(names[i], R.Label(symbol));
        params := params + [symbol];
        i, rest := i + 1, rest[1..];
      }
      assert params + [] == params;
    }

    method ResolveDefaults(scope: R.Scope, defaults: seq<Ast.Default>)
      returns (r: Result<(R.Scope, seq<Ir.DefaultParam>), R.ResolveError>)
      modifies this
      ensures GivesPair(R.ResolveDefaults(old(State()), scope, defaults), r)
    {
      hide R.Grows, R.StoresGrow, R.Valid, R.ScopeInRange, R.ResolveExpression;
      var inner, params, i := scope, [], 0;
      ghost var rest := defaults;
      PrependNothing(R.ResolveDefaults(State(), scope, defaults));
      while i < |defaults|
        invariant 0 <= i <= |defaults| && rest == defaults[i..]
        invariant R.ResolveDefaults(old(State()), scope, defaults)
             == Prepend(params, R.ResolveDefaults(State(), inner, rest))
      {
        assert rest[0] == defaults[i];
        var value :- ResolveExpression(inner, R.FunctionTarget(None, []), defaults[i].value);
        var param := NewSymbol();
        ghost var default := Ir.DefaultParam(param, value.1, value.0.body);
        PrependMore(params, default,
                    R.ResolveDefaults(State(), inner.Insert(defaults[i].name, R.Label(param)), rest[1..]));
        inner := inner.Insert(defaults[i].name, R.Label(param));
        params := params + [Ir.DefaultParam(param, value.1, value.0.body)];
        i, rest := i + 1, rest[1..];
      }
      assert params + [] == params;
      r := Ok((inner, params));
    }

    ghost predicate GivesPair<T, U>(spec: Result<(R.State, T, U), R.ResolveError>, r: Result<(T, U), R.ResolveError>)
      reads this
    {
      match spec
      case Ok((st, t, u)) => r == Ok((t, u)) && State() == st
      case Err(e) => r == Err(e)
    }

    ghost predicate GivesOne<T>(spec: Result<(R.State, T), R.ResolveError>, r: Result<T, R.ResolveError>)
      reads this
    {
      match spec
      case Ok((st, t)) => r == Ok(t) && State() == st
      case Err(e) => r == Err(e)
    }

    method ResolveStatement(disk: Ast.Disk, scope: R.Scope, target: R.Target, file: string, stmt: Ast.Statement)
      returns (r: Result<(R.Target, R.Scope), R.ResolveError>)
      modifies this
      ensures Gives(R.ResolveStatement(disk, old(State()), scope, target, file, stmt), r)
      decreases disk.files.Keys - moduleCache.Keys, 1, stmt, 1
    {
      match stmt {
        case Return(e) =>
          var value :- ResolveExpression(scope, target, e);
          var done :- R.SetReturnValue(value.0, value.1);
          r := Ok((done, scope));
        case Import(exported, path, name) =>
          var found := GetModule(disk, disk.target(file, path));
          if found.Err? { return Err(R.ImportError(path, found.error)); }
          var done :- R.Export(target, exported, name, R.Module(found.value));
          r := Ok((done, scope.Insert(name, R.Module(found.value))));
        case Assign(exported, e, name) =>
          var value :- ResolveExpression(scope, target, e);
          var done :- R.Export(value.0, exported, name, R.Label(value.1));
          r := Ok((done, scope.Insert(name, R.Label(value.1))));
        case Def(exported, f) =>
          var id :- ResolveFunction(disk, scope, file, f);
          var done :- R.Export(target, exported, f.name, R.Function(id));
          r := Ok((done, scope.Insert(f.name, R.Function(id))));
      }
    }

    method ResolveStatements(disk: Ast.Disk, scope: R.Scope, target: R.Target, file: string, stmts: seq<Ast.Statement>)
      returns (r: Result<(R.Target, R.Scope), R.ResolveError>)
      modifies this
      ensures Gives(R.ResolveStatements(disk, old(State()), scope, target, file, stmts), r)
      decreases disk.files.Keys - moduleCache.Keys, 1, stmts, 0
    {
      var into, inner, i := target, scope, 0;
      ghost var rest := stmts;
      while i < |stmts|
        invariant 0 <= i <= |stmts| && rest == stmts[i..]
        invariant old(moduleCache.Keys) <= moduleCache.Keys
        invariant R.ResolveStatements(disk, old(State()), scope, target, file, stmts)
               == R.ResolveStatements(disk, State(), inner, into, file, rest)
      {
        assert rest[0] == stmts[i];
        var next :- ResolveStatement(disk, inner, into, file, stmts[i]);
        into, inner := next.0, next.1;
        i, rest := i + 1, rest[1..];
      }
      r := Ok((into, inner));
    }

    method ResolveFunction(disk: Ast.Disk, scope: R.Scope, file: string, f: Ast.Function)
      returns (r: Result<Ir.FunctionId, R.ResolveError>)
      modifies this
      ensures GivesOne(R.ResolveFunction(disk, old(State()), scope, file, f), r)
      decreases disk.files.Keys - moduleCache.Keys, 1, f, 0
    {
      var inner, required := ResolveRequired(scope.Child(), f.required);
      var defaults :- ResolveDefaults(inner, f.defaults);
      var body :- ResolveStatements(disk, defaults.0, R.FunctionTarget(None, []), file, f.body);
      if body.0.result.None? { return Err(R.ReturnNotFound(f.name)); }
      var id := |functions|;
      functions := functions + [Ir.Custom(required, defaults.1, body.0.body, body.0.result.value)];
      r := Ok(id);
    }

    method GetModule(disk: Ast.Disk, file: string) returns (r: Result<nat, R.ResolveError>)
      modifies this
      ensures GivesOne(R.GetModule(disk, old(State()), file), r)
      decreases disk.files.Keys - moduleCache.Keys, 0
    {
      if file in moduleCache {
        match moduleCache[file] {
          case Some(index) => return Ok(index);
          case None => return Err(R.CircularImport(file));
        }
      }
      if file !in disk.files { return Err(R.FileReading(file)); }
      assert file in disk.files.Keys - moduleCache.Keys;
      moduleCache := moduleCache[file := None];
      var module_ :- ResolveStatements(disk, R.PreludeScope().Child(), R.ModuleTarget(map[]), file, disk.files[file]);
      var index := |modules|;
      modules := modules + [module_.0.exports];
      moduleCache := moduleCache[file := Some(index)];
      r := Ok(index);
    }
  }

  ghost function Prepend(params: seq<Ir.DefaultParam>,
                         r: Result<(R.State, R.Scope, seq<Ir.DefaultParam>), R.ResolveError>)
    : Result<(R.State, R.Scope, seq<Ir.DefaultParam>), R.ResolveError>
  {
    match r
    case Ok((st, scope, more)) => Ok((st, scope, params + more))
    case Err(e) => Err(e)
  }

  lemma PrependNothing(r: Result<(R.State, R.Scope, seq<Ir.DefaultParam>), R.ResolveError>)
    ensures Prepend([], r) == r
  {
    if r.Ok? { assert [] + r.value.2 == r.value.2; }
  }

  lemma PrependMore(params: seq<Ir.DefaultParam>, p: Ir.DefaultParam,
                    r: Result<(R.State, R.Scope, seq<Ir.DefaultParam>), R.ResolveError>)
    ensures Prepend(params, Prepend([p], r)) == Prepend(params + [p], r)
  {
    if r.Ok? { assert params + ([p] + r.value.2) == params + [p] + r.value.2; }
  }

  ghost function After(params: seq<Ir.Symbol>, r: (R.State, R.Scope, seq<Ir.Symbol>))
    : (R.State, R.Scope, seq<Ir.Symbol>)
  {
    (r.0, r.1, params + r.2)
  }

  lemma AfterNothing(r: (R.State, R.Scope, seq<Ir.Symbol>))
    ensures After([], r) == r
  {
    assert [] + r.2 == r.2;
  }

  lemma AfterMore(params: seq<Ir.Symbol>, p: Ir.Symbol, r: (R.State, R.Scope, seq<Ir.Symbol>))
    ensures After(params, After([p], r)) == After(params + [p], r)
  {
    assert params + ([p] + r.2) == params + [p] + r.2;
  }

  /** Resolves the program whose entry point is the label `entry` exported by `file`. */
  method Resolve(disk: Ast.Disk, file: string, entry: string) returns (r: Result<Ir.Pipeline, R.ResolveError>)
    ensures r == R.Resolve(disk, file, entry)
  {
    var resolver := new Resolver();
    var index :- resolver.GetModule(disk, file);
    var st := resolver.State();
    if index >= |st.modules| || entry !in st.modules[index] { return Err(R.ItemNotFound(entry)); }
    var item := st.modules[index][entry];
    if !item.Label? { return Err(R.WrongItemKind(R.LabelKind, item.Kind())); }
    r := Ok(Ir.Pipeline(st.topLevel, R.ContextOf(st), item.symbol));
  }
}
