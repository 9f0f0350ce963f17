/** Laws of calls that hold in the source and in the resolved form alike: what waiting does to a value,
    what a node keeps of its arguments, how many arguments a function takes, and what a default is. */
module CallLaws {
  import opened Wrappers
  import opened DataModel
  import Ast
  import Ir
  import Source

  /** `waited` is the result `plain` when the call also waits for `phantoms`: a failure stays what it is,
      and a value is passed on by a Noop that waits. */
  ghost predicate Waits(plain: Result<Val, Ir.Fault>, phantoms: seq<Term>, waited: Result<Val, Ir.Fault>) {
    match plain
    case Err(x) => waited == Err(x)
    case Ok(v) => waited == Ok(Val(Term(Noop, [v.term], phantoms), v.type_))
  }

  /** A custom call with phantom inputs waits for them; without, it has the value that its body left. */
  lemma CustomCallWaits(c: Ir.Context, env: Ir.Env, f: Ir.FunctionId, args: seq<Val>, phantoms: seq<Term>)
    requires f < |c.functions| && c.functions[f].Custom?
    ensures phantoms != [] ==> Waits(Ir.Call(c, env, f, args, []), phantoms, Ir.Call(c, env, f, args, phantoms))
    ensures Ir.Call(c, env, f, args, []).Ok? ==>
              && Ir.Enter(c, env, f, args).Ok?
              && Ir.Exec(c, f, Ir.Enter(c, env, f, args).value, c.functions[f].body).Ok?
              && c.functions[f].result in Ir.Exec(c, f, Ir.Enter(c, env, f, args).value, c.functions[f].body).value
              && Ir.Call(c, env, f, args, []).value
                 == Ir.Exec(c, f, Ir.Enter(c, env, f, args).value, c.functions[f].body).value[c.functions[f].result]
  {
  }

  /** The same of a closure in the source. */
  lemma ClosureWaits(disk: Ast.Disk, loaded: Source.Loaded, file: string, env: Source.Env, f: Ast.Function,
                     args: seq<Val>, phantoms: seq<Term>)
    requires phantoms != []
    ensures Waits(Source.Apply(disk, loaded, file, env, f, args, []), phantoms,
                  Source.Apply(disk, loaded, file, env, f, args, phantoms))
  {
  }

  /** A builtin call type-checks its arguments and keeps them, in order, as the inputs of its node, which
      waits for the phantom inputs; these have no influence on the type. */
  lemma BuiltinCallKeeps(c: Ir.Context, env: Ir.Env, f: Ir.FunctionId, args: seq<Val>, phantoms: seq<Term>)
    requires f < |c.functions| && c.functions[f].Builtin? && c.functions[f].kind < |c.nodes|
    ensures var impl, types := c.nodes[c.functions[f].kind], seq(|args|, i requires 0 <= i < |args| => args[i].type_);
      match ReturnType(impl, types)
      case Err(e) => Ir.Call(c, env, f, args, phantoms) == Err(Ir.Type(e))
      case Ok(t) =>
        Ir.Call(c, env, f, args, phantoms)
        == Ok(Val(Term(impl, seq(|args|, i requires 0 <= i < |args| => args[i].term), phantoms), t))
  {
    assert Types(args) == seq(|args|, i requires 0 <= i < |args| => args[i].type_);
    assert Terms(args) == seq(|args|, i requires 0 <= i < |args| => args[i].term);
  }

  /** The numbers of arguments that an arity allows. */
  predicate Admits(a: Arity, count: nat) {
    match a
    case Exactly(n) => count == n
    case Between(lo, hi) => lo <= count <= hi
    case AtLeast(least) => count >= least
  }

  /** How many arguments a node takes. */
  function ArityOf(impl: NodeImpl): Arity {
    match impl
    case Noop => Exactly(1)
    case Join => AtLeast(0)
    case All => AtLeast(1)
    case LiteralNode(_) => AtLeast(0)
    case Wrap(f) => Exactly(|f.Params()|)
  }

  /** The `i`th argument is of a type that the node takes there. */
  predicate Takes(impl: NodeImpl, types: seq<DataType>, i: nat)
    requires i < |types|
  {
    match impl
    case Join => types[i] == String
    case Wrap(f) => i < |f.Params()| && f.Params()[i].Accepts(types[i])
    case _ => true
  }

  /** A node type-checks if and only if it gets as many arguments as it takes and takes each of them; the
      error tells the count, or else the first argument that is wrong and what was expected there. */
  lemma TypeErrorsAreExact(impl: NodeImpl, types: seq<DataType>)
    ensures ReturnType(impl, types).Ok? <==>
              Admits(ArityOf(impl), |types|) && forall i :: 0 <= i < |types| ==> Takes(impl, types, i)
    ensures !Admits(ArityOf(impl), |types|) ==>
              ReturnType(impl, types) == Err(ArgumentCountMismatch(ArityOf(impl), |types|))
    ensures Admits(ArityOf(impl), |types|) && ReturnType(impl, types).Err? ==>
              var e := ReturnType(impl, types).error;
              && e.TypeMismatch? && e.index < |types| && e.got == types[e.index] && !Takes(impl, types, e.index)
              && e.expected == (if impl.Wrap? then impl.function_.Params()[e.index].Kind() else String)
              && forall k :: 0 <= k < e.index ==> Takes(impl, types, k)
  {
    if impl.Join? { var _ := CheckStrings(types, 0); }
    match impl
    case Noop =>
    case All =>
    case LiteralNode(_) =>
    case Join => assert forall i :: 0 <= i < |types| ==> (Takes(impl, types, i) <==> types[i] == String);
    case Wrap(f) =>
      assert |f.Params()| > 0;
      if |types| == |f.Params()| {
        var params := f.Params();
        assert forall i :: 0 <= i < |types| ==> (Takes(impl, types, i) <==> params[i].Accepts(types[i]));
        assert CheckArguments(params, types, 0).Ok? <==> ReturnType(impl, types).Ok?;
      }
  }

  /** A call of a custom function with too few or too many arguments is reported with the numbers that
      would do, and only such a call is. */
  lemma WrongCount(c: Ir.Context, env: Ir.Env, f: Ir.FunctionId, args: seq<Val>)
    requires f < |c.functions| && c.functions[f].Custom?
    ensures var lo, most := |c.functions[f].required|, |c.functions[f].required| + |c.functions[f].defaults|;
      !(lo <= |args| <= most) ==>
        Ir.Enter(c, env, f, args)
        == Err(Ir.Type(ArgumentCountMismatch(if lo == most then Exactly(lo) else Between(lo, most), |args|)))
  {
  }

  /** Closures count in the same way. */
  lemma WrongCountInSource(disk: Ast.Disk, loaded: Source.Loaded, file: string, env: Source.Env, f: Ast.Function,
                           args: seq<Val>, phantoms: seq<Term>)
    ensures var lo, most := |f.required|, |f.required| + |f.defaults|;
      !(lo <= |args| <= most) ==>
        Source.Apply(disk, loaded, file, env, f, args, phantoms)
        == Err(Ir.Type(ArgumentCountMismatch(if lo == most then Exactly(lo) else Between(lo, most), |args|)))
  {
  }

  /** A parameter stands for the argument at its place, unless a later parameter has its name; any other
      name stands for what it stood for. */
  lemma {:induction false} ParameterStandsFor(env: Source.Env, names: seq<string>, args: seq<Val>, name: string)
    requires |names| == |args|
    ensures name !in names ==>
              && (name in Source.BindRequired(env, names, args) <==> name in env)
              && (name in env ==> Source.BindRequired(env, names, args)[name] == env[name])
    ensures forall i :: 0 <= i < |names| && names[i] == name && name !in names[i + 1..] ==>
              name in Source.BindRequired(env, names, args)
              && Source.BindRequired(env, names, args)[name] == Source.LabelV(args[i])
    decreases |names|
  {
    if names != [] {
      var bound := env[names[0] := Source.LabelV(args[0])];
      ParameterStandsFor(bound, names[1..], args[1..], name);
      assert name in names ==> name == names[0] || name in names[1..];
      forall i | 0 <= i < |names| && names[i] == name && name !in names[i + 1..]
        ensures name in Source.BindRequired(env, names, args)
        ensures Source.BindRequired(env, names, args)[name] == Source.LabelV(args[i])
      {
        if i > 0 { assert names[1..][i - 1] == name && names[1..][i..] == names[i + 1..]; }
      }
    }
  }

  /** Leaving a default out is giving its value as an argument: the value that its expression has after
      the parameters before it are bound. */
  lemma {:induction false} DefaultIsArgument(env: Source.Env, defaults: seq<Ast.Default>, args: seq<Val>)
    requires |args| < |defaults|
    ensures var bound := Source.BindDefaults(env, defaults[..|args|], args);
      bound.Ok? ==>
        match Source.EvalExpression(bound.value, defaults[|args|].value)
        case Ok(v) => Source.BindDefaults(env, defaults, args) == Source.BindDefaults(env, defaults, args + [v])
        case Err(x) => Source.BindDefaults(env, defaults, args) == Err(x)
    decreases |defaults|
  {
    hide Source.EvalExpression;
    if args == [] {
      assert defaults[..0] == [];
      var v := Source.EvalExpression(env, defaults[0].value);
      if v.Ok? { assert ([] + [v.value])[1..] == [] && [] + [v.value] != []; }
    } else {
      var next := env[defaults[0].name := Source.LabelV(args[0])];
      DefaultIsArgument(next, defaults[1..], args[1..]);
      assert defaults[..|args|][1..] == defaults[1..][..|args[1..]|];
      forall v ensures (args + [v])[1..] == args[1..] + [v] {}
    }
  }

  /** `start > B(x, y)` means `B(start, x, y)`. */
  lemma ChainIsCall(env: Source.Env, start: Ast.Expression, node: Ast.Node)
    requires Source.EvalPath(env, node.name).Some? && Source.EvalPath(env, node.name).value.FunctionV?
    requires Source.EvalLabels(env, node.phantoms).Ok?
    ensures Source.EvalExpression(env, Ast.Chain(start, [node]))
         == Source.EvalExpression(env, Ast.Call(Ast.Node(node.name, [start] + node.arguments, node.phantoms)))
  {
    var call := Ast.Node(node.name, [start] + node.arguments, node.phantoms);
    assert call.arguments[1..] == node.arguments && [node][1..] == [];
    var v, args := Source.EvalExpression(env, start), Source.EvalArguments(env, node.arguments);
    if v.Ok? {
      NodeTakesFirst(env, call, node, v.value);
      var r := Source.EvalNode(env, node, [v.value]);
      if r.Ok? { assert Source.EvalChain(env, r.value, []) == Ok(r.value); }
      assert Source.EvalChain(env, v.value, [node]) == r;
    } else {
      assert Source.EvalArguments(env, call.arguments) == Err(v.error);
      assert Source.EvalNode(env, call, []) == Err(v.error);
    }
    assert Source.EvalExpression(env, Ast.Call(call)) == Source.EvalNode(env, call, []);
  }

  lemma NodeTakesFirst(env: Source.Env, call: Ast.Node, node: Ast.Node, v: Val)
    requires call.name == node.name && call.phantoms == node.phantoms
    requires call.arguments != [] && call.arguments[1..] == node.arguments
    requires Source.EvalExpression(env, call.arguments[0]) == Ok(v)
    ensures Source.EvalNode(env, call, []) == Source.EvalNode(env, node, [v])
  {
    hide Source.EvalExpression;
    var args := Source.EvalArguments(env, node.arguments);
    if args.Ok? {
      assert Source.EvalArguments(env, call.arguments) == Ok([v] + args.value);
      assert [] + ([v] + args.value) == [v] + args.value;
    }
  }

  /** A longer chain goes on from the value of the shorter one. */
  lemma {:induction false} ChainGoesOn(env: Source.Env, v: Val, nodes: seq<Ast.Node>, last: Ast.Node)
    ensures Source.EvalChain(env, v, nodes + [last])
         == match Source.EvalChain(env, v, nodes)
            case Ok(u) => Source.EvalNode(env, last, [u])
            case Err(x) => Err(x)
    decreases nodes
  {
    if nodes == [] {
      assert [] + [last] == [last] && [last][1..] == [];
      var r := Source.EvalNode(env, last, [v]);
      if r.Ok? { assert Source.EvalChain(env, r.value, []) == Ok(r.value); }
    } else {
      assert (nodes + [last])[0] == nodes[0] && (nodes + [last])[1..] == nodes[1..] + [last];
      var r := Source.EvalNode(env, nodes[0], [v]);
      if r.Ok? { ChainGoesOn(env, r.value, nodes[1..], last); }
    }
  }

  /** Every argument is the value of the expression at its place. */
  lemma {:induction false} ArgumentsAreValues(env: Source.Env, es: seq<Ast.Expression>)
    requires Source.EvalArguments(env, es).Ok?
    ensures |Source.EvalArguments(env, es).value| == |es|
    ensures forall i :: 0 <= i < |es| ==>
              Source.EvalExpression(env, es[i]) == Ok(Source.EvalArguments(env, es).value[i])
    decreases |es|
  {
    hide Source.EvalExpression;
    if es != [] { ArgumentsAreValues(env, es[1..]); }
  }
}
