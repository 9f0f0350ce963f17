/** The compiler: inlines every call through one global symbol map that is never popped, and
    hash-conses the resulting nodes. Each method is proved against the activation semantics of
    module Ir, in which a callee's bindings vanish when it returns. */
module Compilers {
  import opened Wrappers
  import opened DataModel
  import opened Ir
  import G = Graphs

  /** The node and static type a symbol currently points to. */
  datatype SymbolValue = SymbolValue(node: G.InstanceId, type_: DataType)

  datatype Compiled = Compiled(nodes: seq<NodeImpl>, graph: G.Graph, start: G.InstanceId)

  /** The compiled values of a list of arguments stand for the given terms and types. */
  ghost predicate Denote(impls: seq<NodeImpl>, g: G.Graph, values: seq<SymbolValue>, meaning: seq<Val>)
    requires G.Ordered(impls, g)
  {
    && |values| == |meaning|
    && forall i :: 0 <= i < |values| ==> Denotes(impls, g, values[i], meaning[i])
  }

  ghost predicate Denotes(impls: seq<NodeImpl>, g: G.Graph, value: SymbolValue, meaning: Val)
    requires G.Ordered(impls, g)
  {
    value.node < |g| && G.Unfold(impls, g, value.node) == meaning.term && value.type_ == meaning.type_
  }

  /** The global map agrees with an activation on every symbol that the activation can see. */
  ghost predicate Agrees(impls: seq<NodeImpl>, g: G.Graph, m: map<Symbol, SymbolValue>, env: Env)
    requires G.Ordered(impls, g)
  {
    forall s :: s in env ==> s in m && Denotes(impls, g, m[s], env[s])
  }

  lemma DenotesStable(impls: seq<NodeImpl>, g: G.Graph, h: G.Graph, value: SymbolValue, meaning: Val)
    requires G.Ordered(impls, g) && G.Ordered(impls, h) && g <= h
    requires Denotes(impls, g, value, meaning)
    ensures Denotes(impls, h, value, meaning)
  {
    G.UnfoldStable(impls, g, h, value.node);
  }

  lemma DenoteStable(impls: seq<NodeImpl>, g: G.Graph, h: G.Graph, values: seq<SymbolValue>, meaning: seq<Val>)
    requires G.Ordered(impls, g) && G.Ordered(impls, h) && g <= h
    requires Denote(impls, g, values, meaning)
    ensures Denote(impls, h, values, meaning)
  {
    forall i | 0 <= i < |values| ensures Denotes(impls, h, values[i], meaning[i]) {
      DenotesStable(impls, g, h, values[i], meaning[i]);
    }
  }

  lemma AgreesStable(impls: seq<NodeImpl>, g: G.Graph, h: G.Graph, m: map<Symbol, SymbolValue>, env: Env)
    requires G.Ordered(impls, g) && G.Ordered(impls, h) && g <= h
    requires Agrees(impls, g, m, env)
    ensures Agrees(impls, h, m, env)
  {
    forall s | s in env ensures s in m && Denotes(impls, h, m[s], env[s]) {
      DenotesStable(impls, g, h, m[s], env[s]);
    }
  }

  class Compiler {
    const context: Context
    var graph: G.Graph
    var symbolMapping: map<Symbol, SymbolValue>
    var nodeCache: map<G.Node, G.InstanceId>

    /** The graph is topologically ordered and the node cache is exactly its inverse. */
    ghost predicate Valid()
      reads this
    {
      && context.noop < |context.nodes| && context.nodes[context.noop] == Noop
      && OneSite(context, |context.functions|)
      && G.Ordered(context.nodes, graph)
      && (forall n :: n in nodeCache ==> nodeCache[n] < |graph| && graph[nodeCache[n]] == n)
      && (forall id :: 0 <= id < |graph| ==> graph[id] in nodeCache && nodeCache[graph[id]] == id)
    }

    ghost predicate Sees(env: Env)
      requires Valid()
      reads this
    {
      Agrees(context.nodes, graph, symbolMapping, env)
    }

    /** The outcome `r` of a step is the one its meaning gives, and the map now agrees with it. */
    ghost predicate Follows(meaning: Result<Env, Fault>, r: Result<(), TypeError>)
      requires Valid()
      reads this
    {
      match meaning
      case Ok(e) => r.Ok? && Sees(e)
      case Err(Type(t)) => r == Err(t)
      case Err(Undefined) => false
    }

    constructor (c: Context)
      requires c.noop < |c.nodes| && c.nodes[c.noop] == Noop && OneSite(c, |c.functions|)
      ensures Valid() && Sees(map[]) && context == c
    {
      context := c;
      graph := [];
      symbolMapping := map[];
      nodeCache := map[];
    }

    /** Pushes a node, or finds the one that is already there. */
    method PushNodeWithCache(node: G.Node) returns (id: G.InstanceId)
      requires Valid() && G.NodeBelow(context.nodes, node, |graph|)
      modifies this
      ensures Valid() && symbolMapping == old(symbolMapping)
      ensures graph == if node in old(graph) then old(graph) else old(graph) + [node]
      ensures id < |graph| && graph[id] == node
    {
      if node in nodeCache {
        id := nodeCache[node];
      } else {
        id := |graph|;
        graph := graph + [node];
        nodeCache := nodeCache[node := id];
      }
    }

    /** Reads the values that symbols point to now, before any parameter is overwritten. */
    method GetSymbols(symbols: seq<Symbol>, ghost env: Env) returns (values: seq<SymbolValue>)
      requires Valid() && Sees(env) && ReadAll(env, symbols).Ok?
      ensures Denote(context.nodes, graph, values, ReadAll(env, symbols).value)
    {
      values := [];
      for i := 0 to |symbols|
        invariant |values| == i
        invariant forall k :: 0 <= k < i ==> Denotes(context.nodes, graph, values[k], env[symbols[k]])
      {
        values := values + [symbolMapping[symbols[i]]];
      }
    }

    /** Compiles a call of a builtin. */
    method CompileBuiltin(kind: KindId, arguments: seq<SymbolValue>, phantoms: seq<SymbolValue>, ghost args: seq<Val>,
                          ghost waits: seq<Val>)
      returns (r: Result<SymbolValue, TypeError>)
      requires Valid() && kind < |context.nodes|
      requires Denote(context.nodes, graph, arguments, args) && Denote(context.nodes, graph, phantoms, waits)
      modifies this
      ensures Valid() && old(graph) <= graph && symbolMapping == old(symbolMapping)
      ensures match ApplyBuiltin(context.nodes[kind], args, Terms(waits))
              case Ok(v) => r.Ok? && Denotes(context.nodes, graph, r.value, v)
              case Err(e) => r == Err(e)
    {
      var types := seq(|arguments|, i requires 0 <= i < |arguments| => arguments[i].type_);
      assert types == Types(args);
      var t :- ReturnType(context.nodes[kind], types);
      var node := G.Node(kind, NodesOf(arguments), NodesOf(phantoms));
      var id := PushNodeWithCache(node);
      UnfoldsTo(context.nodes, old(graph), graph, id, arguments, phantoms, args, waits);
      r := Ok(SymbolValue(id, t));
    }

    /** Wraps a custom call that has phantom inputs. */
    method CreatePhantomNoop(output: SymbolValue, phantoms: seq<SymbolValue>, ghost v: Val, ghost waits: seq<Val>)
      returns (id: G.InstanceId)
      requires Valid()
      requires Denotes(context.nodes, graph, output, v) && Denote(context.nodes, graph, phantoms, waits)
      modifies this
      ensures Valid() && old(graph) <= graph && symbolMapping == old(symbolMapping)
      ensures Denotes(context.nodes, graph, SymbolValue(id, v.type_), Val(Term(Noop, [v.term], Terms(waits)), v.type_))
    {
      var inputs := [output.node];
      assert inputs == NodesOf([output]);
      id := PushNodeWithCache(G.Node(context.noop, inputs, NodesOf(phantoms)));
      UnfoldsTo(context.nodes, old(graph), graph, id, [output], phantoms, [v], waits);
      assert Terms([v]) == [v.term];
    }

    /** Points the parameters of a custom function at its arguments, compiling missing defaults. */
    method HandleCustomArguments(f: FunctionId, arguments: seq<SymbolValue>, ghost env: Env, ghost args: seq<Val>)
      returns (r: Result<(), TypeError>)
      requires Valid() && Sees(env) && f < |context.functions| && context.functions[f].Custom?
      requires Safe(context, env.Keys + Definitions(context.functions[f]), f)
      requires Denote(context.nodes, graph, arguments, args)
      requires Enter(context, env, f, args) != Err(Undefined)
      modifies this
      ensures Valid() && old(graph) <= graph
      ensures Follows(Enter(context, env, f, args), r)
      decreases f, 2, 1
    {
      var Custom(required, defaults, body, result) := context.functions[f];
      if |arguments| < |required| || |arguments| > |required| + |defaults| {
        return Err(ArgumentCountMismatch(CustomArity(|required|, |defaults|), |arguments|));
      }
      ghost var keys := env.Keys + Definitions(context.functions[f]);
      EnterSteps(context, env, f, args, keys);
      BindRequiredParameters(required, arguments[..|required|], env, args[..|required|]);
      r := BindDefaultParameters(f, arguments[|required|..], BindRequired(env, required, args[..|required|]),
                                 args[|required|..], keys);
    }

    method BindRequiredParameters(params: seq<Symbol>, arguments: seq<SymbolValue>, ghost env: Env,
                                  ghost args: seq<Val>)
      requires Valid() && Sees(env) && |params| == |arguments|
      requires Denote(context.nodes, graph, arguments, args)
      modifies this
      ensures Valid() && graph == old(graph) && Sees(BindRequired(env, params, args))
    {
      ghost var bound: Env := env;
      for i := 0 to |params|
        invariant Valid() && graph == old(graph) && Sees(bound)
        invariant BindRequired(env, params, args) == BindRequired(bound, params[i..], args[i..])
      {
        assert params[i..][1..] == params[i + 1..] && args[i..][1..] == args[i + 1..];
        symbolMapping := symbolMapping[params[i] := arguments[i]];
        bound := bound[params[i] := args[i]];
      }
    }

    method BindDefaultParameters(f: FunctionId, arguments: seq<SymbolValue>, ghost env: Env, ghost args: seq<Val>,
                                 ghost keys: set<Symbol>)
      returns (r: Result<(), TypeError>)
      requires Valid() && Sees(env) && f < |context.functions| && context.functions[f].Custom?
      requires Safe(context, keys, f) && env.Keys <= keys && DefaultsWithin(context.functions[f].defaults, keys)
      requires |arguments| <= |context.functions[f].defaults| && Denote(context.nodes, graph, arguments, args)
      requires BindDefaults(context, f, env, context.functions[f].defaults, args) != Err(Undefined)
      modifies this
      ensures Valid() && old(graph) <= graph
      ensures Follows(BindDefaults(context, f, env, context.functions[f].defaults, args), r)
      decreases f, 2, 0
    {
      hide Safe, Exec, Within, Denotes;
      var defaults := context.functions[f].defaults;
      ghost var bound: Env, left, rest := env, args, defaults;
      for i := 0 to |defaults|
        invariant Valid() && Sees(bound) && old(graph) <= graph && bound.Keys <= keys
        invariant rest == defaults[i..] && left == if i < |args| then args[i..] else []
        invariant i < |arguments| ==> graph == old(graph)
        invariant BindDefaults(context, f, env, defaults, args) == BindDefaults(context, f, bound, rest, left)
      {
        assert rest != [] && rest[0] == defaults[i];
        if i < |arguments| {
          symbolMapping := symbolMapping[defaults[i].param := arguments[i]];
          bound, left := bound[defaults[i].param := left[0]], left[1..];
        } else {
          var _ :- SetDefault(f, defaults[i], bound, keys);
          ghost var e := Exec(context, f, bound, defaults[i].body).value;
          ExecWithin(context, f, bound, defaults[i].body, keys);
          bound := e[defaults[i].param := e[defaults[i].value]];
        }
        rest := rest[1..];
      }
      r := Ok(());
    }

    /** Compiles a default's body and copies its value into the parameter. */
    method SetDefault(ghost f: FunctionId, default: DefaultParam, ghost env: Env, ghost keys: set<Symbol>)
      returns (r: Result<(), TypeError>)
      requires Valid() && Sees(env) && Safe(context, keys, f) && env.Keys <= keys && Within(default.body, keys)
      requires Exec(context, f, env, default.body) != Err(Undefined)
      requires Exec(context, f, env, default.body).Ok? ==> default.value in Exec(context, f, env, default.body).value
      modifies this
      ensures Valid() && old(graph) <= graph
      ensures match Exec(context, f, env, default.body)
              case Ok(e) => r.Ok? && Sees(e[default.param := e[default.value]])
              case Err(Type(t)) => r == Err(t)
              case Err(Undefined) => false
      decreases f, 1, 1
    {
      var _ :- CompileBody(f, default.body, env, keys);
      symbolMapping := symbolMapping[default.param := symbolMapping[default.value]];
      r := Ok(());
    }

    /** Inlines a custom call. */
    method CompileCustom(f: FunctionId, arguments: seq<SymbolValue>, phantoms: seq<SymbolValue>, ghost env: Env,
                         ghost args: seq<Val>, ghost waits: seq<Val>)
      returns (r: Result<SymbolValue, TypeError>)
      requires Valid() && Sees(env) && f < |context.functions| && context.functions[f].Custom?
      requires Safe(context, env.Keys, f + 1)
      requires Denote(context.nodes, graph, arguments, args) && Denote(context.nodes, graph, phantoms, waits)
      requires Call(context, env, f, args, Terms(waits)) != Err(Undefined)
      modifies this
      ensures Valid() && old(graph) <= graph
      ensures match Call(context, env, f, args, Terms(waits))
              case Ok(v) => r.Ok? && Sees(env) && Denotes(context.nodes, graph, r.value, v)
              case Err(Type(t)) => r == Err(t)
              case Err(Undefined) => false
      decreases f, 3, 0
    {
      var Custom(required, defaults, body, result) := context.functions[f];
      ghost var keys := env.Keys + Definitions(context.functions[f]);
      EnteringIsSafe(context, env.Keys, f);
      DefinitionsWithin(context.functions[f], keys);
      var _ :- HandleCustomArguments(f, arguments, env, args);
      ghost var entered := Enter(context, env, f, args).value;
      EnterExtends(context, env, f, args);
      var _ :- CompileBody(f, body, entered, keys);
      ghost var left := Exec(context, f, entered, body).value;
      ExecExtends(context, f, entered, body);
      assert Sees(env) by { assert forall s :: s in env ==> s in left && left[s] == env[s]; }
      var value := symbolMapping[result];
      if phantoms == [] {
        r := Ok(value);
      } else {
        ghost var before := graph;
        DenoteStable(context.nodes, old(graph), graph, phantoms, waits);
        var id := CreatePhantomNoop(value, phantoms, left[result], waits);
        AgreesStable(context.nodes, before, graph, symbolMapping, env);
        r := Ok(SymbolValue(id, value.type_));
      }
    }

    /** Compiles the nodes of a body in order. */
    method CompileBody(ghost limit: FunctionId, body: Body, ghost env: Env, ghost keys: set<Symbol>)
      returns (r: Result<(), TypeError>)
      requires Valid() && Sees(env) && Safe(context, keys, limit) && env.Keys <= keys && Within(body, keys)
      requires Exec(context, limit, env, body) != Err(Undefined)
      modifies this
      ensures Valid() && old(graph) <= graph
      ensures Follows(Exec(context, limit, env, body), r)
      decreases limit, 1, 0
    {
      ghost var current: Env, rest := env, body;
      for i := 0 to |body|
        invariant Valid() && Sees(current) && old(graph) <= graph
        invariant current.Keys <= keys && rest == body[i..]
        invariant Exec(context, limit, env, body) == Exec(context, limit, current, rest)
      {
        assert rest != [] && rest[0] == body[i];
        SafeBelow(context, keys, current.Keys, limit, limit);
        var _ :- CompileNode(limit, body[i], current);
        ExecNodeKeys(context, limit, current, body[i], keys);
        current, rest := ExecNode(context, limit, current, rest[0]).value, rest[1..];
      }
      r := Ok(());
    }

    /** Compiles one node and points its name at the result. */
    method CompileNode(ghost limit: FunctionId, node: Node, ghost env: Env) returns (r: Result<(), TypeError>)
      requires Valid() && Sees(env) && Safe(context, env.Keys, limit)
      requires ExecNode(context, limit, env, node) != Err(Undefined)
      modifies this
      ensures Valid() && old(graph) <= graph
      ensures Follows(ExecNode(context, limit, env, node), r)
      decreases limit, 0, 0
    {
      hide Safe, Call, Exec, G.Unfold;
      ExecNodeSteps(context, limit, env, node);
      var arguments := GetSymbols(node.arguments, env);
      var phantoms := GetSymbols(node.phantoms, env);
      ghost var args := ReadAll(env, node.arguments).value;
      ghost var waits := ReadAll(env, node.phantoms).value;
      SafeBelow(context, env.Keys, env.Keys, limit, node.function_ + 1);
      var value :- CompileCall(node.function_, arguments, phantoms, env, args, waits);
      symbolMapping := symbolMapping[node.name := value];
      r := Ok(());
    }

    /** Compiles a call of either kind of function. */
    method CompileCall(f: FunctionId, arguments: seq<SymbolValue>, phantoms: seq<SymbolValue>, ghost env: Env,
                       ghost args: seq<Val>, ghost waits: seq<Val>)
      returns (r: Result<SymbolValue, TypeError>)
      requires Valid() && Sees(env) && f < |context.functions| && Safe(context, env.Keys, f + 1)
      requires Denote(context.nodes, graph, arguments, args) && Denote(context.nodes, graph, phantoms, waits)
      requires Call(context, env, f, args, Terms(waits)) != Err(Undefined)
      modifies this
      ensures Valid() && old(graph) <= graph
      ensures match Call(context, env, f, args, Terms(waits))
              case Ok(v) => r.Ok? && Sees(env) && Denotes(context.nodes, graph, r.value, v)
              case Err(Type(t)) => r == Err(t)
              case Err(Undefined) => false
      decreases f, 4, 0
    {
      match context.functions[f] {
        case Builtin(kind) =>
          r := CompileBuiltin(kind, arguments, phantoms, args, waits);
          AgreesStable(context.nodes, old(graph), graph, symbolMapping, env);
        case Custom(_, _, _, _) =>
          r := CompileCustom(f, arguments, phantoms, env, args, waits);
      }
    }
  }

  function NodesOf(values: seq<SymbolValue>): (r: seq<G.InstanceId>)
    ensures |r| == |values| && forall i :: 0 <= i < |values| ==> r[i] == values[i].node
  {
    seq(|values|, i requires 0 <= i < |values| => values[i].node)
  }

  /** A node pushed over denoting inputs unfolds to the implementation applied to their terms. */
  lemma UnfoldsTo(impls: seq<NodeImpl>, g: G.Graph, h: G.Graph, id: G.InstanceId, inputs: seq<SymbolValue>,
                  phantoms: seq<SymbolValue>, args: seq<Val>, waits: seq<Val>)
    requires G.Ordered(impls, g) && G.Ordered(impls, h) && g <= h && id < |h|
    requires Denote(impls, g, inputs, args) && Denote(impls, g, phantoms, waits)
    requires h[id].inputs == NodesOf(inputs) && h[id].phantoms == NodesOf(phantoms)
    ensures h[id].kind < |impls|
    ensures G.Unfold(impls, h, id) == Term(impls[h[id].kind], Terms(args), Terms(waits))
  {
    assert G.NodeBelow(impls, h[id], id);
    DenoteStable(impls, g, h, inputs, args);
    DenoteStable(impls, g, h, phantoms, waits);
    forall i | 0 <= i < |inputs| ensures G.Unfold(impls, h, id).inputs[i] == args[i].term {
      assert Denotes(impls, h, inputs[i], args[i]);
    }
    forall i | 0 <= i < |phantoms| ensures G.Unfold(impls, h, id).phantoms[i] == waits[i].term {
      assert Denotes(impls, h, phantoms[i], waits[i]);
    }
    assert G.Unfold(impls, h, id).inputs == Terms(args);
    assert G.Unfold(impls, h, id).phantoms == Terms(waits);
  }

  /** The term of the start node of a topologically ordered graph without duplicates. */
  ghost function Denotation(out: Compiled, nodes: seq<NodeImpl>): Option<Term> {
    if out.nodes == nodes && G.Ordered(out.nodes, out.graph) && G.Distinct(out.graph) && out.start < |out.graph|
    then Some(G.Unfold(out.nodes, out.graph, out.start))
    else None
  }

  /** Compiles a resolved program. The graph's start node unfolds to the program's meaning, the
      reported error is the meaning's error, and equal terms share one node. */
  method Compile(p: Pipeline) returns (r: Result<Compiled, TypeError>)
    requires WellFormed(p)
    ensures Meaning(p).Ok? ==> r.Ok? && Denotation(r.value, p.context.nodes) == Some(Meaning(p).value.term)
    ensures Meaning(p).Err? ==> r == Err(Meaning(p).error.error)
  {
    var compiler := new Compiler(p.context);
    NamesWithin(p.topLevel);
    var _ :- compiler.CompileBody(|p.context.functions|, p.topLevel, map[], Names(p.topLevel));
    var start := compiler.symbolMapping[p.start].node;
    r := Ok(Compiled(p.context.nodes, compiler.graph, start));
  }
}
