/** Static types are runtime types: a program that compiles never fails with an internal type error,
    and every node's value has the static type that the compiler recorded for it. */
module TypeSoundness {
  import opened Wrappers
  import opened DataModel
  import opened EngineData
  import Ir

  /** The static type of a term, when every node in it type-checks. */
  function TypeOf(t: Term): Option<DataType>
    decreases t, 1
  {
    match (TypesOf(t.phantoms), TypesOf(t.inputs))
    case (Some(_), Some(types)) =>
      (match ReturnType(t.impl, types)
       case Ok(type_) => Some(type_)
       case Err(_) => None)
    case _ => None
  }

  function TypesOf(ts: seq<Term>): (r: Option<seq<DataType>>)
    ensures r.Some? <==> forall i :: 0 <= i < |ts| ==> TypeOf(ts[i]).Some?
    ensures r.Some? ==> |r.value| == |ts| && forall i :: 0 <= i < |ts| ==> TypeOf(ts[i]) == Some(r.value[i])
    decreases ts, 0
  {
    if ts == [] then Some([])
    else
      match (TypeOf(ts[0]), TypesOf(ts[1..]))
      case (Some(type_), Some(rest)) => Some([type_] + rest)
      case _ => None
  }

  /** A wrapped function returns what its signature says, and one whose static type is that of its
      first argument keeps the variant. */
  lemma InvokeSound(world: World, f: Wrapped, inputs: seq<Data>)
    requires |inputs| == |f.Params()| && AllAccepted(f.Params(), inputs) && Invoke(world, f, inputs).Ok?
    ensures if f.Passthrough() then |inputs| > 0 && Invoke(world, f, inputs).value.Type() == inputs[0].Type()
            else Invoke(world, f, inputs).value.Type() == f.Result().Kind()
  {
    hide Before, SetEntry, GetEntry, SetService;
  }

  lemma {:induction false} JoinSound(inputs: seq<Data>)
    requires forall i :: 0 <= i < |inputs| ==> inputs[i].Type() == String
    ensures JoinAll(inputs).Ok?
    decreases |inputs|
  {
    if inputs != [] {
      assert inputs[0].Type() == String;
      JoinSound(inputs[1..]);
    }
  }

  /** One node on inputs of its argument types: no internal error, and a result of its return type. */
  lemma ExecuteSound(world: World, impl: NodeImpl, inputs: seq<Data>, types: seq<DataType>)
    requires |inputs| == |types| && forall i :: 0 <= i < |inputs| ==> inputs[i].Type() == types[i]
    requires ReturnType(impl, types).Ok?
    ensures Execute(world, impl, inputs).Err? ==> Execute(world, impl, inputs).error.NodeFailed?
    ensures Execute(world, impl, inputs).Ok? ==>
              Execute(world, impl, inputs).value.Type() == ReturnType(impl, types).value
  {
    hide Invoke;
    match impl
    case Noop =>
    case All =>
    case LiteralNode(_) =>
    case Join => JoinSound(inputs);
    case Wrap(f) =>
      assert inputs[..|f.Params()|] == inputs;
      assert AllAccepted(f.Params(), inputs);
      if Invoke(world, f, inputs).Ok? { InvokeSound(world, f, inputs); }
  }

  /** Every value a well-typed term computes has the term's static type. */
  lemma {:induction false} EvalSound(world: World, t: Term)
    requires TypeOf(t).Some?
    ensures Eval(world, t).Some? ==> Eval(world, t).value.Type() == TypeOf(t).value
    decreases t
  {
    if Eval(world, t).Some? {
      var inputs := EvalAll(world, t.inputs).value;
      var types := TypesOf(t.inputs).value;
      forall i | 0 <= i < |inputs| ensures inputs[i].Type() == types[i] {
        EvalSound(world, t.inputs[i]);
      }
      ExecuteSound(world, t.impl, inputs, types);
    }
  }

  /** The values of the inputs of a well-typed node never make it fail internally. */
  lemma NodeSound(world: World, t: Term, inputs: seq<Data>)
    requires TypeOf(t).Some? && EvalAll(world, t.inputs) == Some(inputs)
    ensures Execute(world, t.impl, inputs).Err? ==> Execute(world, t.impl, inputs).error.NodeFailed?
  {
    var types := TypesOf(t.inputs).value;
    forall i | 0 <= i < |inputs| ensures inputs[i].Type() == types[i] {
      EvalSound(world, t.inputs[i]);
    }
    ExecuteSound(world, t.impl, inputs, types);
  }

  /** A value whose recorded type is the type of its term. */
  ghost predicate Typed(v: Val) {
    TypeOf(v.term) == Some(v.type_)
  }

  ghost predicate AllTyped(env: Ir.Env) {
    forall s :: s in env ==> Typed(env[s])
  }

  lemma TypesOfTerms(vs: seq<Val>)
    requires forall i :: 0 <= i < |vs| ==> Typed(vs[i])
    ensures TypesOf(Terms(vs)) == Some(Types(vs))
  {
    forall i | 0 <= i < |vs| ensures TypeOf(Terms(vs)[i]) == Some(Types(vs)[i]) {
      assert Typed(vs[i]);
    }
    assert TypesOf(Terms(vs)).value == Types(vs);
  }

  /** The compiler's reference semantics only ever records the type of the term. */
  lemma {:induction false} CallTyped(c: Ir.Context, env: Ir.Env, f: Ir.FunctionId, args: seq<Val>, waits: seq<Val>)
    requires AllTyped(env) && Ir.Call(c, env, f, args, Terms(waits)).Ok?
    requires (forall i :: 0 <= i < |args| ==> Typed(args[i])) && (forall i :: 0 <= i < |waits| ==> Typed(waits[i]))
    ensures Typed(Ir.Call(c, env, f, args, Terms(waits)).value)
    decreases f, 2, 0
  {
    match c.functions[f]
    case Builtin(kind) =>
      TypesOfTerms(args);
      TypesOfTerms(waits);
    case Custom(required, defaults, body, result) =>
      BindRequiredTyped(env, required, args[..|required|]);
      var bound := Ir.BindRequired(env, required, args[..|required|]);
      BindDefaultsTyped(c, f, bound, defaults, args[|required|..]);
      var entered := Ir.Enter(c, env, f, args).value;
      ExecTyped(c, f, entered, body);
      AfterPhantomsTyped(Ir.Exec(c, f, entered, body).value[result], waits);
  }

  lemma AfterPhantomsTyped(v: Val, waits: seq<Val>)
    requires Typed(v) && forall i :: 0 <= i < |waits| ==> Typed(waits[i])
    ensures Typed(AfterPhantoms(v, Terms(waits)))
  {
    TypesOfTerms(waits);
    TypesOfTerms([v]);
    assert Terms([v]) == [v.term];
  }

  lemma {:induction false} BindRequiredTyped(env: Ir.Env, params: seq<Ir.Symbol>, args: seq<Val>)
    requires AllTyped(env) && |params| == |args| && forall i :: 0 <= i < |args| ==> Typed(args[i])
    ensures AllTyped(Ir.BindRequired(env, params, args))
    decreases |params|
  {
    if params != [] {
      BindRequiredTyped(env[params[0] := args[0]], params[1..], args[1..]);
    }
  }

  lemma {:induction false} BindDefaultsTyped(c: Ir.Context, f: Ir.FunctionId, env: Ir.Env,
                                             defaults: seq<Ir.DefaultParam>, args: seq<Val>)
    requires AllTyped(env) && Ir.BindDefaults(c, f, env, defaults, args).Ok?
    requires forall i :: 0 <= i < |args| ==> Typed(args[i])
    ensures AllTyped(Ir.BindDefaults(c, f, env, defaults, args).value)
    decreases f, 1, |defaults|
  {
    if defaults != [] {
      if args != [] {
        BindDefaultsTyped(c, f, env[defaults[0].param := args[0]], defaults[1..], args[1..]);
      } else {
        ExecTyped(c, f, env, defaults[0].body);
        var e := Ir.Exec(c, f, env, defaults[0].body).value;
        BindDefaultsTyped(c, f, e[defaults[0].param := e[defaults[0].value]], defaults[1..], []);
      }
    }
  }

  lemma {:induction false} ExecTyped(c: Ir.Context, limit: Ir.FunctionId, env: Ir.Env, body: Ir.Body)
    requires AllTyped(env) && Ir.Exec(c, limit, env, body).Ok?
    ensures AllTyped(Ir.Exec(c, limit, env, body).value)
    decreases limit, 0, |body|
  {
    if body != [] {
      var node := body[0];
      Ir.ExecNodeSteps(c, limit, env, node);
      var args, waits := Ir.ReadAll(env, node.arguments).value, Ir.ReadAll(env, node.phantoms).value;
      CallTyped(c, env, node.function_, args, waits);
      ExecTyped(c, limit, Ir.ExecNode(c, limit, env, node).value, body[1..]);
    }
  }

  /** The start node of a program that compiles is well typed, and so is every node below it. */
  lemma ProgramTyped(p: Ir.Pipeline)
    requires Ir.Meaning(p).Ok?
    ensures TypeOf(Ir.Meaning(p).value.term) == Some(Ir.Meaning(p).value.type_)
  {
    ExecTyped(p.context, |p.context.functions|, map[], p.topLevel);
  }
}
