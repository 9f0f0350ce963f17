/** The resolver's output language over global symbols, and its reference meaning: every call runs
    in an activation that sees its caller's bindings and whose own bindings vanish on return. */
module Ir {
  import opened Wrappers
  import opened DataModel

  datatype Symbol = Symbol(id: nat)
  type FunctionId = nat
  type KindId = nat

  datatype Node = Node(name: Symbol, function_: FunctionId, arguments: seq<Symbol>, phantoms: seq<Symbol>)

  type Body = seq<Node>

  /** A parameter with a default: when no argument is given, run `body` and copy `value`. */
  datatype DefaultParam = DefaultParam(param: Symbol, value: Symbol, body: Body)

  datatype Function =
    | Builtin(kind: KindId)
    | Custom(required: seq<Symbol>, defaults: seq<DefaultParam>, body: Body, result: Symbol)

  /** The parts of a resolved program that stay fixed while it is compiled. */
  datatype Context = Context(functions: seq<Function>, nodes: seq<NodeImpl>, noop: KindId)

  datatype Pipeline = Pipeline(topLevel: Body, context: Context, start: Symbol)

  type Env = map<Symbol, Val>

  /** `Undefined` is the case in which the compiler would panic or recurse forever: a symbol read
      before it is bound, or a call of a function not defined before its caller. */
  datatype Fault = Undefined | Type(error: TypeError)

  function ReadAll(env: Env, symbols: seq<Symbol>): (r: Result<seq<Val>, Fault>)
    ensures r.Ok? ==> |r.value| == |symbols|
                      && forall i :: 0 <= i < |symbols| ==> symbols[i] in env && r.value[i] == env[symbols[i]]
    ensures r.Err? ==> r.error == Undefined && exists i :: 0 <= i < |symbols| && symbols[i] !in env
  {
    if symbols == [] then Ok([])
    else if symbols[0] !in env then Err(Undefined)
    else
      var rest :- ReadAll(env, symbols[1..]);
      Ok([env[symbols[0]]] + rest)
  }

  /** Calls function `f` from an activation with bindings `env`. */
  function Call(c: Context, env: Env, f: FunctionId, args: seq<Val>, phantoms: seq<Term>): Result<Val, Fault>
    decreases f, 2, 0
  {
    if f >= |c.functions| then Err(Undefined)
    else match c.functions[f]
      case Builtin(kind) =>
        if kind >= |c.nodes| then Err(Undefined)
        else (match ApplyBuiltin(c.nodes[kind], args, phantoms)
              case Ok(v) => Ok(v)
              case Err(e) => Err(Type(e)))
      case Custom(_, _, body, result) =>
        var entered :- Enter(c, env, f, args);
        var left :- Exec(c, f, entered, body);
        if result !in left then Err(Undefined) else Ok(AfterPhantoms(left[result], phantoms))
  }

  /** The bindings with which the body of custom function `f` starts. */
  function Enter(c: Context, env: Env, f: FunctionId, args: seq<Val>): Result<Env, Fault>
    requires f < |c.functions| && c.functions[f].Custom?
    decreases f, 1, |c.functions[f].defaults| + 1
  {
    var required, defaults := c.functions[f].required, c.functions[f].defaults;
    if !(|required| <= |args| <= |required| + |defaults|) then
      Err(Type(ArgumentCountMismatch(CustomArity(|required|, |defaults|), |args|)))
    else
      BindDefaults(c, f, BindRequired(env, required, args[..|required|]), defaults, args[|required|..])
  }

  function CustomArity(required: nat, defaults: nat): Arity {
    if defaults == 0 then Exactly(required) else Between(required, required + defaults)
  }

  function BindRequired(env: Env, params: seq<Symbol>, args: seq<Val>): Env
    requires |params| == |args|
    decreases |params|
  {
    if params == [] then env else BindRequired(env[params[0] := args[0]], params[1..], args[1..])
  }

  /** Binds the defaulted parameters of function `f` left to right. */
  function BindDefaults(c: Context, f: FunctionId, env: Env, defaults: seq<DefaultParam>, args: seq<Val>)
    : Result<Env, Fault>
    decreases f, 1, |defaults|
  {
    if defaults == [] then Ok(env)
    else if args != [] then BindDefaults(c, f, env[defaults[0].param := args[0]], defaults[1..], args[1..])
    else
      var e :- Exec(c, f, env, defaults[0].body);
      if defaults[0].value !in e then Err(Undefined)
      else BindDefaults(c, f, e[defaults[0].param := e[defaults[0].value]], defaults[1..], [])
  }

  /** Runs a body whose calls may only reach functions below `limit`. */
  function Exec(c: Context, limit: FunctionId, env: Env, body: Body): Result<Env, Fault>
    decreases limit, 0, |body|
  {
    if body == [] then Ok(env)
    else
      var e :- ExecNode(c, limit, env, body[0]);
      Exec(c, limit, e, body[1..])
  }

  function ExecNode(c: Context, limit: FunctionId, env: Env, node: Node): Result<Env, Fault>
    decreases limit, 0, 0
  {
    if node.function_ >= limit then Err(Undefined)
    else
      var args :- ReadAll(env, node.arguments);
      var phantoms :- ReadAll(env, node.phantoms);
      var v :- Call(c, env, node.function_, args, Terms(phantoms));
      Ok(env[node.name := v])
  }

  /** Binds the value of a call that succeeded. */
  function Bind(env: Env, name: Symbol, r: Result<Val, Fault>): Result<Env, Fault> {
    match r
    case Ok(v) => Ok(env[name := v])
    case Err(x) => Err(x)
  }

  /** Runs `body` after a step that may have failed. */
  function Resume(c: Context, limit: FunctionId, r: Result<Env, Fault>, body: Body): Result<Env, Fault> {
    match r
    case Ok(e) => Exec(c, limit, e, body)
    case Err(x) => Err(x)
  }

  /** The meaning of a whole program. */
  function Meaning(p: Pipeline): Result<Val, Fault> {
    var e :- Exec(p.context, |p.context.functions|, map[], p.topLevel);
    if p.start !in e then Err(Undefined) else Ok(e[p.start])
  }

  /** The symbols a body binds itself. */
  function Names(body: Body): set<Symbol> {
    if body == [] then {} else {body[0].name} + Names(body[1..])
  }

  /** The symbols bound while defaulted parameters are set. */
  function DefaultNames(defaults: seq<DefaultParam>): set<Symbol> {
    if defaults == [] then {}
    else {defaults[0].param} + Names(defaults[0].body) + DefaultNames(defaults[1..])
  }

  function ParamNames(params: seq<Symbol>): set<Symbol> {
    if params == [] then {} else {params[0]} + ParamNames(params[1..])
  }

  /** The symbols that an activation of `f` binds itself. */
  function Definitions(f: Function): set<Symbol> {
    match f
    case Builtin(_) => {}
    case Custom(required, defaults, body, _) => ParamNames(required) + DefaultNames(defaults) + Names(body)
  }

  /** Every symbol a body binds lies in `keys`. */
  ghost predicate Within(body: Body, keys: set<Symbol>) {
    forall i :: 0 <= i < |body| ==> body[i].name in keys
  }

  ghost predicate DefaultsWithin(defaults: seq<DefaultParam>, keys: set<Symbol>) {
    forall i :: 0 <= i < |defaults| ==> defaults[i].param in keys && Within(defaults[i].body, keys)
  }

  lemma {:induction false} NamesWithin(body: Body)
    ensures Within(body, Names(body))
    decreases |body|
  {
    if body != [] {
      NamesWithin(body[1..]);
      forall i | 0 <= i < |body| ensures body[i].name in Names(body) {
        if i > 0 { assert body[1..][i - 1].name in Names(body[1..]); }
      }
    }
  }

  lemma {:induction false} DefaultNamesWithin(defaults: seq<DefaultParam>)
    ensures DefaultsWithin(defaults, DefaultNames(defaults))
    decreases |defaults|
  {
    if defaults != [] {
      NamesWithin(defaults[0].body);
      var tail := defaults[1..];
      DefaultNamesWithin(tail);
      forall i | 0 <= i < |defaults|
        ensures defaults[i].param in DefaultNames(defaults) && Within(defaults[i].body, DefaultNames(defaults))
      {
        if i > 0 {
          assert tail[i - 1].param in DefaultNames(tail) && Within(tail[i - 1].body, DefaultNames(tail));
        }
      }
    }
  }

  /** Everything custom function `f` binds lies in any set that contains its definitions. */
  lemma DefinitionsWithin(f: Function, keys: set<Symbol>)
    requires f.Custom? && Definitions(f) <= keys
    ensures DefaultsWithin(f.defaults, keys) && Within(f.body, keys)
  {
    NamesWithin(f.body);
    DefaultNamesWithin(f.defaults);
  }

  /** An activation that can see `keys` may call any function below `limit`: neither it nor
      anything it calls binds a symbol that the activation can still read. */
  ghost predicate Safe(c: Context, keys: set<Symbol>, limit: FunctionId) {
    && limit <= |c.functions|
    && (limit == 0 || (Definitions(c.functions[limit - 1]) !! keys && Safe(c, keys, limit - 1)))
  }

  /** No symbol is bound by two of the first `n` functions. */
  ghost predicate OneSite(c: Context, n: FunctionId) {
    && n <= |c.functions|
    && (n == 0 || (Safe(c, Definitions(c.functions[n - 1]), n - 1) && OneSite(c, n - 1)))
  }

  /** What the compiler takes for granted about the resolver's output: one definition site for
      every symbol, and no use of a symbol or function before its definition. */
  ghost predicate WellFormed(p: Pipeline) {
    && OneSite(p.context, |p.context.functions|)
    && Safe(p.context, Names(p.topLevel), |p.context.functions|)
    && p.context.noop < |p.context.nodes| && p.context.nodes[p.context.noop] == Noop
    && Meaning(p) != Err(Undefined)
  }

  lemma {:induction false} SafeBelow(c: Context, keys: set<Symbol>, fewer: set<Symbol>, limit: FunctionId,
                                     lower: FunctionId)
    requires Safe(c, keys, limit) && fewer <= keys && lower <= limit
    ensures Safe(c, fewer, lower)
    decreases limit
  {
    if lower < limit {
      SafeBelow(c, keys, fewer, limit - 1, lower);
    } else if limit > 0 {
      SafeBelow(c, keys, fewer, limit - 1, limit - 1);
    }
  }

  lemma {:induction false} SafeUnion(c: Context, a: set<Symbol>, b: set<Symbol>, limit: FunctionId)
    requires Safe(c, a, limit) && Safe(c, b, limit)
    ensures Safe(c, a + b, limit)
    decreases limit
  {
    if limit > 0 { SafeUnion(c, a, b, limit - 1); }
  }

  lemma {:induction false} OneSiteSafe(c: Context, n: FunctionId, f: FunctionId)
    requires OneSite(c, n) && f < n
    ensures Safe(c, Definitions(c.functions[f]), f)
    decreases n
  {
    if f < n - 1 { OneSiteSafe(c, n - 1, f); }
  }

  /** Entering `f` keeps everything that `f` may call apart from the grown activation. */
  lemma EnteringIsSafe(c: Context, keys: set<Symbol>, f: FunctionId)
    requires OneSite(c, |c.functions|) && Safe(c, keys, f + 1)
    ensures Safe(c, keys + Definitions(c.functions[f]), f)
    ensures Definitions(c.functions[f]) !! keys
  {
    OneSiteSafe(c, |c.functions|, f);
    SafeUnion(c, keys, Definitions(c.functions[f]), f);
  }

  /** `e` extends `env` by bindings of symbols in `names` only. */
  ghost predicate Extends(env: Env, e: Env, names: set<Symbol>) {
    && env.Keys <= e.Keys <= env.Keys + names
    && forall s :: s in env && s !in names ==> e[s] == env[s]
  }

  lemma ExecNodeKeys(c: Context, limit: FunctionId, env: Env, node: Node, keys: set<Symbol>)
    requires ExecNode(c, limit, env, node).Ok? && env.Keys <= keys && node.name in keys
    ensures ExecNode(c, limit, env, node).value.Keys <= keys
  {
  }

  lemma {:induction false} ExecWithin(c: Context, limit: FunctionId, env: Env, body: Body, keys: set<Symbol>)
    requires Exec(c, limit, env, body).Ok? && env.Keys <= keys && Within(body, keys)
    ensures Exec(c, limit, env, body).value.Keys <= keys
    decreases |body|
  {
    if body != [] {
      ExecNodeKeys(c, limit, env, body[0], keys);
      ExecWithin(c, limit, ExecNode(c, limit, env, body[0]).value, body[1..], keys);
    }
  }

  /** Running one node is reading its inputs, calling its function and binding its name. */
  lemma ExecNodeSteps(c: Context, limit: FunctionId, env: Env, node: Node)
    requires ExecNode(c, limit, env, node) != Err(Undefined)
    ensures node.function_ < limit
    ensures ReadAll(env, node.arguments).Ok? && ReadAll(env, node.phantoms).Ok?
    ensures var call := Call(c, env, node.function_, ReadAll(env, node.arguments).value,
                             Terms(ReadAll(env, node.phantoms).value));
            ExecNode(c, limit, env, node) == Bind(env, node.name, call)
  {
  }

  lemma {:induction false} ExecExtends(c: Context, limit: FunctionId, env: Env, body: Body)
    requires Exec(c, limit, env, body).Ok?
    ensures Extends(env, Exec(c, limit, env, body).value, Names(body))
    decreases |body|
  {
    if body != [] {
      ExecExtends(c, limit, ExecNode(c, limit, env, body[0]).value, body[1..]);
    }
  }

  lemma {:induction false} BindRequiredExtends(env: Env, params: seq<Symbol>, args: seq<Val>)
    requires |params| == |args|
    ensures Extends(env, BindRequired(env, params, args), ParamNames(params))
    decreases |params|
  {
    if params != [] {
      BindRequiredExtends(env[params[0] := args[0]], params[1..], args[1..]);
    }
  }

  lemma {:induction false} BindDefaultsExtends(c: Context, f: FunctionId, env: Env, defaults: seq<DefaultParam>,
                                               args: seq<Val>)
    requires BindDefaults(c, f, env, defaults, args).Ok?
    ensures Extends(env, BindDefaults(c, f, env, defaults, args).value, DefaultNames(defaults))
    decreases |defaults|
  {
    if defaults != [] {
      if args != [] {
        BindDefaultsExtends(c, f, env[defaults[0].param := args[0]], defaults[1..], args[1..]);
      } else {
        ExecExtends(c, f, env, defaults[0].body);
        var e := Exec(c, f, env, defaults[0].body).value;
        BindDefaultsExtends(c, f, e[defaults[0].param := e[defaults[0].value]], defaults[1..], []);
      }
    }
  }

  lemma EnterExtends(c: Context, env: Env, f: FunctionId, args: seq<Val>)
    requires f < |c.functions| && c.functions[f].Custom? && Enter(c, env, f, args).Ok?
    ensures Extends(env, Enter(c, env, f, args).value, Definitions(c.functions[f]))
  {
    var required, defaults := c.functions[f].required, c.functions[f].defaults;
    BindRequiredExtends(env, required, args[..|required|]);
    BindDefaultsExtends(c, f, BindRequired(env, required, args[..|required|]), defaults, args[|required|..]);
  }

  /** Setting the required parameters stays within a set that contains the definitions of `f`. */
  lemma EnterSteps(c: Context, env: Env, f: FunctionId, args: seq<Val>, keys: set<Symbol>)
    requires f < |c.functions| && c.functions[f].Custom?
    requires |c.functions[f].required| <= |args| <= |c.functions[f].required| + |c.functions[f].defaults|
    requires env.Keys + Definitions(c.functions[f]) <= keys
    ensures BindRequired(env, c.functions[f].required, args[..|c.functions[f].required|]).Keys <= keys
    ensures DefaultsWithin(c.functions[f].defaults, keys)
  {
    BindRequiredExtends(env, c.functions[f].required, args[..|c.functions[f].required|]);
    DefinitionsWithin(c.functions[f], keys);
  }

  lemma {:induction false} ExecAppend(c: Context, limit: FunctionId, env: Env, a: Body, b: Body)
    ensures Exec(c, limit, env, a + b)
         == Resume(c, limit, Exec(c, limit, env, a), b)
    decreases |a|
  {
    if a == [] {
      assert a + b == b;
    } else {
      assert (a + b)[0] == a[0] && (a + b)[1..] == a[1..] + b;
      if ExecNode(c, limit, env, a[0]).Ok? {
        ExecAppend(c, limit, ExecNode(c, limit, env, a[0]).value, a[1..], b);
      }
    }
  }

  lemma ExecOne(c: Context, limit: FunctionId, env: Env, node: Node)
    ensures Exec(c, limit, env, [node]) == ExecNode(c, limit, env, node)
  {
    if ExecNode(c, limit, env, node).Ok? {
      assert Exec(c, limit, ExecNode(c, limit, env, node).value, []) == ExecNode(c, limit, env, node);
    }
  }

  /** Nodes appended after a failing prefix do not matter. */
  lemma ExecPrefixFails(c: Context, limit: FunctionId, env: Env, a: Body, b: Body)
    requires a <= b && Exec(c, limit, env, a).Err?
    ensures Exec(c, limit, env, b) == Exec(c, limit, env, a)
  {
    assert b == a + b[|a|..];
    ExecAppend(c, limit, env, a, b[|a|..]);
  }
}
