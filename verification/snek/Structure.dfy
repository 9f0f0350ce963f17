/** What the resolver guarantees about the text of its output, whether or not it is ever run: every
    symbol has one definition site, calls go to earlier functions, and every use follows its
    definition in the same body, an enclosing one or the top level. */
module Structure {
  import opened Wrappers
  import opened DataModel
  import opened Ir

  /** What can be seen where a function is defined: a prefix of the top level, and the symbols of the
      bodies around the definition. */
  datatype Surroundings = Surroundings(top: nat, locals: set<Symbol>)

  type Lexical = map<FunctionId, Surroundings>

  function NameSet(body: Body): set<Symbol> {
    set n | n in body :: n.name
  }

  function RequiredSet(f: Function): set<Symbol>
    requires f.Custom?
  {
    set s | s in f.required
  }

  function DefaultSet(defaults: seq<DefaultParam>): set<Symbol> {
    set d | d in defaults :: d.param
  }

  /** The symbols that a function takes from its surroundings. */
  function Outside(topLevel: Body, s: Surroundings): set<Symbol>
    requires s.top <= |topLevel|
  {
    NameSet(topLevel[..s.top]) + s.locals
  }

  /** The functions and the top level that bodies refer to. */
  datatype Unit = Unit(functions: seq<Function>, topLevel: Body, lexical: Lexical)

  /** Where the function was defined is known, and all it takes from there can be seen. */
  predicate Callable(u: Unit, f: FunctionId, seen: set<Symbol>) {
    && f < |u.functions|
    && (u.functions[f].Custom? ==>
          f in u.lexical && u.lexical[f].top <= |u.topLevel| && Outside(u.topLevel, u.lexical[f]) <= seen)
  }

  /** The node only reads what can be seen and calls a function below `limit`. */
  predicate NodeClosed(u: Unit, node: Node, seen: set<Symbol>, limit: FunctionId) {
    && node.function_ < limit && Callable(u, node.function_, seen)
    && (forall i :: 0 <= i < |node.arguments| ==> node.arguments[i] in seen)
    && (forall i :: 0 <= i < |node.phantoms| ==> node.phantoms[i] in seen)
  }

  /** Each node of the body sees what was seen before the body and the names before it. */
  predicate BodyClosed(u: Unit, body: Body, seen: set<Symbol>, limit: FunctionId) {
    forall i :: 0 <= i < |body| ==> NodeClosed(u, body[i], seen + NameSet(body[..i]), limit)
  }

  /** Each default sees the parameters before it. */
  predicate DefaultClosed(u: Unit, defaults: seq<DefaultParam>, k: nat, seen: set<Symbol>, limit: FunctionId)
    requires k < |defaults|
  {
    && BodyClosed(u, defaults[k].body, seen + DefaultSet(defaults[..k]), limit)
    && defaults[k].value in seen + DefaultSet(defaults[..k]) + NameSet(defaults[k].body)
  }

  /** What a function sees once its required parameters are bound. */
  function Entered(u: Unit, f: FunctionId): set<Symbol>
    requires f < |u.functions| && u.functions[f].Custom? && f in u.lexical && u.lexical[f].top <= |u.topLevel|
  {
    Outside(u.topLevel, u.lexical[f]) + RequiredSet(u.functions[f])
  }

  /** What the body of a function sees before its first node. */
  function Inside(u: Unit, f: FunctionId): set<Symbol>
    requires f < |u.functions| && u.functions[f].Custom? && f in u.lexical && u.lexical[f].top <= |u.topLevel|
  {
    Entered(u, f) + DefaultSet(u.functions[f].defaults)
  }

  predicate FunctionClosed(u: Unit, kinds: nat, f: FunctionId)
    requires f < |u.functions|
  {
    match u.functions[f]
    case Builtin(kind) => kind < kinds
    case Custom(required, defaults, body, result) =>
      && f in u.lexical && u.lexical[f].top <= |u.topLevel|
      && (forall k :: 0 <= k < |defaults| ==> DefaultClosed(u, defaults, k, Entered(u, f), f))
      && BodyClosed(u, body, Inside(u, f), f) && result in Inside(u, f) + NameSet(body)
  }

  /** The function is defined at the top level of a file, or in the body of a later function. */
  ghost predicate Placed(u: Unit, f: FunctionId)
    requires f in u.lexical
  {
    u.lexical[f].locals == {} || exists g, pos :: f < g && DefinedIn(u, f, g, pos)
  }

  /** The function is defined in the body of `g` before its node `pos`. */
  ghost predicate DefinedIn(u: Unit, f: FunctionId, g: FunctionId, pos: nat)
    requires f in u.lexical
  {
    && g < |u.functions| && u.functions[g].Custom? && g in u.lexical && pos <= |u.functions[g].body|
    && u.lexical[f].locals == Frame(u.lexical[g].locals, u.functions[g], pos)
  }

  /** The symbols that a body has bound before its node `pos`, and those of the bodies around it. */
  function Frame(locals: set<Symbol>, f: Function, pos: nat): set<Symbol>
    requires f.Custom? && pos <= |f.body|
  {
    locals + RequiredSet(f) + DefaultSet(f.defaults) + NameSet(f.body[..pos])
  }

  ghost predicate Closed(u: Unit, kinds: nat) {
    && (forall f :: 0 <= f < |u.functions| ==> FunctionClosed(u, kinds, f))
    && (forall f :: 0 <= f < |u.functions| && u.functions[f].Custom? ==> f in u.lexical && Placed(u, f))
    && BodyClosed(u, u.topLevel, {}, |u.functions|)
  }

  function BodySymbols(body: Body): (r: seq<Symbol>)
    ensures |r| == |body| && forall i :: 0 <= i < |r| ==> r[i] == body[i].name
  {
    seq(|body|, i requires 0 <= i < |body| => body[i].name)
  }

  function DefaultSymbols(defaults: seq<DefaultParam>): seq<Symbol> {
    if defaults == [] then []
    else BodySymbols(defaults[0].body) + [defaults[0].param] + DefaultSymbols(defaults[1..])
  }

  /** Every symbol that a function binds, once for each time that it is bound. */
  function FunctionSymbols(f: Function): seq<Symbol> {
    match f
    case Builtin(_) => []
    case Custom(required, defaults, body, _) => required + DefaultSymbols(defaults) + BodySymbols(body)
  }

  function AllSymbols(fs: seq<Function>): seq<Symbol> {
    if fs == [] then [] else AllSymbols(fs[..|fs| - 1]) + FunctionSymbols(fs[|fs| - 1])
  }

  ghost predicate PairwiseDifferent(s: seq<Symbol>) {
    forall i, j :: 0 <= i < j < |s| ==> s[i] != s[j]
  }

  /** The structure of a compilable program. */
  ghost predicate Compilable(p: Pipeline) {
    && PairwiseDifferent(BodySymbols(p.topLevel) + AllSymbols(p.context.functions))
    && (exists lexical :: Closed(Unit(p.context.functions, p.topLevel, lexical), |p.context.nodes|))
    && p.start in NameSet(p.topLevel)
    && p.context.noop < |p.context.nodes| && p.context.nodes[p.context.noop] == Noop
  }

  lemma NamesSplit(a: Body, b: Body)
    ensures NameSet(a + b) == NameSet(a) + NameSet(b)
  {
    forall s | s in NameSet(a) + NameSet(b) ensures s in NameSet(a + b) {
      var n :| (n in a || n in b) && n.name == s;
      assert n in a + b;
    }
  }

  lemma NextName(body: Body, i: nat)
    requires i < |body|
    ensures NameSet(body[..i + 1]) == NameSet(body[..i]) + {body[i].name}
  {
    assert body[..i + 1] == body[..i] + [body[i]];
    NamesSplit(body[..i], [body[i]]);
  }

  /** Reading symbols that are bound succeeds. */
  lemma ReadsSeen(env: Env, symbols: seq<Symbol>, seen: set<Symbol>)
    requires seen <= env.Keys && forall i :: 0 <= i < |symbols| ==> symbols[i] in seen
    ensures ReadAll(env, symbols).Ok?
  {
  }

  /** The functions below `limit` are closed. */
  ghost predicate ClosedBelow(u: Unit, c: Context, limit: FunctionId) {
    && u.functions == c.functions && limit <= |c.functions|
    && forall f :: 0 <= f < limit ==> FunctionClosed(u, |c.nodes|, f)
  }

  /** A closed body runs into no unbound symbol and no missing function, and binds its names. */
  lemma {:induction false} ExecDefined(u: Unit, c: Context, limit: FunctionId, env: Env, body: Body, from: nat,
                                       seen: set<Symbol>)
    requires ClosedBelow(u, c, limit) && BodyClosed(u, body, seen, limit)
    requires from <= |body| && seen + NameSet(body[..from]) <= env.Keys
    ensures Exec(c, limit, env, body[from..]) != Err(Undefined)
    ensures Exec(c, limit, env, body[from..]).Ok? ==>
              env.Keys <= Exec(c, limit, env, body[from..]).value.Keys &&
              seen + NameSet(body) <= Exec(c, limit, env, body[from..]).value.Keys
    decreases limit, 0, |body| - from
  {
    hide ExecNode, Call, NodeClosed, ClosedBelow, NameSet;
    if from == |body| {
      assert body[..from] == body && body[from..] == [];
    } else {
      var rest := body[from..];
      assert rest[0] == body[from] && rest[1..] == body[from + 1..];
      NodeDefined(u, c, limit, env, body[from], seen + NameSet(body[..from]));
      if ExecNode(c, limit, env, body[from]).Ok? {
        var next := ExecNode(c, limit, env, body[from]).value;
        NextName(body, from);
        ExecDefined(u, c, limit, next, body, from + 1, seen);
      }
    }
  }

  lemma {:induction false} NodeDefined(u: Unit, c: Context, limit: FunctionId, env: Env, node: Node, seen: set<Symbol>)
    requires ClosedBelow(u, c, limit) && NodeClosed(u, node, seen, limit) && seen <= env.Keys
    ensures ExecNode(c, limit, env, node) != Err(Undefined)
    ensures ExecNode(c, limit, env, node).Ok? ==> ExecNode(c, limit, env, node).value.Keys == env.Keys + {node.name}
    decreases limit, 0, 0
  {
    ReadsSeen(env, node.arguments, seen);
    ReadsSeen(env, node.phantoms, seen);
    var args, waits := ReadAll(env, node.arguments).value, ReadAll(env, node.phantoms).value;
    CallDefined(u, c, env, node.function_, args, Terms(waits), seen);
  }

  lemma {:induction false} CallDefined(u: Unit, c: Context, env: Env, f: FunctionId, args: seq<Val>, waits: seq<Term>,
                                       seen: set<Symbol>)
    requires f < |c.functions| && ClosedBelow(u, c, f + 1) && Callable(u, f, seen) && seen <= env.Keys
    ensures Call(c, env, f, args, waits) != Err(Undefined)
    decreases f, 2, 0
  {
    assert FunctionClosed(u, |c.nodes|, f);
    match c.functions[f]
    case Builtin(kind) =>
    case Custom(required, defaults, body, result) =>
      EnterDefined(u, c, env, f, args);
      var entered := Enter(c, env, f, args);
      if entered.Ok? {
        assert body[0..] == body;
        ExecDefined(u, c, f, entered.value, body, 0, Inside(u, f));
      }
  }

  lemma {:induction false} EnterDefined(u: Unit, c: Context, env: Env, f: FunctionId, args: seq<Val>)
    requires f < |c.functions| && c.functions[f].Custom? && ClosedBelow(u, c, f + 1)
    requires f in u.lexical && u.lexical[f].top <= |u.topLevel| && Outside(u.topLevel, u.lexical[f]) <= env.Keys
    ensures Enter(c, env, f, args) != Err(Undefined)
    ensures Enter(c, env, f, args).Ok? ==> Inside(u, f) <= Enter(c, env, f, args).value.Keys
    decreases f, 1, |c.functions[f].defaults| + 1
  {
    var required, defaults := c.functions[f].required, c.functions[f].defaults;
    if |required| <= |args| <= |required| + |defaults| {
      assert FunctionClosed(u, |c.nodes|, f);
      RequiredBound(env, required, args[..|required|]);
      var bound := BindRequired(env, required, args[..|required|]);
      assert defaults[0..] == defaults;
      DefaultsDefined(u, c, f, bound, defaults, 0, args[|required|..],
                      Outside(u.topLevel, u.lexical[f]) + RequiredSet(c.functions[f]));
    }
  }

  lemma {:induction false} RequiredBound(env: Env, params: seq<Symbol>, args: seq<Val>)
    requires |params| == |args|
    ensures BindRequired(env, params, args).Keys == env.Keys + set s | s in params
    decreases |params|
  {
    if params != [] {
      RequiredBound(env[params[0] := args[0]], params[1..], args[1..]);
      assert params == [params[0]] + params[1..];
    }
  }

  lemma {:induction false} DefaultsDefined(u: Unit, c: Context, f: FunctionId, env: Env, defaults: seq<DefaultParam>,
                                           k: nat, args: seq<Val>, seen: set<Symbol>)
    requires ClosedBelow(u, c, f) && k <= |defaults| && seen + DefaultSet(defaults[..k]) <= env.Keys
    requires forall i :: 0 <= i < |defaults| ==> DefaultClosed(u, defaults, i, seen, f)
    ensures BindDefaults(c, f, env, defaults[k..], args) != Err(Undefined)
    ensures BindDefaults(c, f, env, defaults[k..], args).Ok? ==>
              seen + DefaultSet(defaults) <= BindDefaults(c, f, env, defaults[k..], args).value.Keys
    decreases f, 1, |defaults| - k
  {
    if k == |defaults| {
      assert defaults[..k] == defaults;
    } else {
      var rest := defaults[k..];
      assert rest[0] == defaults[k] && rest[1..] == defaults[k + 1..];
      assert defaults[..k + 1] == defaults[..k] + [defaults[k]];
      assert DefaultSet(defaults[..k + 1]) == DefaultSet(defaults[..k]) + {defaults[k].param};
      if args != [] {
        DefaultsDefined(u, c, f, env[defaults[k].param := args[0]], defaults, k + 1, args[1..], seen);
      } else {
        var d := defaults[k];
        assert DefaultClosed(u, defaults, k, seen, f) && d.body[0..] == d.body;
        ExecDefined(u, c, f, env, d.body, 0, seen + DefaultSet(defaults[..k]));
        if Exec(c, f, env, d.body).Ok? {
          var e := Exec(c, f, env, d.body).value;
          DefaultsDefined(u, c, f, e[d.param := e[d.value]], defaults, k + 1, [], seen);
        }
      }
    }
  }

  /** A compilable program never reads an unbound symbol nor calls a missing or later function. */
  lemma CompilableIsDefined(p: Pipeline)
    requires Compilable(p)
    ensures Meaning(p) != Err(Undefined)
  {
    var lexical :| Closed(Unit(p.context.functions, p.topLevel, lexical), |p.context.nodes|);
    var u := Unit(p.context.functions, p.topLevel, lexical);
    assert p.topLevel[0..] == p.topLevel;
    ExecDefined(u, p.context, |p.context.functions|, map[], p.topLevel, 0, {});
  }

  lemma {:induction false} BodyNamesListed(body: Body)
    ensures forall s :: s in Names(body) ==> s in BodySymbols(body)
    decreases |body|
  {
    if body != [] {
      BodyNamesListed(body[1..]);
      assert BodySymbols(body) == [body[0].name] + BodySymbols(body[1..]);
    }
  }

  lemma {:induction false} DefaultNamesListed(defaults: seq<DefaultParam>)
    ensures forall s :: s in DefaultNames(defaults) ==> s in DefaultSymbols(defaults)
    decreases |defaults|
  {
    if defaults != [] {
      BodyNamesListed(defaults[0].body);
      DefaultNamesListed(defaults[1..]);
    }
  }

  lemma {:induction false} ParamNamesListed(params: seq<Symbol>)
    ensures forall s :: s in ParamNames(params) ==> s in params
    decreases |params|
  {
    if params != [] { ParamNamesListed(params[1..]); }
  }

  /** Whatever a function binds is on the list of its symbols. */
  lemma DefinitionsListed(f: Function)
    ensures forall s :: s in Definitions(f) ==> s in FunctionSymbols(f)
  {
    hide Names, DefaultNames, ParamNames, DefaultSymbols;
    if f.Custom? {
      ParamNamesListed(f.required);
      DefaultNamesListed(f.defaults);
      BodyNamesListed(f.body);
    }
  }

  /** The lists that make up a list without duplicates share no symbol. */
  lemma PartsAreDisjoint(a: seq<Symbol>, b: seq<Symbol>)
    requires PairwiseDifferent(a + b)
    ensures PairwiseDifferent(a) && PairwiseDifferent(b) && forall s :: s in a ==> s !in b
  {
    forall i, j | 0 <= i < j < |a| ensures a[i] != a[j] {
      assert (a + b)[i] != (a + b)[j];
    }
    forall i, j | 0 <= i < j < |b| ensures b[i] != b[j] {
      assert (a + b)[|a| + i] != (a + b)[|a| + j];
    }
    forall i, j | 0 <= i < |a| && 0 <= j < |b| ensures a[i] != b[j] {
      assert (a + b)[i] != (a + b)[|a| + j];
    }
  }

  lemma {:induction false} ApartIsSafe(c: Context, keys: set<Symbol>, n: FunctionId)
    requires n <= |c.functions| && forall s :: s in keys ==> s !in AllSymbols(c.functions[..n])
    ensures Safe(c, keys, n)
    decreases n
  {
    hide Definitions;
    if n > 0 {
      assert c.functions[..n][..n - 1] == c.functions[..n - 1];
      DefinitionsListed(c.functions[n - 1]);
      ApartIsSafe(c, keys, n - 1);
    }
  }

  lemma {:induction false} DifferentIsOneSite(c: Context, n: FunctionId)
    requires n <= |c.functions| && PairwiseDifferent(AllSymbols(c.functions[..n]))
    ensures OneSite(c, n)
    decreases n
  {
    hide Definitions;
    if n > 0 {
      assert c.functions[..n][..n - 1] == c.functions[..n - 1];
      PartsAreDisjoint(AllSymbols(c.functions[..n - 1]), FunctionSymbols(c.functions[n - 1]));
      DefinitionsListed(c.functions[n - 1]);
      ApartIsSafe(c, Definitions(c.functions[n - 1]), n - 1);
      DifferentIsOneSite(c, n - 1);
    }
  }

  /** All that the compiler takes for granted follows from the structure. */
  lemma CompilableIsWellFormed(p: Pipeline)
    requires Compilable(p)
    ensures WellFormed(p)
  {
    hide Meaning, Closed, OneSite, Safe, Names;
    var c := p.context;
    CompilableIsDefined(p);
    assert c.functions[..|c.functions|] == c.functions;
    PartsAreDisjoint(BodySymbols(p.topLevel), AllSymbols(c.functions));
    DifferentIsOneSite(c, |c.functions|);
    BodyNamesListed(p.topLevel);
    ApartIsSafe(c, Names(p.topLevel), |c.functions|);
  }
}
