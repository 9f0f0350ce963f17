/** Every use that the resolver emits follows its definition: in the same body, in a body around it, or
    at the top level. Every function that is called is complete before its caller. */
module ResolverScopes {
  import opened Wrappers
  import Ast
  import opened DataModel
  import opened Ir
  import opened Resolvers
  import opened Structure

  /** `b` has more functions, top-level nodes and records of surroundings than `a`. */
  ghost predicate Wider(a: Unit, b: Unit) {
    && a.functions <= b.functions && a.topLevel <= b.topLevel && Extended(a.lexical, b.lexical)
  }

  ghost predicate Extended(a: Lexical, b: Lexical) {
    a.Keys <= b.Keys && forall f :: f in a ==> b[f] == a[f]
  }

  lemma PrefixNames(a: Body, b: Body)
    requires a <= b
    ensures NameSet(a) <= NameSet(b)
  {
    assert b == a + b[|a|..];
    NamesSplit(a, b[|a|..]);
  }

  lemma CallableStays(a: Unit, b: Unit, f: FunctionId, seen: set<Symbol>, more: set<Symbol>)
    requires Callable(a, f, seen) && Wider(a, b) && seen <= more
    ensures Callable(b, f, more)
  {
    if a.functions[f].Custom? {
      assert b.topLevel[..a.lexical[f].top] == a.topLevel[..a.lexical[f].top];
    }
  }

  lemma NodeStays(a: Unit, b: Unit, node: Node, seen: set<Symbol>, more: set<Symbol>, limit: FunctionId,
                  higher: FunctionId)
    requires NodeClosed(a, node, seen, limit) && Wider(a, b) && seen <= more && limit <= higher
    ensures NodeClosed(b, node, more, higher)
  {
    hide Callable;
    CallableStays(a, b, node.function_, seen, more);
  }

  lemma BodyStays(a: Unit, b: Unit, body: Body, seen: set<Symbol>, more: set<Symbol>, limit: FunctionId,
                  higher: FunctionId)
    requires BodyClosed(a, body, seen, limit) && Wider(a, b) && seen <= more && limit <= higher
    ensures BodyClosed(b, body, more, higher)
  {
    hide NodeClosed, NameSet;
    forall i | 0 <= i < |body| ensures NodeClosed(b, body[i], more + NameSet(body[..i]), higher) {
      NodeStays(a, b, body[i], seen + NameSet(body[..i]), more + NameSet(body[..i]), limit, higher);
    }
  }

  lemma DefaultStays(a: Unit, b: Unit, defaults: seq<DefaultParam>, k: nat, seen: set<Symbol>, more: set<Symbol>,
                     limit: FunctionId, higher: FunctionId)
    requires k < |defaults| && DefaultClosed(a, defaults, k, seen, limit) && Wider(a, b) && seen <= more
    requires limit <= higher
    ensures DefaultClosed(b, defaults, k, more, higher)
  {
    hide BodyClosed, NameSet, DefaultSet;
    var before := DefaultSet(defaults[..k]);
    BodyStays(a, b, defaults[k].body, seen + before, more + before, limit, higher);
  }

  lemma FunctionStays(a: Unit, b: Unit, kinds: nat, more: nat, f: FunctionId)
    requires f < |a.functions| && FunctionClosed(a, kinds, f) && Wider(a, b) && kinds <= more
    ensures FunctionClosed(b, more, f)
  {
    hide BodyClosed, DefaultClosed, NameSet, DefaultSet, RequiredSet;
    if a.functions[f].Custom? {
      var top := a.lexical[f].top;
      assert b.topLevel[..top] == a.topLevel[..top];
      var defaults := a.functions[f].defaults;
      forall k | 0 <= k < |defaults| ensures DefaultClosed(b, defaults, k, Entered(b, f), f) {
        DefaultStays(a, b, defaults, k, Entered(a, f), Entered(b, f), f, f);
      }
      BodyStays(a, b, a.functions[f].body, Inside(a, f), Inside(b, f), f, f);
    }
  }

  lemma PlacedStays(a: Unit, b: Unit, f: FunctionId)
    requires f in a.lexical && Placed(a, f) && Wider(a, b)
    ensures Placed(b, f)
  {
    if a.lexical[f].locals != {} {
      var g, pos :| f < g && DefinedIn(a, f, g, pos);
      assert DefinedIn(b, f, g, pos);
    }
  }

  function UnitOf(st: State, lexical: Lexical): Unit {
    Unit(st.functions, st.topLevel, lexical)
  }

  /** A use of the item where `seen` can be seen is in order. */
  ghost predicate SeenItem(item: Item, st: State, lexical: Lexical, seen: set<Symbol>) {
    match item
    case Label(s) => s in seen
    case Function(id) => Callable(UnitOf(st, lexical), id, seen)
    case Module(index) => index < |st.modules|
  }

  ghost predicate ItemsSeen(items: Items, st: State, lexical: Lexical) {
    forall name :: name in items ==> SeenItem(items[name], st, lexical, NameSet(st.topLevel))
  }

  ghost predicate ScopeSeen(scope: Scope, st: State, lexical: Lexical, seen: set<Symbol>) {
    forall name {:trigger scope.Find(name)} ::
      scope.Find(name).Some? ==> SeenItem(scope.Find(name).value, st, lexical, seen)
  }

  ghost predicate FunctionsClosed(u: Unit, kinds: nat) {
    && (forall f :: 0 <= f < |u.functions| ==> FunctionClosed(u, kinds, f))
    && (forall f :: f in u.lexical ==> f < |u.functions|)
  }

  ghost predicate ModulesSeen(st: State, lexical: Lexical) {
    && (forall i :: 0 <= i < |st.modules| ==> ItemsSeen(st.modules[i], st, lexical))
    && (forall p :: p in st.moduleCache && st.moduleCache[p].Some? ==> st.moduleCache[p].value < |st.modules|)
  }

  ghost predicate PreludeKept(functions: seq<Function>) {
    |Prelude()| <= |functions| && forall i :: 0 <= i < |Prelude()| ==> functions[i].Builtin?
  }

  /** All that is finished is closed, and may be used from anywhere. */
  ghost predicate Shape(st: State, lexical: Lexical) {
    && FunctionsClosed(UnitOf(st, lexical), |st.nodes|)
    && BodyClosed(UnitOf(st, lexical), st.topLevel, {}, |st.functions|)
    && (forall l :: l in st.literals ==> st.literals[l] in NameSet(st.topLevel))
    && ModulesSeen(st, lexical) && PreludeKept(st.functions)
  }

  /** What the bodies being resolved have bound; `base` is what was bound before the target's first node. */
  function Locals(base: set<Symbol>, target: Target): set<Symbol> {
    match target
    case ModuleTarget(_) => base
    case FunctionTarget(_, body) => base + NameSet(body)
  }

  function View(st: State, base: set<Symbol>, target: Target): set<Symbol> {
    NameSet(st.topLevel) + Locals(base, target)
  }

  ghost predicate TargetClosed(st: State, lexical: Lexical, base: set<Symbol>, target: Target) {
    match target
    case ModuleTarget(exports) => base == {} && ItemsSeen(exports, st, lexical)
    case FunctionTarget(result, body) =>
      && BodyClosed(UnitOf(st, lexical), body, NameSet(st.topLevel) + base, |st.functions|)
      && (result.Some? ==> result.value in View(st, base, target))
  }

  ghost predicate InOrder(st: State, lexical: Lexical, base: set<Symbol>, target: Target) {
    Shape(st, lexical) && TargetClosed(st, lexical, base, target)
  }

  ghost predicate InView(st: State, lexical: Lexical, base: set<Symbol>, target: Target, scope: Scope) {
    ScopeSeen(scope, st, lexical, View(st, base, target))
  }

  lemma ItemStays(item: Item, a: State, before: Lexical, b: State, after: Lexical, seen: set<Symbol>, more: set<Symbol>)
    requires SeenItem(item, a, before, seen) && Grows(a, b) && Extended(before, after) && seen <= more
    ensures SeenItem(item, b, after, more)
  {
    if item.Function? { CallableStays(UnitOf(a, before), UnitOf(b, after), item.id, seen, more); }
  }

  lemma ItemsStay(items: Items, a: State, before: Lexical, b: State, after: Lexical)
    requires ItemsSeen(items, a, before) && Grows(a, b) && Extended(before, after)
    ensures ItemsSeen(items, b, after)
  {
    hide SeenItem;
    PrefixNames(a.topLevel, b.topLevel);
    forall name | name in items ensures SeenItem(items[name], b, after, NameSet(b.topLevel)) {
      ItemStays(items[name], a, before, b, after, NameSet(a.topLevel), NameSet(b.topLevel));
    }
  }

  lemma ScopeStaysSeen(scope: Scope, a: State, before: Lexical, b: State, after: Lexical, seen: set<Symbol>,
                       more: set<Symbol>)
    requires ScopeSeen(scope, a, before, seen) && Grows(a, b) && Extended(before, after) && seen <= more
    ensures ScopeSeen(scope, b, after, more)
  {
    hide SeenItem;
    forall name | scope.Find(name).Some? ensures SeenItem(scope.Find(name).value, b, after, more) {
      ItemStays(scope.Find(name).value, a, before, b, after, seen, more);
    }
  }

  lemma ViewGrows(a: State, b: State, base: set<Symbol>, before: Target, after: Target)
    requires Grows(a, b) && TargetGrows(before, after)
    ensures View(a, base, before) <= View(b, base, after)
  {
    hide NameSet;
    PrefixNames(a.topLevel, b.topLevel);
    if before.FunctionTarget? { PrefixNames(before.body, after.body); }
  }

  lemma InViewStays(a: State, lexical: Lexical, base: set<Symbol>, before: Target, scope: Scope, b: State,
                    longer: Lexical, after: Target)
    requires InView(a, lexical, base, before, scope) && Grows(a, b) && Extended(lexical, longer)
    requires TargetGrows(before, after)
    ensures InView(b, longer, base, after, scope)
  {
    hide ScopeSeen, View, Grows, TargetGrows;
    ViewGrows(a, b, base, before, after);
    ScopeStaysSeen(scope, a, lexical, b, longer, View(a, base, before), View(b, base, after));
  }

  lemma SameLexical(lexical: Lexical)
    ensures Extended(lexical, lexical)
  {
  }

  /** A target that was not emitted to stays closed. */
  lemma TargetStaysClosed(a: State, before: Lexical, b: State, after: Lexical, base: set<Symbol>, target: Target)
    requires TargetClosed(a, before, base, target) && Grows(a, b) && Extended(before, after)
    ensures TargetClosed(b, after, base, target)
  {
    hide NameSet, BodyClosed, ItemsSeen;
    PrefixNames(a.topLevel, b.topLevel);
    match target
    case ModuleTarget(exports) => ItemsStay(exports, a, before, b, after);
    case FunctionTarget(_, body) =>
      BodyStays(UnitOf(a, before), UnitOf(b, after), body, NameSet(a.topLevel) + base, NameSet(b.topLevel) + base,
                |a.functions|, |b.functions|);
  }

  lemma InsertSeen(scope: Scope, name: string, item: Item, st: State, lexical: Lexical, seen: set<Symbol>)
    requires ScopeSeen(scope, st, lexical, seen) && SeenItem(item, st, lexical, seen)
    ensures ScopeSeen(scope.Insert(name, item), st, lexical, seen)
  {
    hide SeenItem;
    forall n | scope.Insert(name, item).Find(n).Some?
      ensures SeenItem(scope.Insert(name, item).Find(n).value, st, lexical, seen)
    {
      if n != name { assert scope.Insert(name, item).Find(n) == scope.Find(n); }
    }
  }

  lemma ChildSeen(scope: Scope, st: State, lexical: Lexical, seen: set<Symbol>)
    requires ScopeSeen(scope, st, lexical, seen)
    ensures ScopeSeen(scope.Child(), st, lexical, seen)
  {
    hide SeenItem;
    forall n | scope.Child().Find(n).Some? ensures SeenItem(scope.Child().Find(n).value, st, lexical, seen) {
      assert scope.Child().Find(n) == scope.Find(n);
    }
  }

  lemma {:induction false} FollowSeen(st: State, lexical: Lexical, item: Item, rest: seq<string>, seen: set<Symbol>)
    requires ModulesSeen(st, lexical) && SeenItem(item, st, lexical, seen) && NameSet(st.topLevel) <= seen
    ensures Follow(st, item, rest).Ok? ==> SeenItem(Follow(st, item, rest).value, st, lexical, seen)
    decreases |rest|
  {
    hide NameSet, SeenItem;
    if Follow(st, item, rest).Ok? && rest != [] {
      var next := st.modules[item.index][rest[0]];
      assert SeenItem(next, st, lexical, NameSet(st.topLevel)) by {
        assert ItemsSeen(st.modules[item.index], st, lexical);
      }
      GrowsToItself(st);
      ItemStays(next, st, lexical, st, lexical, NameSet(st.topLevel), seen);
      FollowSeen(st, lexical, next, rest[1..], seen);
    }
  }

  lemma GrowsToItself(st: State)
    ensures Grows(st, st)
  {
  }

  lemma PathSeen(st: State, lexical: Lexical, base: set<Symbol>, target: Target, scope: Scope, path: Ast.ItemPath)
    requires ModulesSeen(st, lexical) && InView(st, lexical, base, target, scope) && GetItemPath(st, scope, path).Ok?
    ensures SeenItem(GetItemPath(st, scope, path).value, st, lexical, View(st, base, target))
  {
    hide SeenItem, ModulesSeen, Follow, NameSet;
    FollowSeen(st, lexical, Lookup(scope, path.base).value, path.rest, View(st, base, target));
  }

  lemma {:induction false} LabelsSeen(st: State, lexical: Lexical, base: set<Symbol>, target: Target, scope: Scope,
                                      paths: seq<Ast.ItemPath>)
    requires ModulesSeen(st, lexical) && InView(st, lexical, base, target, scope) && GetLabels(st, scope, paths).Ok?
    ensures forall i :: 0 <= i < |GetLabels(st, scope, paths).value| ==>
              GetLabels(st, scope, paths).value[i] in View(st, base, target)
    decreases |paths|
  {
    hide InView, ModulesSeen, View;
    if paths != [] {
      PathSeen(st, lexical, base, target, scope, paths[0]);
      LabelsSeen(st, lexical, base, target, scope, paths[1..]);
    }
  }

  /** Appending a closed node. */
  lemma AppendClosed(u: Unit, body: Body, node: Node, seen: set<Symbol>, limit: FunctionId)
    requires BodyClosed(u, body, seen, limit) && NodeClosed(u, node, seen + NameSet(body), limit)
    ensures BodyClosed(u, body + [node], seen, limit)
    ensures NameSet(body + [node]) == NameSet(body) + {node.name}
  {
    hide NodeClosed, NameSet;
    var all := body + [node];
    forall i | 0 <= i < |all| ensures NodeClosed(u, all[i], seen + NameSet(all[..i]), limit) {
      assert all[..i] == body[..i] && body[..|body|] == body;
    }
    NextName(all, |body|);
    assert all[..|body|] == body && all[..|body| + 1] == all;
  }

  /** Finished parts stay closed when functions and top-level nodes are added. */
  lemma PartsStay(a: State, before: Lexical, b: State, after: Lexical)
    requires Shape(a, before) && Grows(a, b) && Extended(before, after)
    ensures forall f :: 0 <= f < |a.functions| ==> FunctionClosed(UnitOf(b, after), |b.nodes|, f)
    ensures BodyClosed(UnitOf(b, after), a.topLevel, {}, |b.functions|)
    ensures forall i :: 0 <= i < |a.modules| ==> ItemsSeen(a.modules[i], b, after)
    ensures PreludeKept(b.functions)
  {
    hide FunctionClosed, BodyClosed, ItemsSeen, NameSet, Prelude;
    forall f | 0 <= f < |a.functions| ensures FunctionClosed(UnitOf(b, after), |b.nodes|, f) {
      FunctionStays(UnitOf(a, before), UnitOf(b, after), |a.nodes|, |b.nodes|, f);
    }
    BodyStays(UnitOf(a, before), UnitOf(b, after), a.topLevel, {}, {}, |a.functions|, |b.functions|);
    forall i | 0 <= i < |a.modules| ensures ItemsSeen(a.modules[i], b, after) {
      ItemsStay(a.modules[i], a, before, b, after);
    }
  }

  lemma LiteralScopes(st: State, lexical: Lexical, l: Literal)
    requires Shape(st, lexical)
    ensures Shape(ResolveLiteral(st, l).0, lexical)
    ensures ResolveLiteral(st, l).1 in NameSet(ResolveLiteral(st, l).0.topLevel)
  {
    hide ItemsSeen, NameSet, Prelude, Grows;
    if l !in st.literals {
      var (after, symbol) := ResolveLiteral(st, l);
      SameLexical(lexical);
      PartsStay(st, lexical, after, lexical);
      var node := Node(symbol, |st.functions|, [], []);
      AppendClosed(UnitOf(after, lexical), st.topLevel, node, {}, |after.functions|);
    }
  }

  /** What a node takes is in view. */
  ghost predicate TakesSeen(st: State, lexical: Lexical, seen: set<Symbol>, id: FunctionId, args: seq<Symbol>,
                            phantoms: seq<Symbol>) {
    && Callable(UnitOf(st, lexical), id, seen)
    && (forall i :: 0 <= i < |args| ==> args[i] in seen)
    && (forall i :: 0 <= i < |phantoms| ==> phantoms[i] in seen)
  }

  lemma EmitScopes(st: State, lexical: Lexical, base: set<Symbol>, target: Target, id: FunctionId, args: seq<Symbol>,
                   phantoms: seq<Symbol>)
    requires InOrder(st, lexical, base, target) && TakesSeen(st, lexical, View(st, base, target), id, args, phantoms)
    ensures SeenStep(lexical, base, Emit(st, target, id, args, phantoms))
  {
    hide ItemsSeen, NameSet, Prelude, Grows, BodyClosed, FunctionClosed, PreludeKept;
    var s := Emit(st, target, id, args, phantoms);
    var node := Node(Fresh(st), id, args, phantoms);
    var u := UnitOf(st, lexical);
    SameLexical(lexical);
    PartsStay(st, lexical, s.state, lexical);
    if target.ModuleTarget? {
      AppendClosed(u, st.topLevel, node, {}, |st.functions|) by {
        assert View(st, base, target) == {} + NameSet(st.topLevel);
      }
      BodyStays(u, UnitOf(s.state, lexical), s.state.topLevel, {}, {}, |st.functions|, |st.functions|);
      TargetStaysClosed(st, lexical, s.state, lexical, base, target);
    } else {
      var body := target.body;
      AppendClosed(u, body, node, NameSet(st.topLevel) + base, |st.functions|) by {
        assert View(st, base, target) == NameSet(st.topLevel) + base + NameSet(body);
      }
    }
  }

  /** The step leaves everything in order and its value in view. */
  ghost predicate SeenStep(lexical: Lexical, base: set<Symbol>, s: Step<Symbol>) {
    InOrder(s.state, lexical, base, s.target) && s.value in View(s.state, base, s.target)
  }

  lemma LiteralStepScopes(st: State, lexical: Lexical, base: set<Symbol>, target: Target, l: Literal)
    requires InOrder(st, lexical, base, target)
    ensures SeenStep(lexical, base, LiteralStep(st, target, l))
  {
    hide Shape, TargetClosed, Grows, NameSet;
    SameLexical(lexical);
    LiteralScopes(st, lexical, l);
    TargetStaysClosed(st, lexical, ResolveLiteral(st, l).0, lexical, base, target);
  }

  /** Everything an expression reads is in view, and so is its value. */
  lemma {:induction false} ExpressionScopes(st: State, lexical: Lexical, base: set<Symbol>, scope: Scope,
                                            target: Target, e: Ast.Expression)
    requires InOrder(st, lexical, base, target) && InView(st, lexical, base, target, scope)
    requires ResolveExpression(st, scope, target, e).Ok?
    ensures SeenStep(lexical, base, ResolveExpression(st, scope, target, e).value)
    decreases e, 1
  {
    hide Shape, TargetClosed, InView, View, Grows;
    match e
    case Number(n) => LiteralStepScopes(st, lexical, base, target, IntLit(n));
    case Text(t) => LiteralStepScopes(st, lexical, base, target, StrLit(t));
    case Label(path) => PathSeen(st, lexical, base, target, scope, path) by { ShapeModules(st, lexical); }
    case Call(node) => NodeScopes(st, lexical, base, scope, target, node, []);
    case Chain(start, nodes) =>
      var first := ResolveExpression(st, scope, target, start).value;
      ExpressionScopes(st, lexical, base, scope, target, start);
      SameLexical(lexical);
      InViewStays(st, lexical, base, target, scope, first.state, lexical, first.target);
      ChainScopes(first.state, lexical, base, scope, first.target, first.value, nodes);
  }

  lemma ShapeModules(st: State, lexical: Lexical)
    requires Shape(st, lexical)
    ensures ModulesSeen(st, lexical)
  {
  }

  lemma {:induction false} ChainScopes(st: State, lexical: Lexical, base: set<Symbol>, scope: Scope, target: Target,
                                       current: Symbol, nodes: seq<Ast.Node>)
    requires InOrder(st, lexical, base, target) && InView(st, lexical, base, target, scope)
    requires current in View(st, base, target) && ResolveChain(st, scope, target, current, nodes).Ok?
    ensures SeenStep(lexical, base, ResolveChain(st, scope, target, current, nodes).value)
    decreases nodes, 0
  {
    hide Shape, TargetClosed, InView, View, Grows;
    if nodes != [] {
      var next := ResolveNode(st, scope, target, nodes[0], [current]).value;
      NodeScopes(st, lexical, base, scope, target, nodes[0], [current]);
      SameLexical(lexical);
      InViewStays(st, lexical, base, target, scope, next.state, lexical, next.target);
      ChainScopes(next.state, lexical, base, scope, next.target, next.value, nodes[1..]);
    }
  }

  lemma {:induction false} NodeScopes(st: State, lexical: Lexical, base: set<Symbol>, scope: Scope, target: Target,
                                      node: Ast.Node, first: seq<Symbol>)
    requires InOrder(st, lexical, base, target) && InView(st, lexical, base, target, scope)
    requires forall i :: 0 <= i < |first| ==> first[i] in View(st, base, target)
    requires ResolveNode(st, scope, target, node, first).Ok?
    ensures SeenStep(lexical, base, ResolveNode(st, scope, target, node, first).value)
    decreases node, 1
  {
    hide Shape, TargetClosed, InView, View, Grows, TargetGrows, SeenStep, Callable;
    var id, phantoms := GetFunction(st, scope, node.name).value, GetLabels(st, scope, node.phantoms).value;
    var args := ResolveArguments(st, scope, target, node.arguments).value;
    ShapeModules(st, lexical);
    PathSeen(st, lexical, base, target, scope, node.name);
    LabelsSeen(st, lexical, base, target, scope, node.phantoms);
    ArgumentsScopes(st, lexical, base, scope, target, node.arguments);
    SameLexical(lexical);
    ViewGrows(st, args.state, base, target, args.target);
    ItemStays(Item.Function(id), st, lexical, args.state, lexical, View(st, base, target),
              View(args.state, base, args.target));
    EmitScopes(args.state, lexical, base, args.target, id, first + args.value, phantoms);
  }

  lemma {:induction false} ArgumentsScopes(st: State, lexical: Lexical, base: set<Symbol>, scope: Scope, target: Target,
                                           es: seq<Ast.Expression>)
    requires InOrder(st, lexical, base, target) && InView(st, lexical, base, target, scope)
    requires ResolveArguments(st, scope, target, es).Ok?
    ensures SeenSteps(lexical, base, ResolveArguments(st, scope, target, es).value)
    decreases es, 0
  {
    hide Shape, TargetClosed, InView, View, Grows, TargetGrows;
    if es != [] {
      var head := ResolveExpression(st, scope, target, es[0]).value;
      ExpressionScopes(st, lexical, base, scope, target, es[0]);
      SameLexical(lexical);
      InViewStays(st, lexical, base, target, scope, head.state, lexical, head.target);
      ArgumentsScopes(head.state, lexical, base, scope, head.target, es[1..]);
      var tail := ResolveArguments(head.state, scope, head.target, es[1..]).value;
      ViewGrows(head.state, tail.state, base, head.target, tail.target);
    }
  }

  ghost predicate SeenSteps(lexical: Lexical, base: set<Symbol>, s: Step<seq<Symbol>>) {
    InOrder(s.state, lexical, base, s.target) && forall i :: 0 <= i < |s.value| ==>
      s.value[i] in View(s.state, base, s.target)
  }

  lemma {:induction false} RequiredScopes(st: State, lexical: Lexical, scope: Scope, names: seq<string>,
                                          seen: set<Symbol>)
    requires ScopeSeen(scope, st, lexical, seen)
    ensures RequiredSeen(lexical, ResolveRequired(st, scope, names), seen)
    decreases |names|
  {
    hide ScopeSeen;
    if names == [] {
      assert seen + Members([]) == seen;
    } else {
      var s := Fresh(st);
      var inner := scope.Insert(names[0], Item.Label(s));
      var rest := ResolveRequired(Bump(st), inner, names[1..]);
      SameLexical(lexical);
      ScopeStaysSeen(scope, st, lexical, Bump(st), lexical, seen, seen + {s});
      InsertSeen(scope, names[0], Item.Label(s), Bump(st), lexical, seen + {s});
      RequiredScopes(Bump(st), lexical, inner, names[1..], seen + {s});
      assert seen + Members([s] + rest.2) == seen + {s} + Members(rest.2);
    }
  }

  function Members(params: seq<Symbol>): set<Symbol> {
    set s | s in params
  }

  ghost predicate RequiredSeen(lexical: Lexical, r: (State, Scope, seq<Symbol>), seen: set<Symbol>) {
    ScopeSeen(r.1, r.0, lexical, seen + Members(r.2))
  }

  /** Defaults that follow a first one see its parameter too. */
  lemma DefaultsCons(u: Unit, d: DefaultParam, rest: seq<DefaultParam>, seen: set<Symbol>, limit: FunctionId)
    requires DefaultClosed(u, [d], 0, seen, limit) && AllDefaultsClosed(u, rest, seen + {d.param}, limit)
    ensures AllDefaultsClosed(u, [d] + rest, seen, limit)
    ensures DefaultSet([d] + rest) == {d.param} + DefaultSet(rest)
  {
    hide BodyClosed, NameSet;
    var all := [d] + rest;
    forall k | 0 <= k < |all| ensures DefaultClosed(u, all, k, seen, limit) {
      if k == 0 {
        assert all[..0] == [d][..0];
      } else {
        assert all[k] == rest[k - 1] && all[..k] == [d] + rest[..k - 1];
        assert DefaultClosed(u, rest, k - 1, seen + {d.param}, limit);
        assert seen + DefaultSet(all[..k]) == seen + {d.param} + DefaultSet(rest[..k - 1]) by {
          DefaultSetCons(d, rest[..k - 1]);
        }
      }
    }
    DefaultSetCons(d, rest);
  }

  lemma DefaultSetCons(d: DefaultParam, rest: seq<DefaultParam>)
    ensures DefaultSet([d] + rest) == {d.param} + DefaultSet(rest)
  {
    forall s | s in {d.param} + DefaultSet(rest) ensures s in DefaultSet([d] + rest) {
      if s == d.param {
        assert d in [d] + rest;
      } else {
        var x :| x in rest && x.param == s;
        assert x in [d] + rest;
      }
    }
  }

  ghost predicate AllDefaultsClosed(u: Unit, defaults: seq<DefaultParam>, seen: set<Symbol>, limit: FunctionId) {
    forall k :: 0 <= k < |defaults| ==> DefaultClosed(u, defaults, k, seen, limit)
  }

  /** All defaults see the parameters before them, and the scope that they leave sees them all. */
  ghost predicate DefaultsSeen(lexical: Lexical, base: set<Symbol>, r: (State, Scope, seq<DefaultParam>)) {
    && Shape(r.0, lexical)
    && ScopeSeen(r.1, r.0, lexical, NameSet(r.0.topLevel) + base + DefaultSet(r.2))
    && AllDefaultsClosed(UnitOf(r.0, lexical), r.2, NameSet(r.0.topLevel) + base, |r.0.functions|)
  }

  lemma {:induction false} DefaultsScopes(st: State, lexical: Lexical, base: set<Symbol>, scope: Scope,
                                          defaults: seq<Ast.Default>)
    requires Shape(st, lexical) && ScopeSeen(scope, st, lexical, NameSet(st.topLevel) + base)
    requires ResolveDefaults(st, scope, defaults).Ok?
    ensures DefaultsSeen(lexical, base, ResolveDefaults(st, scope, defaults).value)
    decreases |defaults|
  {
    hide Shape, ScopeSeen, NameSet, BodyClosed, DefaultSet, ResolveExpression, Grows, ItemsSeen;
    if defaults == [] {
      NoDefaults(NameSet(st.topLevel) + base);
    } else {
      var apart := FunctionTarget(None, []);
      var d := ResolveExpression(st, scope, apart, defaults[0].value).value;
      NothingBound(st, lexical, base);
      ExpressionScopes(st, lexical, base, scope, apart, defaults[0].value);
      var s, next := Fresh(d.state), Bump(d.state);
      var inner := scope.Insert(defaults[0].name, Item.Label(s));
      SameLexical(lexical);
      BumpGrows(st, d.state);
      ShapeBumps(d.state, lexical);
      PrefixOf(st, next);
      ScopeStaysSeen(scope, st, lexical, next, lexical, NameSet(st.topLevel) + base,
                     NameSet(next.topLevel) + (base + {s}));
      InsertSeen(scope, defaults[0].name, Item.Label(s), next, lexical, NameSet(next.topLevel) + (base + {s}));
      DefaultsScopes(next, lexical, base + {s}, inner, defaults[1..]);
      var rest := ResolveDefaults(next, inner, defaults[1..]).value;
      DefaultsStep(d, lexical, base, DefaultParam(s, d.value, d.target.body), rest);
      assert ResolveDefaults(st, scope, defaults).value.2 == [DefaultParam(s, d.value, d.target.body)] + rest.2;
    }
  }

  lemma NoDefaults(seen: set<Symbol>)
    ensures seen + DefaultSet([]) == seen
  {
  }

  lemma NothingBound(st: State, lexical: Lexical, base: set<Symbol>)
    ensures TargetClosed(st, lexical, base, FunctionTarget(None, []))
    ensures View(st, base, FunctionTarget(None, [])) == NameSet(st.topLevel) + base
  {
  }

  lemma BumpGrows(st: State, mid: State)
    requires Grows(st, mid)
    ensures Grows(st, Bump(mid))
  {
  }

  lemma ShapeBumps(st: State, lexical: Lexical)
    requires Shape(st, lexical)
    ensures Shape(Bump(st), lexical)
  {
    hide FunctionClosed, BodyClosed, ItemsSeen, NameSet, Prelude, Grows;
    SameLexical(lexical);
    PartsStay(st, lexical, Bump(st), lexical) by { BumpGrows(st, st) by { GrowsToItself(st); } }
  }

  lemma PrefixOf(a: State, b: State)
    requires Grows(a, b)
    ensures NameSet(a.topLevel) <= NameSet(b.topLevel)
  {
    PrefixNames(a.topLevel, b.topLevel);
  }

  /** A default that has been resolved, before the ones that see its parameter. */
  lemma DefaultsStep(d: Step<Symbol>, lexical: Lexical, base: set<Symbol>, param: DefaultParam,
                     rest: (State, Scope, seq<DefaultParam>))
    requires SeenStep(lexical, base, d) && d.target.FunctionTarget? && param.value == d.value
    requires param.body == d.target.body
    requires Grows(Bump(d.state), rest.0) && DefaultsSeen(lexical, base + {param.param}, rest)
    ensures DefaultsSeen(lexical, base, (rest.0, rest.1, [param] + rest.2))
  {
    hide Shape, ScopeSeen, NameSet, BodyClosed, ItemsSeen, AllDefaultsClosed;
    var u, seen := UnitOf(rest.0, lexical), NameSet(rest.0.topLevel) + base;
    SameLexical(lexical);
    PrefixOf(Bump(d.state), rest.0);
    BodyStays(UnitOf(d.state, lexical), u, param.body, NameSet(d.state.topLevel) + base, seen, |d.state.functions|,
              |rest.0.functions|);
    assert [param][..0] == [];
    NoDefaults(seen);
    assert DefaultClosed(u, [param], 0, seen, |rest.0.functions|);
    assert NameSet(rest.0.topLevel) + (base + {param.param}) == seen + {param.param};
    DefaultsCons(u, param, rest.2, seen, |rest.0.functions|);
    assert seen + {param.param} + DefaultSet(rest.2) == seen + DefaultSet([param] + rest.2);
  }

  /** The function is placed, or defined in the body that the target is collecting. */
  ghost predicate Placing(u: Unit, f: FunctionId, base: set<Symbol>, target: Target)
    requires f in u.lexical
  {
    || Placed(u, f)
    || (target.FunctionTarget? && exists pos: nat :: pos <= |target.body| && DefinedAt(u, f, base, target.body, pos))
  }

  /** The function sees the nodes of the unfinished body before `pos`. */
  ghost predicate DefinedAt(u: Unit, f: FunctionId, base: set<Symbol>, body: Body, pos: nat)
    requires f in u.lexical && pos <= |body|
  {
    u.lexical[f].locals == base + NameSet(body[..pos])
  }

  /** The surroundings of every function from `from` on are recorded. */
  ghost predicate Recorded(u: Unit, from: FunctionId, base: set<Symbol>, target: Target) {
    forall f :: from <= f < |u.functions| && u.functions[f].Custom? ==> f in u.lexical && Placing(u, f, base, target)
  }

  lemma PlacingStays(a: Unit, b: Unit, f: FunctionId, base: set<Symbol>, before: Target, after: Target)
    requires f in a.lexical && Placing(a, f, base, before) && Wider(a, b) && TargetGrows(before, after)
    ensures Placing(b, f, base, after)
  {
    if Placed(a, f) {
      PlacedStays(a, b, f);
    } else {
      var pos: nat :| pos <= |before.body| && DefinedAt(a, f, base, before.body, pos);
      assert after.body[..pos] == before.body[..pos];
      assert DefinedAt(b, f, base, after.body, pos);
    }
  }

  lemma RecordedStays(a: Unit, b: Unit, from: FunctionId, base: set<Symbol>, before: Target, after: Target)
    requires Recorded(a, from, base, before) && Wider(a, b) && TargetGrows(before, after)
    requires Recorded(b, |a.functions|, base, after)
    ensures Recorded(b, from, base, after)
  {
    hide Placing;
    forall f | from <= f < |b.functions| && b.functions[f].Custom? ensures f in b.lexical &&
    Placing(b, f, base, after) {
      if f < |a.functions| { PlacingStays(a, b, f, base, before, after); }
    }
  }

  /** Functions added without a record are built in. */
  lemma UnrecordedAreBuiltin(a: Unit, b: Unit, kinds: nat, more: nat)
    requires FunctionsClosed(a, kinds) && FunctionsClosed(b, more) && a.lexical == b.lexical
    ensures forall f :: |a.functions| <= f < |b.functions| ==> b.functions[f].Builtin?
  {
    hide BodyClosed, DefaultClosed;
    forall f | |a.functions| <= f < |b.functions| ensures b.functions[f].Builtin? {
      assert FunctionClosed(b, more, f);
    }
  }

  /** What a step of the resolver leaves behind. */
  ghost predicate Done(before: Lexical, from: FunctionId, after: Lexical, base: set<Symbol>, s: Step<Scope>) {
    && Extended(before, after) && InOrder(s.state, after, base, s.target)
    && InView(s.state, after, base, s.target, s.value) && Recorded(UnitOf(s.state, after), from, base, s.target)
  }

  /** Binding and possibly exporting an item that is in view. */
  lemma BindSeen(st: State, lexical: Lexical, base: set<Symbol>, scope: Scope, target: Target, exported: bool,
                 name: string, item: Item)
    requires InOrder(st, lexical, base, target) && InView(st, lexical, base, target, scope)
    requires SeenItem(item, st, lexical, View(st, base, target)) && Export(target, exported, name, item).Ok?
    ensures InOrder(st, lexical, base, Export(target, exported, name, item).value)
    ensures InView(st, lexical, base, Export(target, exported, name, item).value, scope.Insert(name, item))
    ensures TargetGrows(target, Export(target, exported, name, item).value)
  {
    hide ScopeSeen, SeenItem, NameSet, Shape;
    InsertSeen(scope, name, item, st, lexical, View(st, base, target));
    if target.ModuleTarget? {
      assert View(st, base, target) == NameSet(st.topLevel);
    }
  }

  lemma {:induction false} StatementScopes(disk: Ast.Disk, st: State, lexical: Lexical, base: set<Symbol>, scope: Scope,
                                           target: Target, file: string, stmt: Ast.Statement) returns (after: Lexical)
    requires InOrder(st, lexical, base, target) && InView(st, lexical, base, target, scope)
    requires ResolveStatement(disk, st, scope, target, file, stmt).Ok?
    ensures Done(lexical, |st.functions|, after, base, ResolveStatement(disk, st, scope, target, file, stmt).value)
    decreases disk.files.Keys - st.moduleCache.Keys, 1, stmt, 1
  {
    hide Shape, InView, View, Grows, TargetClosed, TargetGrows, Recorded, ResolveExpression, GetModule,
         ResolveFunction, ItemsSeen, SeenItem;
    match stmt
    case Return(e) =>
      var value := ResolveExpression(st, scope, target, e).value;
      after := lexical;
      ExpressionScopes(st, lexical, base, scope, target, e);
      ReturnScopes(st, lexical, base, scope, target, value);
    case Import(exported, path, name) =>
      var r := GetModule(disk, st, disk.target(file, path)).value;
      after := ModuleScopes(disk, st, lexical, disk.target(file, path));
      AllPlacedAreRecorded(UnitOf(r.0, after), |st.functions|, base, target);
      assert SeenItem(Item.Module(r.1), r.0, after,
                      View(r.0, base, target)) by { ModuleIsSeen(r.0, after, r.1, View(r.0, base, target)); }
      BindLater(st, lexical, base, scope, target, r.0, after, exported, name, Item.Module(r.1));
    case Assign(exported, e, name) =>
      var value := ResolveExpression(st, scope, target, e).value;
      after := lexical;
      ExpressionScopes(st, lexical, base, scope, target, e);
      AssignScopes(st, lexical, base, scope, target, value, exported, name);
    case Def(exported, f) =>
      var r := ResolveFunction(disk, st, scope, file, f).value;
      after := FunctionScopes(disk, st, lexical, Locals(base, target), scope, file,
                              f) by { LocalView(st, lexical, base, scope, target); }
      DefinedIsRecorded(UnitOf(r.0, after), |st.functions|, base, target) by { ModuleBase(st, lexical, base, target); }
      assert View(r.0, base, target) == NameSet(r.0.topLevel) + Locals(base, target) by { ViewIs(r.0, base, target); }
      BindLater(st, lexical, base, scope, target, r.0, after, exported, f.name, Item.Function(r.1));
  }

  lemma ViewIs(st: State, base: set<Symbol>, target: Target)
    ensures View(st, base, target) == NameSet(st.topLevel) + Locals(base, target)
  {
  }

  lemma ModuleBase(st: State, lexical: Lexical, base: set<Symbol>, target: Target)
    requires TargetClosed(st, lexical, base, target)
    ensures target.ModuleTarget? ==> base == {}
  {
  }

  lemma LocalView(st: State, lexical: Lexical, base: set<Symbol>, scope: Scope, target: Target)
    requires InView(st, lexical, base, target, scope)
    ensures ScopeSeen(scope, st, lexical, NameSet(st.topLevel) + Locals(base, target))
  {
  }

  lemma ModuleIsSeen(st: State, lexical: Lexical, index: nat, seen: set<Symbol>)
    requires index < |st.modules|
    ensures SeenItem(Item.Module(index), st, lexical, seen)
  {
  }

  lemma ReturnScopes(st: State, lexical: Lexical, base: set<Symbol>, scope: Scope, target: Target, value: Step<Symbol>)
    requires Shape(st, lexical) && InView(st, lexical, base, target, scope) && Advances(st, target, value)
    requires SeenStep(lexical, base, value) && SetReturnValue(value.target, value.value).Ok?
    ensures Done(lexical, |st.functions|, lexical, base,
                 Step(value.state, SetReturnValue(value.target, value.value).value, scope))
  {
    hide FunctionsClosed, BodyClosed, ItemsSeen, NameSet, ScopeSeen, Placing, Grows;
    var done := SetReturnValue(value.target, value.value).value;
    SameLexical(lexical);
    InViewStays(st, lexical, base, target, scope, value.state, lexical, done);
    UnrecordedAreBuiltin(UnitOf(st, lexical), UnitOf(value.state, lexical), |st.nodes|, |value.state.nodes|);
  }

  lemma AssignScopes(st: State, lexical: Lexical, base: set<Symbol>, scope: Scope, target: Target, value: Step<Symbol>,
                     exported: bool, name: string)
    requires Shape(st, lexical) && InView(st, lexical, base, target, scope) && Advances(st, target, value)
    requires SeenStep(lexical, base, value) && Export(value.target, exported, name, Item.Label(value.value)).Ok?
    ensures Done(lexical, |st.functions|, lexical, base,
                 Step(value.state, Export(value.target, exported, name, Item.Label(value.value)).value,
                      scope.Insert(name, Item.Label(value.value))))
  {
    hide FunctionsClosed, BodyClosed, ItemsSeen, NameSet, ScopeSeen, Placing, Grows, InView, View, TargetClosed;
    var done := Export(value.target, exported, name, Item.Label(value.value)).value;
    SameLexical(lexical);
    InViewStays(st, lexical, base, target, scope, value.state, lexical, value.target);
    BindSeen(value.state, lexical, base, scope, value.target, exported, name, Item.Label(value.value));
    UnrecordedAreBuiltin(UnitOf(st, lexical), UnitOf(value.state, lexical), |st.nodes|, |value.state.nodes|);
  }

  /** Binding what a definition or an import yields. */
  lemma BindLater(st: State, before: Lexical, base: set<Symbol>, scope: Scope, target: Target, later: State,
                  after: Lexical, exported: bool, name: string, item: Item)
    requires InOrder(st, before, base, target) && InView(st, before, base, target, scope)
    requires Grows(st, later) && Extended(before, after) && Shape(later, after)
    requires SeenItem(item, later, after, View(later, base, target)) && Export(target, exported, name, item).Ok?
    requires Recorded(UnitOf(later, after), |st.functions|, base, target)
    ensures Done(before, |st.functions|, after, base,
                 Step(later, Export(target, exported, name, item).value, scope.Insert(name, item)))
  {
    hide Shape, TargetClosed, InView, View, Grows, SeenItem, Placing;
    TargetStaysClosed(st, before, later, after, base, target);
    InViewStays(st, before, base, target, scope, later, after, target);
    BindSeen(later, after, base, scope, target, exported, name, item);
    RecordedTarget(UnitOf(later, after), |st.functions|, base, target, Export(target, exported, name, item).value);
  }

  lemma RecordedTarget(u: Unit, from: FunctionId, base: set<Symbol>, before: Target, after: Target)
    requires Recorded(u, from, base, before) && TargetGrows(before, after)
    ensures Recorded(u, from, base, after)
  {
    hide Placing;
    SameLexical(u.lexical);
    forall f | from <= f < |u.functions| && u.functions[f].Custom? ensures f in u.lexical &&
    Placing(u, f, base, after) {
      PlacingStays(u, u, f, base, before, after);
    }
  }

  /** Every function from `from` on is at its place. */
  ghost predicate AllPlaced(u: Unit, from: FunctionId, to: FunctionId)
    requires to <= |u.functions|
  {
    forall f :: from <= f < to && u.functions[f].Custom? ==> f in u.lexical && Placed(u, f)
  }

  lemma AllPlacedAreRecorded(u: Unit, from: FunctionId, base: set<Symbol>, target: Target)
    requires AllPlaced(u, from, |u.functions|)
    ensures Recorded(u, from, base, target)
  {
  }

  /** The last function was defined by the target, and those before it are at their place. */
  lemma DefinedIsRecorded(u: Unit, from: FunctionId, base: set<Symbol>, target: Target)
    requires from < |u.functions| && AllPlaced(u, from, |u.functions| - 1) && |u.functions| - 1 in u.lexical
    requires u.lexical[|u.functions| - 1].locals == Locals(base, target) && (target.ModuleTarget? ==> base == {})
    ensures Recorded(u, from, base, target)
  {
    hide NameSet;
    if target.FunctionTarget? {
      assert target.body[..|target.body|] == target.body;
      assert DefinedAt(u, |u.functions| - 1, base, target.body, |target.body|);
    }
  }

  lemma {:induction false} StatementsScopes(disk: Ast.Disk, st: State, lexical: Lexical, base: set<Symbol>,
                                            scope: Scope, target: Target, file: string, stmts: seq<Ast.Statement>)
    returns (after: Lexical)
    requires InOrder(st, lexical, base, target) && InView(st, lexical, base, target, scope)
    requires ResolveStatements(disk, st, scope, target, file, stmts).Ok?
    ensures Done(lexical, |st.functions|, after, base, ResolveStatements(disk, st, scope, target, file, stmts).value)
    decreases disk.files.Keys - st.moduleCache.Keys, 1, stmts, 0
  {
    hide Shape, InView, TargetClosed, ResolveStatement, Placing, TargetGrows;
    if stmts == [] {
      after := lexical;
      SameLexical(lexical);
    } else {
      var next := ResolveStatement(disk, st, scope, target, file, stmts[0]).value;
      var middle := StatementScopes(disk, st, lexical, base, scope, target, file, stmts[0]);
      after := StatementsScopes(disk, next.state, middle, base, next.value, next.target, file, stmts[1..]);
      var end := ResolveStatements(disk, next.state, next.value, next.target, file, stmts[1..]).value;
      RecordedStays(UnitOf(next.state, middle), UnitOf(end.state, after), |st.functions|, base, next.target,
                    end.target);
    }
  }

  /** A resolved function reads only what it binds or what could be seen where it was defined. */
  lemma {:induction false} FunctionScopes(disk: Ast.Disk, st: State, lexical: Lexical, locals: set<Symbol>,
                                          scope: Scope, file: string, f: Ast.Function) returns (after: Lexical)
    requires Shape(st, lexical) && ScopeSeen(scope, st, lexical, NameSet(st.topLevel) + locals)
    requires ResolveFunction(disk, st, scope, file, f).Ok?
    ensures DefinitionDone(lexical, |st.functions|, after, locals, ResolveFunction(disk, st, scope, file, f).value)
    decreases disk.files.Keys - st.moduleCache.Keys, 1, f, 0
  {
    hide Shape, ScopeSeen, NameSet, DefaultSet, ResolveRequired, ResolveDefaults, ResolveStatements, Grows,
         DefinitionDone, BodyClosed, AllDefaultsClosed, Recorded;
    var apart := FunctionTarget(None, []);
    var (bound, inner, required) := ResolveRequired(st, scope.Child(), f.required);
    var (ready, outer, defaults) := ResolveDefaults(bound, inner, f.defaults).value;
    var body := ResolveStatements(disk, ready, outer, apart, file, f.body).value;
    var base := locals + Members(required);
    ChildSeen(scope, st, lexical, NameSet(st.topLevel) + locals);
    RequiredScopes(st, lexical, scope.Child(), f.required, NameSet(st.topLevel) + locals);
    ShapeOfNext(st, bound, lexical);
    assert NameSet(st.topLevel) + locals + Members(required) == NameSet(bound.topLevel) + base;
    DefaultsScopes(bound, lexical, base, inner, f.defaults);
    var all := base + DefaultSet(defaults);
    NothingBound(ready, lexical, all);
    assert NameSet(ready.topLevel) + base + DefaultSet(defaults) == NameSet(ready.topLevel) + all;
    var middle := StatementsScopes(disk, ready, lexical, all, outer, apart, file, f.body);
    DefaultsLater(ready, lexical, base, defaults, body.state, middle);
    ShapeFunctions(st, lexical);
    GrowsToReady(st, bound, ready);
    after := CloseScopes(st, lexical, locals, required, defaults, ready, body, middle);
  }

  lemma ShapeOfNext(st: State, later: State, lexical: Lexical)
    requires Shape(st, lexical) && st.next <= later.next && later == st.(next := later.next)
    ensures Shape(later, lexical)
  {
    hide FunctionClosed, BodyClosed, ItemsSeen, NameSet, Prelude, Grows;
    SameLexical(lexical);
    PartsStay(st, lexical, later, lexical) by { NextGrows(st, later); }
  }

  lemma ShapeFunctions(st: State, lexical: Lexical)
    requires Shape(st, lexical)
    ensures FunctionsClosed(UnitOf(st, lexical), |st.nodes|)
  {
  }

  lemma GrowsToReady(st: State, bound: State, ready: State)
    requires st.next <= bound.next && bound == st.(next := bound.next) && Grows(bound, ready)
    ensures Grows(st, ready)
  {
  }

  lemma NextGrows(st: State, later: State)
    requires st.next <= later.next && later == st.(next := later.next)
    ensures Grows(st, later)
  {
  }

  lemma DefaultsLater(a: State, before: Lexical, base: set<Symbol>, defaults: seq<DefaultParam>, b: State,
                      after: Lexical)
    requires AllDefaultsClosed(UnitOf(a, before), defaults, NameSet(a.topLevel) + base, |a.functions|)
    requires Grows(a, b) && Extended(before, after)
    ensures AllDefaultsClosed(UnitOf(b, after), defaults, NameSet(b.topLevel) + base, |b.functions|)
  {
    hide DefaultClosed, NameSet;
    PrefixOf(a, b);
    forall k | 0 <= k < |defaults| ensures DefaultClosed(UnitOf(b, after), defaults, k, NameSet(b.topLevel) + base,
                                                         |b.functions|) {
      DefaultStays(UnitOf(a, before), UnitOf(b, after), defaults, k, NameSet(a.topLevel) + base,
                   NameSet(b.topLevel) + base,
                   |a.functions|, |b.functions|);
    }
  }

  /** What resolving a function leaves behind. */
  ghost predicate DefinitionDone(before: Lexical, from: FunctionId, after: Lexical, locals: set<Symbol>,
                                 r: (State, FunctionId)) {
    && Extended(before, after) && Shape(r.0, after)
    && |r.0.functions| == r.1 + 1 && r.1 in after && after[r.1].locals == locals && from <= r.1
    && AllPlaced(UnitOf(r.0, after), from, r.1)
    && SeenItem(Item.Function(r.1), r.0, after, NameSet(r.0.topLevel) + locals)
  }

  /** Adding a function whose parts are closed. */
  lemma CloseScopes(st: State, lexical: Lexical, locals: set<Symbol>, required: seq<Symbol>,
                    defaults: seq<DefaultParam>, ready: State, body: Step<Scope>, middle: Lexical)
    returns (after: Lexical)
    requires FunctionsClosed(UnitOf(st, lexical), |st.nodes|) && Shape(ready, lexical) && Grows(st, ready)
    requires Grows(ready, body.state)
    requires body.target.FunctionTarget? && body.target.result.Some?
    requires Done(lexical, |ready.functions|, middle, locals + Members(required) + DefaultSet(defaults), body)
    requires AllDefaultsClosed(UnitOf(body.state, middle), defaults,
                               NameSet(body.state.topLevel) + (locals + Members(required)),
                               |body.state.functions|)
    ensures var custom := Custom(required, defaults, body.target.body, body.target.result.value);
            DefinitionDone(lexical, |st.functions|, after, locals,
                           (body.state.(functions := body.state.functions + [custom]), |body.state.functions|))
  {
    hide NameSet, DefaultSet, RequiredSet, FunctionsClosed, BodyClosed, DefaultClosed, ItemsSeen, Prelude, ScopeSeen,
         Placed, Placing, AllDefaultsClosed, PreludeKept, Grows;
    var id, custom := |body.state.functions|, Custom(required, defaults, body.target.body, body.target.result.value);
    var end := body.state.(functions := body.state.functions + [custom]);
    after := middle[id := Surroundings(|body.state.topLevel|, locals)];
    var a, b := UnitOf(body.state, middle), UnitOf(end, after);
    assert end.topLevel[..|body.state.topLevel|] == end.topLevel;
    NewFunction(a, b, |end.nodes|, id);
    SetsOf(required, custom);
    CloseFunction(a, b, |end.nodes|, id, locals, body.target.body);
    AddFunction(body.state, middle, custom, after);
    PrefixesOf(st, ready);
    PrefixesOf(ready, body.state);
    OlderArePlaced(UnitOf(st, lexical), UnitOf(ready, lexical), b, |st.nodes|, |ready.nodes|);
    NewerArePlaced(a, b, |ready.functions|, id, locals, body.target);
  }

  lemma SetsOf(required: seq<Symbol>, f: Function)
    requires f.Custom? && f.required == required
    ensures Members(required) == RequiredSet(f)
  {
  }

  lemma AddFunction(st: State, before: Lexical, f: Function, after: Lexical)
    requires var end := st.(functions := st.functions + [f]);
             Shape(st, before) && WithFunction(UnitOf(st, before), UnitOf(end, after), |st.functions|)
             && Wider(UnitOf(st, before), UnitOf(end, after))
             && FunctionClosed(UnitOf(end, after), |end.nodes|, |st.functions|)
    ensures Shape(st.(functions := st.functions + [f]), after)
  {
    hide FunctionClosed, BodyClosed, ItemsSeen, NameSet, Prelude, Grows, PreludeKept;
    var end := st.(functions := st.functions + [f]);
    FunctionGrows(st, f);
    PartsStay(st, before, end, after);
  }

  lemma FunctionGrows(st: State, f: Function)
    ensures Grows(st, st.(functions := st.functions + [f]))
  {
  }

  lemma PrefixesOf(a: State, b: State)
    requires Grows(a, b)
    ensures a.functions <= b.functions
  {
  }

  /** `b` is `a` with one function more, whose surroundings are recorded. */
  ghost predicate WithFunction(a: Unit, b: Unit, id: FunctionId) {
    && id == |a.functions| && |b.functions| == id + 1 && b.functions[id].Custom? && a.functions <= b.functions
    && a.topLevel == b.topLevel && id in b.lexical && b.lexical == a.lexical[id := b.lexical[id]]
    && b.lexical[id].top == |b.topLevel|
  }

  lemma NewFunction(a: Unit, b: Unit, kinds: nat, id: FunctionId)
    requires WithFunction(a, b, id) && FunctionsClosed(a, kinds)
    ensures Wider(a, b) && forall f :: f in b.lexical ==> f < |b.functions|
  {
    hide FunctionClosed;
  }

  lemma CloseFunction(a: Unit, b: Unit, kinds: nat, id: FunctionId, locals: set<Symbol>, body: Body)
    requires WithFunction(a, b, id) && Wider(a, b) && b.lexical[id].locals == locals && b.functions[id].body == body
    requires AllDefaultsClosed(a, b.functions[id].defaults,
                               NameSet(a.topLevel) + (locals + RequiredSet(b.functions[id])), id)
    requires BodyClosed(a, body,
                        NameSet(a.topLevel)
                          + (locals + RequiredSet(b.functions[id]) + DefaultSet(b.functions[id].defaults)), id)
    requires b.functions[id].result in
               NameSet(a.topLevel)
                 + (locals + RequiredSet(b.functions[id]) + DefaultSet(b.functions[id].defaults) + NameSet(body))
    ensures FunctionClosed(b, kinds, id) && Callable(b, id, NameSet(b.topLevel) + locals)
  {
    hide NameSet, DefaultSet, RequiredSet, BodyClosed, DefaultClosed;
    var f := b.functions[id];
    var entered := NameSet(a.topLevel) + (locals + RequiredSet(f));
    var inside := NameSet(a.topLevel) + (locals + RequiredSet(f) + DefaultSet(f.defaults));
    assert b.topLevel[..|b.topLevel|] == a.topLevel;
    assert entered == Entered(b, id) && inside == Inside(b, id);
    forall k | 0 <= k < |f.defaults| ensures DefaultClosed(b, f.defaults, k, entered, id) {
      DefaultStays(a, b, f.defaults, k, entered, entered, id, id);
    }
    BodyStays(a, b, body, inside, inside, id, id);
  }

  /** Functions that expressions have added are built in. */
  lemma OlderArePlaced(a: Unit, b: Unit, end: Unit, kinds: nat, more: nat)
    requires FunctionsClosed(a, kinds) && FunctionsClosed(b, more) && a.lexical == b.lexical
    requires b.functions <= end.functions
    ensures AllPlaced(end, |a.functions|, |b.functions|)
  {
    hide FunctionsClosed, Placed;
    UnrecordedAreBuiltin(a, b, kinds, more);
    assert forall f :: |a.functions| <= f < |b.functions| ==> end.functions[f] == b.functions[f];
  }

  /** Functions defined in the body that has just been finished have their place in it. */
  lemma NewerArePlaced(a: Unit, b: Unit, from: FunctionId, id: FunctionId, locals: set<Symbol>, target: Target)
    requires WithFunction(a, b, id) && Wider(a, b) && b.lexical[id].locals == locals
    requires target.FunctionTarget? && b.functions[id].body == target.body
    requires Recorded(a, from, locals + RequiredSet(b.functions[id]) + DefaultSet(b.functions[id].defaults), target)
    ensures AllPlaced(b, from, id)
  {
    hide NameSet, DefaultSet, RequiredSet, Placed;
    var base := locals + RequiredSet(b.functions[id]) + DefaultSet(b.functions[id].defaults);
    forall f | from <= f < id && b.functions[f].Custom? ensures f in b.lexical && Placed(b, f) {
      assert a.functions[f].Custom? && Placing(a, f, base, target);
      if Placed(a, f) {
        PlacedStays(a, b, f);
      } else {
        var pos: nat :| pos <= |target.body| && DefinedAt(a, f, base, target.body, pos);
        assert DefinedIn(b, f, id, pos);
        PlacedHere(b, f, id, pos);
      }
    }
  }

  lemma PlacedHere(u: Unit, f: FunctionId, g: FunctionId, pos: nat)
    requires f in u.lexical && f < g && DefinedIn(u, f, g, pos)
    ensures Placed(u, f)
  {
  }

  /** What getting a module leaves behind. */
  ghost predicate ModuleDone(before: Lexical, from: FunctionId, after: Lexical, r: (State, nat)) {
    && Extended(before, after) && Shape(r.0, after) && r.1 < |r.0.modules|
    && AllPlaced(UnitOf(r.0, after), from, |r.0.functions|)
  }

  /** After a file has been resolved, every use in what was emitted follows its definition. */
  lemma {:induction false} ModuleScopes(disk: Ast.Disk, st: State, lexical: Lexical, file: string)
    returns (after: Lexical)
    requires Shape(st, lexical) && GetModule(disk, st, file).Ok?
    ensures ModuleDone(lexical, |st.functions|, after, GetModule(disk, st, file).value)
    decreases disk.files.Keys - st.moduleCache.Keys, 0
  {
    hide Shape, Grows, InView, ResolveStatements, PreludeScope, ItemsSeen, Recorded, Placed;
    if file in st.moduleCache {
      after := lexical;
      SameLexical(lexical);
      CachedIsSeen(st, lexical, file);
    } else {
      var begun := st.(moduleCache := st.moduleCache[file := None]);
      assert file in disk.files.Keys - st.moduleCache.Keys;
      var scope, target := PreludeScope().Child(), ModuleTarget(map[]);
      BeginScopes(st, lexical, file);
      after := StatementsScopes(disk, begun, lexical, {}, scope, target, file, disk.files[file]);
      var s := ResolveStatements(disk, begun, scope, target, file, disk.files[file]).value;
      RecordedAreAllPlaced(UnitOf(s.state, after), |st.functions|, s.target);
      FinishScopes(s, after, file);
    }
  }

  lemma CachedIsSeen(st: State, lexical: Lexical, file: string)
    requires Shape(st, lexical) && file in st.moduleCache && st.moduleCache[file].Some?
    ensures st.moduleCache[file].value < |st.modules|
  {
  }

  lemma BeginScopes(st: State, lexical: Lexical, file: string)
    requires Shape(st, lexical)
    ensures InOrder(st.(moduleCache := st.moduleCache[file := None]), lexical, {}, ModuleTarget(map[]))
    ensures InView(st.(moduleCache := st.moduleCache[file := None]), lexical, {}, ModuleTarget(map[]),
                   PreludeScope().Child())
  {
    hide FunctionClosed, BodyClosed, NameSet;
    var begun := st.(moduleCache := st.moduleCache[file := None]);
    assert UnitOf(begun, lexical) == UnitOf(st, lexical);
    ModulesSame(st, begun, lexical);
    PreludeSeen(begun, lexical, View(begun, {}, ModuleTarget(map[])));
  }

  lemma ModulesSame(a: State, b: State, lexical: Lexical)
    requires a.functions == b.functions && a.topLevel == b.topLevel && a.modules == b.modules
    requires forall i :: 0 <= i < |a.modules| ==> ItemsSeen(a.modules[i], a, lexical)
    ensures forall i :: 0 <= i < |b.modules| ==> ItemsSeen(b.modules[i], b, lexical)
  {
    forall i | 0 <= i < |b.modules| ensures ItemsSeen(b.modules[i], b, lexical) {
      assert ItemsSeen(a.modules[i], a, lexical);
    }
  }

  lemma PreludeSeen(st: State, lexical: Lexical, seen: set<Symbol>)
    requires PreludeKept(st.functions)
    ensures ScopeSeen(PreludeScope().Child(), st, lexical, seen)
  {
    hide Prelude;
    ChildSeen(PreludeScope(), st, lexical, seen);
  }

  lemma RecordedAreAllPlaced(u: Unit, from: FunctionId, target: Target)
    requires Recorded(u, from, {}, target) && target.ModuleTarget?
    ensures AllPlaced(u, from, |u.functions|)
  {
    hide Placed;
  }

  /** Storing the exports of a module that has just been resolved. */
  lemma FinishScopes(s: Step<Scope>, lexical: Lexical, file: string)
    requires Shape(s.state, lexical) && TargetClosed(s.state, lexical, {}, s.target) && s.target.ModuleTarget?
    ensures Shape(s.state.(modules := s.state.modules + [s.target.exports],
                           moduleCache := s.state.moduleCache[file := Some(|s.state.modules|)]), lexical)
  {
    hide FunctionClosed, BodyClosed, NameSet, ItemsSeen;
    var after := s.state.(modules := s.state.modules + [s.target.exports],
                          moduleCache := s.state.moduleCache[file := Some(|s.state.modules|)]);
    assert UnitOf(after, lexical) == UnitOf(s.state, lexical);
    forall i | 0 <= i < |after.modules| ensures ItemsSeen(after.modules[i], after, lexical) {
      MoreModules(after.modules[i], s.state, after, lexical);
    }
  }

  lemma MoreModules(items: Items, a: State, b: State, lexical: Lexical)
    requires ItemsSeen(items, a, lexical)
    requires a.functions == b.functions && a.topLevel == b.topLevel && a.modules <= b.modules
    ensures ItemsSeen(items, b, lexical)
  {
    hide NameSet;
  }
}
