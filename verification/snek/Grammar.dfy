/** The grammar of token lists, described without parsing: in which ways each piece of syntax can be
    written. The parser accepts exactly what the grammar allows and yields what was written. */
module Grammar {
  import opened Wrappers
  import Ast
  import opened Tokenizers
  import opened Parsers

  function PartTokens(parts: seq<string>): seq<Token> {
    if parts == [] then [] else [Path, Ident(parts[0])] + PartTokens(parts[1..])
  }

  function PathTokens(p: Ast.ItemPath): seq<Token> {
    [Ident(p.base)] + PartTokens(p.rest)
  }

  /** Items, each after a comma unless it is the first, and the closing parenthesis. */
  function PathsTokens(ps: seq<Ast.ItemPath>, first: bool): seq<Token> {
    if ps == [] then [ClosingParen] else Separator(first) + PathTokens(ps[0]) + PathsTokens(ps[1..], false)
  }

  function Separator(first: bool): seq<Token> {
    if first then [] else [Comma]
  }

  /** What a node waits for can be written in parentheses, or without them if it is one path; a node that
      waits for nothing may do without any of it. */
  predicate WaitForm(ts: Tokens, ps: seq<Ast.ItemPath>) {
    || (ts == [] && ps == [])
    || ts == [Wait, OpenParen] + PathsTokens(ps, true)
    || (|ps| == 1 && ts == [Wait] + PathTokens(ps[0]))
  }

  ghost predicate ExpressionForm(ts: Tokens, e: Ast.Expression)
    decreases e, 1
  {
    match e
    case Number(n) => 0 <= n && ts == [Numeric(n)]
    case Text(t) => ts == [Str(t)]
    case Label(p) => ts == PathTokens(p)
    case Call(n) => NodeForm(ts, n)
    case Chain(start, nodes) =>
      && !start.Chain? && nodes != []
      && exists a, b :: ts == a + b && ExpressionForm(a, start) && ChainForm(b, nodes)
  }

  ghost predicate ChainForm(ts: Tokens, ns: seq<Ast.Node>)
    decreases ns, 0
  {
    if ns == [] then ts == [] else exists a, b :: ts == [Pipe] + a + b && NodeForm(a, ns[0]) && ChainForm(b, ns[1..])
  }

  ghost predicate NodeForm(ts: Tokens, n: Ast.Node)
    decreases n, 1
  {
    exists w, a ::
      ts == w + PathTokens(n.name) + [OpenParen] + a && WaitForm(w, n.phantoms) && ArgumentsForm(a, n.arguments, true)
  }

  ghost predicate ArgumentsForm(ts: Tokens, es: seq<Ast.Expression>, first: bool)
    decreases es, 0
  {
    if es == [] then ts == [ClosingParen]
    else exists a, b :: ts == Separator(first) + a + b && ExpressionForm(a, es[0]) && ArgumentsForm(b, es[1..], false)
  }

  function ExportTokens(exported: bool): seq<Token> {
    if exported then [Export] else []
  }

  /** The parameters of a function in the order in which they are written. */
  function Parameters(f: Ast.Function): seq<Parameter> {
    RequiredParameters(f.required) + DefaultParameters(f.defaults)
  }

  function RequiredParameters(names: seq<string>): (r: seq<Parameter>)
    ensures |r| == |names| && forall i :: 0 <= i < |r| ==> r[i] == Parameter(names[i], None)
  {
    seq(|names|, i requires 0 <= i < |names| => Parameter(names[i], None))
  }

  function DefaultParameters(ds: seq<Ast.Default>): (r: seq<Parameter>)
    ensures |r| == |ds| && forall i :: 0 <= i < |r| ==> r[i] == Parameter(ds[i].name, Some(ds[i].value))
  {
    seq(|ds|, i requires 0 <= i < |ds| => Parameter(ds[i].name, Some(ds[i].value)))
  }

  ghost predicate ParameterForm(ts: Tokens, p: Parameter) {
    match p.default_
    case None => ts == [Ident(p.name)]
    case Some(e) => exists a :: ts == [Ident(p.name), Eq] + a && ExpressionForm(a, e)
  }

  ghost predicate ParametersForm(ts: Tokens, ps: seq<Parameter>, first: bool)
    decreases |ps|
  {
    if ps == [] then ts == [ClosingParen]
    else exists a, b :: ts == Separator(first) + a + b && ParameterForm(a, ps[0]) && ParametersForm(b, ps[1..], false)
  }

  ghost predicate StatementForm(ts: Tokens, s: Ast.Statement)
    decreases s, 1
  {
    match s
    case Return(e) => exists a :: ts == [Return] + a + [SemiColon] && ExpressionForm(a, e)
    case Import(exported, path, name) => ts == ExportTokens(exported) + [Import, Str(path), As, Ident(name), SemiColon]
    case Assign(exported, e, name) =>
      exists a :: ts == ExportTokens(exported) + [Ident(name), Eq] + a + [SemiColon] && ExpressionForm(a, e)
    case Def(exported, f) =>
      exists a, b ::
        && ts == ExportTokens(exported) + [Def, Ident(f.name), OpenParen] + a + [OpenBracket] + b + [ClosingBracket]
        && ParametersForm(a, Parameters(f), true) && StatementsForm(b, f.body)
  }

  ghost predicate StatementsForm(ts: Tokens, ss: seq<Ast.Statement>)
    decreases ss, 0
  {
    if ss == [] then ts == [] else exists a, b :: ts == a + b && StatementForm(a, ss[0]) && StatementsForm(b, ss[1..])
  }

  /** A token that can follow a path without becoming part of what it names. */
  predicate Ends(ts: Tokens) {
    ts != [] && ts[0] != Path && ts[0] != OpenParen
  }

  /** A token that can follow an expression. */
  predicate Stops(ts: Tokens) {
    Ends(ts) && ts[0] != Pipe
  }

  lemma {:induction false} ReadParts(parts: seq<string>, r: Tokens)
    requires r != [] && r[0] != Path
    ensures ParseParts(PartTokens(parts) + r) == Ok((parts, r))
    decreases |parts|
  {
    var ts := PartTokens(parts) + r;
    if parts == [] {
      assert ts == r;
    } else {
      assert ts == [Path, Ident(parts[0])] + (PartTokens(parts[1..]) + r);
      assert ts[1..] == [Ident(parts[0])] + (PartTokens(parts[1..]) + r);
      assert ts[1..][1..] == PartTokens(parts[1..]) + r;
      ReadParts(parts[1..], r);
      assert parts == [parts[0]] + parts[1..];
    }
  }

  lemma ReadPath(p: Ast.ItemPath, r: Tokens)
    requires r != [] && r[0] != Path
    ensures ParsePath(PathTokens(p) + r) == Ok((p, r))
  {
    hide ParseParts, PartTokens;
    assert (PathTokens(p) + r)[1..] == PartTokens(p.rest) + r;
    ReadParts(p.rest, r);
  }

  lemma ReadSeparator(first: bool, r: Tokens)
    ensures Separated(Separator(first) + r, first) == Ok(r)
  {
    if first { assert [] + r == r; } else { assert ([Comma] + r)[1..] == r; }
  }

  /** What is written from left to right is read from right to left. */
  lemma Regroup(x: Tokens, a: Tokens, b: Tokens, r: Tokens)
    ensures x + a + b + r == x + (a + (b + r))
  {
  }

  lemma Regroup3(a: Tokens, b: Tokens, r: Tokens)
    ensures a + b + r == a + (b + r)
  {
  }

  lemma {:induction false} ReadPaths(ps: seq<Ast.ItemPath>, first: bool, r: Tokens)
    ensures ParsePaths(PathsTokens(ps, first) + r, first) == Ok((ps, r))
    decreases |ps|
  {
    hide ParsePath, PathTokens, Separated, Separator;
    var ts := PathsTokens(ps, first) + r;
    if ps == [] {
      assert ts[1..] == r;
    } else {
      var after := PathsTokens(ps[1..], false) + r;
      assert ts == Separator(first) + (PathTokens(ps[0]) + after);
      ReadSeparator(first, PathTokens(ps[0]) + after);
      PathsStart(ps[1..], r);
      ReadPath(ps[0], after);
      ItemNotClosing(first, ps[0], after);
      ReadPaths(ps[1..], false, r);
      assert ps == [ps[0]] + ps[1..];
    }
  }

  lemma PathsStart(ps: seq<Ast.ItemPath>, r: Tokens)
    ensures Ends(PathsTokens(ps, false) + r)
  {
  }

  lemma ItemNotClosing(first: bool, p: Ast.ItemPath, r: Tokens)
    ensures Separator(first) + (PathTokens(p) + r) != [] && (Separator(first) + (PathTokens(p) + r))[0] != ClosingParen
  {
  }

  lemma PathStarts(p: Ast.ItemPath, r: Tokens)
    ensures PathTokens(p) + r != [] && (PathTokens(p) + r)[0] == Ident(p.base)
  {
  }

  lemma ReadPhantoms(w: Tokens, ps: seq<Ast.ItemPath>, r: Tokens)
    requires WaitForm(w, ps) && r != [] && r[0] != Wait && r[0] != Path
    ensures ParsePhantoms(w + r) == Ok((ps, r))
  {
    hide ParsePaths, ParsePath, PathsTokens, PathTokens;
    var ts := w + r;
    if w == [] {
      assert ts == r;
    } else if w == [Wait, OpenParen] + PathsTokens(ps, true) {
      assert ts == [Wait, OpenParen] + (PathsTokens(ps, true) + r);
      assert ts[1..] != [] && ts[2..] == PathsTokens(ps, true) + r;
      ReadPaths(ps, true, r);
    } else {
      assert ts == [Wait] + (PathTokens(ps[0]) + r);
      assert ts[1..] == PathTokens(ps[0]) + r;
      PathStarts(ps[0], r);
      ReadPath(ps[0], r);
      assert ps == [ps[0]];
    }
  }

  /** Every way to write a node is read as that node. */
  lemma {:induction false} ReadNode(ts: Tokens, n: Ast.Node, r: Tokens)
    requires NodeForm(ts, n)
    ensures ParseNode(ts + r) == ParseAtomNode(ts + r) == Ok((n, r))
    decreases n, 1
  {
    hide ParsePath, ParsePhantoms, ParseArguments, PathTokens, WaitForm, ArgumentsForm;
    var w, a :|
      ts == w + PathTokens(n.name) + [OpenParen] + a && WaitForm(w, n.phantoms) && ArgumentsForm(a, n.arguments, true);
    var call := [OpenParen] + (a + r);
    assert ts + r == w + (PathTokens(n.name) + call);
    PathStarts(n.name, call);
    ReadPhantoms(w, n.phantoms, PathTokens(n.name) + call);
    ReadPath(n.name, call);
    assert call[1..] == a + r;
    ReadArguments(a, n.arguments, true, r);
    WaitStarts(w, n.phantoms);
    if w == [] { assert ts + r == PathTokens(n.name) + call; } else { assert (ts + r)[0] == w[0]; }
  }

  /** A call, with or without something to wait for, where an expression may stand. */
  function ParseAtomNode(ts: Tokens): Parsed<Ast.Node> {
    match ParseAtom(ts)
    case Ok(p) => if p.0.Call? then Ok((p.0.node, p.1)) else Err(EndOfTokens)
    case Err(e) => Err(e)
  }

  lemma WaitStarts(w: Tokens, ps: seq<Ast.ItemPath>)
    requires WaitForm(w, ps)
    ensures w != [] ==> w[0] == Wait
    ensures w == [] ==> ps == []
  {
    hide PathsTokens, PathTokens;
  }

  lemma {:induction false} ReadArguments(ts: Tokens, es: seq<Ast.Expression>, first: bool, r: Tokens)
    requires ArgumentsForm(ts, es, first)
    ensures ParseArguments(ts + r, first) == Ok((es, r))
    decreases es, 0
  {
    hide ParseExpression, ParseArguments, ExpressionForm, ArgumentsForm, Separated, Separator, Stops;
    if es == [] {
      NoArguments(ts, first, r);
    } else {
      var a, b := SplitArguments(ts, es, first);
      Regroup(Separator(first), a, b, r);
      ReadSeparator(first, a + (b + r));
      ArgumentsStop(b, es[1..], r);
      ReadExpression(a, es[0], b + r);
      ArgumentNotClosing(first, a, es[0], b + r);
      ReadArguments(b, es[1..], false, r);
      OneArgument(ts + r, first, a + (b + r), es[0], b + r);
      assert es == [es[0]] + es[1..];
    }
  }

  lemma NoArguments(ts: Tokens, first: bool, r: Tokens)
    requires ArgumentsForm(ts, [], first)
    ensures ParseArguments(ts + r, first) == Ok(([], r))
  {
    assert (ts + r)[1..] == r;
  }

  lemma SplitArguments(ts: Tokens, es: seq<Ast.Expression>, first: bool) returns (a: Tokens, b: Tokens)
    requires es != [] && ArgumentsForm(ts, es, first)
    ensures ts == Separator(first) + a + b && ExpressionForm(a, es[0]) && ArgumentsForm(b, es[1..], false)
  {
    hide ExpressionForm, Separator;
    a, b :| ts == Separator(first) + a + b && ExpressionForm(a, es[0]) && ArgumentsForm(b, es[1..], false);
  }

  /** One argument and what follows it. */
  lemma OneArgument(ts: Tokens, first: bool, item: Tokens, e: Ast.Expression, rest: Tokens)
    requires ts != [] && ts[0] != ClosingParen && Separated(ts, first) == Ok(item)
    requires ParseExpression(item) == Ok((e, rest))
    ensures ParseArguments(ts, first) == Prepend([e], ParseArguments(rest, false))
  {
    hide ParseExpression, Separated;
  }

  lemma ArgumentsStop(ts: Tokens, es: seq<Ast.Expression>, r: Tokens)
    requires ArgumentsForm(ts, es, false)
    ensures Stops(ts + r)
  {
    hide ExpressionForm;
    if es != [] {
      var a, b :| ts == Separator(false) + a + b && ExpressionForm(a, es[0]) && ArgumentsForm(b, es[1..], false);
      assert ts[0] == Comma;
    }
  }

  lemma {:induction false} ExpressionStarts(ts: Tokens, e: Ast.Expression)
    requires ExpressionForm(ts, e)
    ensures ts != [] && ts[0] != ClosingParen
    decreases e
  {
    hide ArgumentsForm, ChainForm, WaitForm;
    match e
    case Number(n) =>
    case Text(t) =>
    case Label(p) =>
    case Call(n) =>
      NodeStarts(ts, n);
    case Chain(start, nodes) =>
      var a, b :| ts == a + b && ExpressionForm(a, start) && ChainForm(b, nodes);
      ExpressionStarts(a, start);
      assert ts[0] == a[0];
  }

  lemma NodeStarts(ts: Tokens, n: Ast.Node)
    requires NodeForm(ts, n)
    ensures ts != [] && ts[0] != ClosingParen
  {
    hide ArgumentsForm, WaitForm;
    var w, a :|
      ts == w + PathTokens(n.name) + [OpenParen] + a && WaitForm(w, n.phantoms) && ArgumentsForm(a, n.arguments, true);
    WaitStarts(w, n.phantoms);
    if w != [] { assert ts[0] == w[0]; }
  }

  lemma ArgumentNotClosing(first: bool, ts: Tokens, e: Ast.Expression, r: Tokens)
    requires ExpressionForm(ts, e)
    ensures Separator(first) + (ts + r) != [] && (Separator(first) + (ts + r))[0] != ClosingParen
  {
    hide ExpressionForm;
    ExpressionStarts(ts, e);
  }

  lemma {:induction false} ReadAtom(ts: Tokens, e: Ast.Expression, r: Tokens)
    requires ExpressionForm(ts, e) && !e.Chain? && Ends(r)
    ensures ParseAtom(ts + r) == Ok((e, r))
    decreases e, 0
  {
    hide ParsePath, ParseNode, ParseCall, PathTokens, NodeForm;
    match e
    case Number(n) => assert (ts + r)[1..] == r;
    case Text(t) => assert (ts + r)[1..] == r;
    case Label(p) =>
      PathStarts(p, r);
      ReadPath(p, r);
    case Call(n) => ReadNode(ts, n, r);
  }

  lemma {:induction false} ReadChain(ts: Tokens, ns: seq<Ast.Node>, r: Tokens)
    requires ChainForm(ts, ns) && Stops(r)
    ensures ParseChain(ts + r) == Ok((ns, r))
    decreases ns, 0
  {
    hide ParseNode, NodeForm, ParseAtom, ParseChain, ChainForm;
    if ns == [] {
      NoLinks(ts, r);
    } else {
      var a, b := SplitChain(ts, ns);
      ReadNode(a, ns[0], b + r);
      ReadChain(b, ns[1..], r);
      Regroup([Pipe], a, b, r);
      OneLink(a + (b + r), ns[0], b + r);
      assert ns == [ns[0]] + ns[1..];
    }
  }

  lemma NoLinks(ts: Tokens, r: Tokens)
    requires ChainForm(ts, []) && Stops(r)
    ensures ParseChain(ts + r) == Ok(([], r))
  {
    assert ts + r == r;
  }

  lemma SplitChain(ts: Tokens, ns: seq<Ast.Node>) returns (a: Tokens, b: Tokens)
    requires ns != [] && ChainForm(ts, ns)
    ensures ts == [Pipe] + a + b && NodeForm(a, ns[0]) && ChainForm(b, ns[1..])
  {
    hide NodeForm;
    a, b :| ts == [Pipe] + a + b && NodeForm(a, ns[0]) && ChainForm(b, ns[1..]);
  }

  lemma OneLink(ts: Tokens, node: Ast.Node, rest: Tokens)
    requires ParseNode(ts) == Ok((node, rest))
    ensures ParseChain([Pipe] + ts) == Prepend([node], ParseChain(rest))
  {
    hide ParseNode;
    assert ([Pipe] + ts)[1..] == ts;
  }

  /** Every way to write an expression is read as that expression, up to a token that ends it. */
  lemma {:induction false} ReadExpression(ts: Tokens, e: Ast.Expression, r: Tokens)
    requires ExpressionForm(ts, e) && Stops(r)
    ensures ParseExpression(ts + r) == Ok((e, r))
    decreases e, 1
  {
    hide ParseAtom, ParseChain, ChainForm;
    if e.Chain? {
      var a, b :| ts == a + b && ExpressionForm(a, e.start) && ChainForm(b, e.nodes);
      assert ts + r == a + (b + r);
      ChainStarts(b, e.nodes, r);
      ReadAtom(a, e.start, b + r);
      ReadChain(b, e.nodes, r);
    } else {
      ReadAtom(ts, e, r);
    }
  }

  lemma ChainStarts(ts: Tokens, ns: seq<Ast.Node>, r: Tokens)
    requires ns != [] && ChainForm(ts, ns)
    ensures ts + r != [] && (ts + r)[0] == Pipe
  {
    hide NodeForm;
  }

  lemma {:induction false} SplitRequired(names: seq<string>)
    ensures SplitParameters(RequiredParameters(names)) == Ok((names, []))
    decreases |names|
  {
    if names != [] {
      var before := names[..|names| - 1];
      SplitRequired(before);
      assert RequiredParameters(names)[..|names| - 1] == RequiredParameters(before);
      assert names == before + [names[|names| - 1]];
    }
  }

  /** Required parameters and defaults are told apart again. */
  lemma {:induction false} SplitBoth(names: seq<string>, ds: seq<Ast.Default>)
    ensures SplitParameters(RequiredParameters(names) + DefaultParameters(ds)) == Ok((names, ds))
    decreases |ds|
  {
    var ps := RequiredParameters(names) + DefaultParameters(ds);
    if ds == [] {
      SplitRequired(names);
      assert ps == RequiredParameters(names);
    } else {
      var before := ds[..|ds| - 1];
      SplitBoth(names, before);
      assert ps[..|ps| - 1] == RequiredParameters(names) + DefaultParameters(before);
      assert ds == before + [ds[|ds| - 1]];
    }
  }

  lemma ParametersAre(f: Ast.Function)
    ensures Parameters(f) == RequiredParameters(f.required) + DefaultParameters(f.defaults)
  {
  }

  lemma ReadParameter(ts: Tokens, p: Parameter, r: Tokens)
    requires ParameterForm(ts, p) && Stops(r) && r[0] != Eq
    ensures ParseParameter(ts + r) == Ok((p, r))
  {
    hide ParseExpression, ExpressionForm;
    match p.default_
    case None => assert (ts + r)[1..] == r;
    case Some(e) =>
      var a :| ts == [Ident(p.name), Eq] + a && ExpressionForm(a, e);
      assert (ts + r)[1..] == [Eq] + (a + r) && (ts + r)[1..][1..] == a + r;
      ReadExpression(a, e, r);
  }

  lemma {:induction false} ReadParameters(ts: Tokens, ps: seq<Parameter>, first: bool, r: Tokens)
    requires ParametersForm(ts, ps, first)
    ensures ParseParameters(ts + r, first) == Ok((ps, r))
    decreases |ps|
  {
    hide ParseParameter, ParseParameters, ParameterForm, ParametersForm, Separated, Separator, Stops;
    if ps == [] {
      NoParameters(ts, first, r);
    } else {
      var a, b := CutParameters(ts, ps, first);
      Regroup(Separator(first), a, b, r);
      ReadSeparator(first, a + (b + r));
      ParametersStop(b, ps[1..], r);
      ReadParameter(a, ps[0], b + r);
      ParameterNotClosing(first, a, ps[0], b + r);
      ReadParameters(b, ps[1..], false, r);
      OneParameter(ts + r, first, a + (b + r), ps[0], b + r);
      assert ps == [ps[0]] + ps[1..];
    }
  }

  lemma NoParameters(ts: Tokens, first: bool, r: Tokens)
    requires ParametersForm(ts, [], first)
    ensures ParseParameters(ts + r, first) == Ok(([], r))
  {
    assert (ts + r)[1..] == r;
  }

  lemma CutParameters(ts: Tokens, ps: seq<Parameter>, first: bool) returns (a: Tokens, b: Tokens)
    requires ps != [] && ParametersForm(ts, ps, first)
    ensures ts == Separator(first) + a + b && ParameterForm(a, ps[0]) && ParametersForm(b, ps[1..], false)
  {
    hide ParameterForm, Separator;
    a, b :| ts == Separator(first) + a + b && ParameterForm(a, ps[0]) && ParametersForm(b, ps[1..], false);
  }

  lemma OneParameter(ts: Tokens, first: bool, item: Tokens, p: Parameter, rest: Tokens)
    requires ts != [] && ts[0] != ClosingParen && Separated(ts, first) == Ok(item)
    requires ParseParameter(item) == Ok((p, rest))
    ensures ParseParameters(ts, first) == Prepend([p], ParseParameters(rest, false))
  {
    hide ParseParameter, Separated;
  }

  lemma ParametersStop(ts: Tokens, ps: seq<Parameter>, r: Tokens)
    requires ParametersForm(ts, ps, false)
    ensures Stops(ts + r) && (ts + r)[0] != Eq
  {
    hide ParameterForm;
    if ps != [] {
      var a, b :| ts == Separator(false) + a + b && ParameterForm(a, ps[0]) && ParametersForm(b, ps[1..], false);
      assert ts[0] == Comma;
    }
  }

  lemma ParameterNotClosing(first: bool, ts: Tokens, p: Parameter, r: Tokens)
    requires ParameterForm(ts, p)
    ensures Separator(first) + (ts + r) != [] && (Separator(first) + (ts + r))[0] != ClosingParen
  {
    hide ExpressionForm;
    assert ts[0] == Ident(p.name);
  }

  lemma ReadEnd(a: Tokens, e: Ast.Expression, r: Tokens)
    requires ExpressionForm(a, e)
    ensures ParseExpression(a + [SemiColon] + r) == Ok((e, [SemiColon] + r))
    ensures Expect([SemiColon] + r, SemiColon) == Ok((SemiColon, r))
  {
    hide ParseExpression, ExpressionForm;
    assert a + [SemiColon] + r == a + ([SemiColon] + r);
    ReadExpression(a, e, [SemiColon] + r);
    assert ([SemiColon] + r)[1..] == r;
  }

  lemma ReadReturn(a: Tokens, e: Ast.Expression, r: Tokens)
    requires ExpressionForm(a, e)
    ensures ParseStatement([Return] + a + [SemiColon] + r) == Ok((Ast.Return(e), r))
  {
    hide ParseExpression, ExpressionForm, Expect;
    var ts := [Return] + a + [SemiColon] + r;
    assert ts[1..] == a + [SemiColon] + r;
    ReadEnd(a, e, r);
  }

  lemma ReadLabel(exported: bool, a: Tokens, e: Ast.Expression, name: string, r: Tokens)
    requires ExpressionForm(a, e)
    ensures ParseLabel([Eq] + a + [SemiColon] + r, exported, name) == Ok((Ast.Assign(exported, e, name), r))
  {
    hide ParseExpression, ExpressionForm;
    var ts := [Eq] + a + [SemiColon] + r;
    assert ts[1..] == a + [SemiColon] + r;
    ReadEnd(a, e, r);
  }

  lemma ReadImport(exported: bool, path: string, name: string, r: Tokens)
    ensures ParseImport([Str(path), As, Ident(name), SemiColon] + r, exported)
         == Ok((Ast.Import(exported, path, name), r))
  {
    var ts := [Str(path), As, Ident(name), SemiColon] + r;
    assert ts[1..] == [As, Ident(name), SemiColon] + r;
    assert ts[1..][1..] == [Ident(name), SemiColon] + r;
    assert ts[1..][1..][1..] == [SemiColon] + r;
    assert ts[1..][1..][1..][1..] == r;
  }

  /** A statement that may be exported is read by its first token, whether `export` comes before it or not. */
  lemma ReadDeclaration(exported: bool, first: Token, rest: Tokens)
    requires first != Return && first != Export
    ensures ParseStatement(ExportTokens(exported) + [first] + rest) == ParseDeclaration(first, rest, exported)
  {
    hide ParseDeclaration;
    var ts := ExportTokens(exported) + [first] + rest;
    if exported {
      assert ts[1..] == [first] + rest && ts[1..][1..] == rest;
    } else {
      assert ts == [first] + rest && ts[1..] == rest;
    }
  }

  lemma {:induction false} ReadFunction(exported: bool, a: Tokens, b: Tokens, f: Ast.Function, r: Tokens)
    requires ParametersForm(a, Parameters(f), true) && StatementsForm(b, f.body)
    ensures ParseFunction([Ident(f.name), OpenParen] + a + [OpenBracket] + b + [ClosingBracket] + r, exported)
         == Ok((Ast.Def(exported, f), r))
    decreases f.body, 2
  {
    hide ParseParameters, ParseStatements, ParametersForm, StatementsForm, Parameters;
    var inside := b + [ClosingBracket] + r;
    var ts := [Ident(f.name), OpenParen] + a + [OpenBracket] + b + [ClosingBracket] + r;
    assert ts == [Ident(f.name), OpenParen] + (a + ([OpenBracket] + inside));
    assert ts[1..] == [OpenParen] + (a + ([OpenBracket] + inside));
    assert ts[1..][1..] == a + ([OpenBracket] + inside) && ([OpenBracket] + inside)[1..] == inside;
    ReadParameters(a, Parameters(f), true, [OpenBracket] + inside);
    ParametersAre(f);
    SplitBoth(f.required, f.defaults);
    ReadStatements(b, f.body, r);
  }

  /** Every way to write a statement is read as that statement. */
  lemma {:induction false} ReadStatement(ts: Tokens, s: Ast.Statement, r: Tokens)
    requires StatementForm(ts, s)
    ensures ParseStatement(ts + r) == Ok((s, r))
    decreases s, 1
  {
    hide ParseStatement, ParseLabel, ParseImport, ParseFunction, ExpressionForm, StatementsForm, ParametersForm,
         ExportTokens;
    match s
    case Return(e) =>
      var a :| ts == [Return] + a + [SemiColon] && ExpressionForm(a, e);
      ReadReturn(a, e, r);
    case Import(exported, path, name) =>
      var rest := [Str(path), As, Ident(name), SemiColon] + r;
      ImportTokens(ExportTokens(exported), path, name, r);
      ReadDeclaration(exported, Token.Import, rest);
      ReadImport(exported, path, name, r);
    case Assign(exported, e, name) =>
      var a :| ts == ExportTokens(exported) + [Ident(name), Eq] + a + [SemiColon] && ExpressionForm(a, e);
      AssignTokens(ExportTokens(exported), name, a, r);
      ReadAssign(exported, a, e, name, r);
    case Def(exported, f) =>
      var a, b :|
        && ts == ExportTokens(exported) + [Def, Ident(f.name), OpenParen] + a + [OpenBracket] + b + [ClosingBracket]
        && ParametersForm(a, Parameters(f), true) && StatementsForm(b, f.body);
      var rest := [Ident(f.name), OpenParen] + a + [OpenBracket] + b + [ClosingBracket] + r;
      DefinitionTokens(ExportTokens(exported), f.name, a, b, r);
      ReadDeclaration(exported, Token.Def, rest);
      ReadFunction(exported, a, b, f, r);
  }

  lemma ReadAssign(exported: bool, a: Tokens, e: Ast.Expression, name: string, r: Tokens)
    requires ExpressionForm(a, e)
    ensures ParseStatement(ExportTokens(exported) + [Ident(name)] + ([Eq] + a + [SemiColon] + r))
         == Ok((Ast.Assign(exported, e, name), r))
  {
    hide ParseStatement, ParseLabel, ExpressionForm, ExportTokens;
    ReadDeclaration(exported, Ident(name), [Eq] + a + [SemiColon] + r);
    ReadLabel(exported, a, e, name, r);
  }

  lemma AssignTokens(x: Tokens, name: string, a: Tokens, r: Tokens)
    ensures x + [Ident(name), Eq] + a + [SemiColon] + r == x + [Ident(name)] + ([Eq] + a + [SemiColon] + r)
  {
  }

  lemma ImportTokens(x: Tokens, path: string, name: string, r: Tokens)
    ensures x + [Import, Str(path), As, Ident(name), SemiColon] + r
         == x + [Import] + ([Str(path), As, Ident(name), SemiColon] + r)
  {
  }

  lemma DefinitionTokens(x: Tokens, name: string, a: Tokens, b: Tokens, r: Tokens)
    ensures x + [Def, Ident(name), OpenParen] + a + [OpenBracket] + b + [ClosingBracket] + r
         == x + [Def] + ([Ident(name), OpenParen] + a + [OpenBracket] + b + [ClosingBracket] + r)
  {
  }

  lemma StatementStarts(ts: Tokens, s: Ast.Statement, r: Tokens)
    requires StatementForm(ts, s)
    ensures ts + r != [] && (ts + r)[0] != ClosingBracket && (ts + r)[0] != Eof
  {
    hide ExpressionForm, ParametersForm, StatementsForm;
  }

  lemma {:induction false} ReadStatements(ts: Tokens, ss: seq<Ast.Statement>, r: Tokens)
    requires StatementsForm(ts, ss)
    ensures ParseStatements(ts + [ClosingBracket] + r) == Ok((ss, r))
    decreases ss, 0
  {
    hide ParseStatement, StatementForm;
    if ss == [] {
      assert ts + [ClosingBracket] + r == [ClosingBracket] + r && ([ClosingBracket] + r)[1..] == r;
    } else {
      var a, b :| ts == a + b && StatementForm(a, ss[0]) && StatementsForm(b, ss[1..]);
      var after := b + [ClosingBracket] + r;
      assert ts + [ClosingBracket] + r == a + after;
      StatementStarts(a, ss[0], after);
      ReadStatement(a, ss[0], after);
      ReadStatements(b, ss[1..], r);
      assert ss == [ss[0]] + ss[1..];
    }
  }

  lemma {:induction false} ReadFile(ts: Tokens, ss: seq<Ast.Statement>)
    requires StatementsForm(ts, ss)
    ensures ParseFile(ts + [Eof]) == Ok((ss, [Eof]))
    decreases |ss|
  {
    hide ParseStatement, StatementForm;
    if ss == [] {
      assert ts + [Eof] == [Eof];
    } else {
      var a, b :| ts == a + b && StatementForm(a, ss[0]) && StatementsForm(b, ss[1..]);
      assert ts + [Eof] == a + (b + [Eof]);
      StatementStarts(a, ss[0], b + [Eof]);
      ReadStatement(a, ss[0], b + [Eof]);
      ReadFile(b, ss[1..]);
      assert ss == [ss[0]] + ss[1..];
    }
  }

  lemma SeparatedIs(ts: Tokens, first: bool)
    requires Separated(ts, first).Ok?
    ensures ts == Separator(first) + Separated(ts, first).value
  {
    if first { assert [] + ts == ts; } else { assert ts == [ts[0]] + ts[1..]; }
  }

  lemma {:induction false} PartsAre(ts: Tokens)
    requires ParseParts(ts).Ok?
    ensures ts == PartTokens(ParseParts(ts).value.0) + ParseParts(ts).value.1
    decreases |ts|
  {
    if ts[0] == Path {
      hide PartTokens;
      var rest := ts[1..][1..];
      PartsAre(rest);
      assert ts == [Path, ts[1]] + rest;
      var (parts, after) := ParseParts(rest).value;
      PartsCons(ts[1].name, parts);
      Regroup3([Path, ts[1]], PartTokens(parts), after);
    }
  }

  lemma PartsCons(name: string, parts: seq<string>)
    ensures PartTokens([name] + parts) == [Path, Ident(name)] + PartTokens(parts)
  {
    assert ([name] + parts)[1..] == parts;
  }

  lemma PathIs(ts: Tokens)
    requires ParsePath(ts).Ok?
    ensures ts == PathTokens(ParsePath(ts).value.0) + ParsePath(ts).value.1
  {
    hide ParseParts, PartTokens;
    PartsAre(ts[1..]);
    assert ts == [ts[0]] + ts[1..];
  }

  lemma {:induction false} PathsAre(ts: Tokens, first: bool)
    requires ParsePaths(ts, first).Ok?
    ensures ts == PathsTokens(ParsePaths(ts, first).value.0, first) + ParsePaths(ts, first).value.1
    decreases |ts|
  {
    hide ParsePath, PathTokens, Separated, Separator;
    if ts[0] == ClosingParen {
      assert ts == [ts[0]] + ts[1..];
    } else {
      var item := Separated(ts, first).value;
      var (path, rest) := ParsePath(item).value;
      SeparatedIs(ts, first);
      PathIs(item);
      PathsAre(rest, false);
      var ps := ParsePaths(rest, false).value.0;
      assert ([path] + ps)[1..] == ps;
    }
  }

  lemma PhantomsAre(ts: Tokens) returns (w: Tokens)
    requires ParsePhantoms(ts).Ok?
    ensures ts == w + ParsePhantoms(ts).value.1 && WaitForm(w, ParsePhantoms(ts).value.0)
  {
    hide ParsePath, ParsePaths, PathTokens, PathsTokens;
    if ts[0] != Wait {
      w := [];
    } else if ts[1] == OpenParen {
      w := [Wait, OpenParen] + PathsTokens(ParsePaths(ts[2..], true).value.0, true);
      PathsAre(ts[2..], true);
      assert ts == [ts[0], ts[1]] + ts[2..];
    } else {
      w := [Wait] + PathTokens(ParsePath(ts[1..]).value.0);
      PathIs(ts[1..]);
      assert ts == [ts[0]] + ts[1..];
    }
  }

  lemma {:induction false} NodeIs(ts: Tokens) returns (w: Tokens)
    requires ParseNode(ts).Ok?
    ensures ts == w + ParseNode(ts).value.1 && NodeForm(w, ParseNode(ts).value.0)
    decreases |ts|, 3
  {
    hide ParsePath, ParsePhantoms, ParseCall, PathTokens, WaitForm, NodeForm;
    var (phantoms, after) := ParsePhantoms(ts).value;
    var (name, rest) := ParsePath(after).value;
    var x := PhantomsAre(ts);
    PathIs(after);
    w := CallIs(rest, x, name, phantoms);
    assert x + (PathTokens(name) + rest) == x + PathTokens(name) + rest;
  }

  lemma {:induction false} CallIs(ts: Tokens, x: Tokens, name: Ast.ItemPath, phantoms: seq<Ast.ItemPath>)
    returns (w: Tokens)
    requires ParseCall(ts, name, phantoms).Ok? && WaitForm(x, phantoms)
    ensures x + PathTokens(name) + ts == w + ParseCall(ts, name, phantoms).value.1
    ensures NodeForm(w, ParseCall(ts, name, phantoms).value.0)
    decreases |ts|, 2
  {
    hide ParseArguments, WaitForm, PathTokens, ArgumentsForm;
    var a := ArgumentsAre(ts[1..], true);
    w := x + PathTokens(name) + [OpenParen] + a;
    assert ts == [ts[0]] + ts[1..];
  }

  lemma {:induction false} ArgumentsAre(ts: Tokens, first: bool) returns (w: Tokens)
    requires ParseArguments(ts, first).Ok?
    ensures ts == w + ParseArguments(ts, first).value.1 && ArgumentsForm(w, ParseArguments(ts, first).value.0, first)
    decreases |ts|, 6
  {
    hide ParseExpression, ExpressionForm, ArgumentsForm, Separated, Separator;
    if ts[0] == ClosingParen {
      w := [ClosingParen];
      assert ts == [ts[0]] + ts[1..];
      ArgumentsEnd(first);
    } else {
      var item := Separated(ts, first).value;
      var (e, rest) := ParseExpression(item).value;
      SeparatedIs(ts, first);
      var a := ExpressionIs(item);
      var b := ArgumentsAre(rest, false);
      w := Separator(first) + a + b;
      ArgumentsCons(first, a, e, b, ParseArguments(rest, false).value.0);
      Regroup(Separator(first), a, b, ParseArguments(rest, false).value.1);
    }
  }

  lemma ArgumentsEnd(first: bool)
    ensures ArgumentsForm([ClosingParen], [], first)
  {
  }

  lemma ArgumentsCons(first: bool, a: Tokens, e: Ast.Expression, b: Tokens, es: seq<Ast.Expression>)
    requires ExpressionForm(a, e) && ArgumentsForm(b, es, false)
    ensures ArgumentsForm(Separator(first) + a + b, [e] + es, first)
  {
    hide ExpressionForm, Separator;
    assert ([e] + es)[1..] == es;
  }

  lemma {:induction false} AtomIs(ts: Tokens) returns (w: Tokens)
    requires ParseAtom(ts).Ok?
    ensures ts == w + ParseAtom(ts).value.1 && ExpressionForm(w, ParseAtom(ts).value.0) && !ParseAtom(ts).value.0.Chain?
    decreases |ts|, 4
  {
    hide ParsePath, ParseNode, ParseCall, PathTokens, NodeForm;
    assert ts == [ts[0]] + ts[1..];
    if ts[0].Numeric? || ts[0].Str? {
      w := [ts[0]];
    } else if ts[0].Ident? {
      var (path, rest) := ParsePath(ts).value;
      PathIs(ts);
      if rest[0] != OpenParen {
        w := PathTokens(path);
      } else {
        w := CallIs(rest, [], path, []);
        assert [] + PathTokens(path) + rest == ts;
      }
    } else {
      w := NodeIs(ts);
    }
  }

  lemma {:induction false} ChainIs(ts: Tokens) returns (w: Tokens)
    requires ParseChain(ts).Ok?
    ensures ts == w + ParseChain(ts).value.1 && ChainForm(w, ParseChain(ts).value.0)
    ensures ts[0] == Pipe ==> ParseChain(ts).value.0 != []
    decreases |ts|, 4
  {
    hide ParseNode, NodeForm, ChainForm;
    if ts[0] != Pipe {
      w := [];
      NoChain();
    } else {
      var (node, rest) := ParseNode(ts[1..]).value;
      var a := NodeIs(ts[1..]);
      var b := ChainIs(rest);
      w := [Pipe] + a + b;
      assert ts == [ts[0]] + ts[1..];
      ChainCons(a, node, b, ParseChain(rest).value.0);
      Regroup([Pipe], a, b, ParseChain(rest).value.1);
    }
  }

  lemma NoChain()
    ensures ChainForm([], [])
  {
  }

  lemma ChainCons(a: Tokens, node: Ast.Node, b: Tokens, ns: seq<Ast.Node>)
    requires NodeForm(a, node) && ChainForm(b, ns)
    ensures ChainForm([Pipe] + a + b, [node] + ns)
  {
    hide NodeForm;
    assert ([node] + ns)[1..] == ns;
  }

  /** Whatever is read as an expression is a way to write that expression. */
  lemma {:induction false} ExpressionIs(ts: Tokens) returns (w: Tokens)
    requires ParseExpression(ts).Ok?
    ensures ts == w + ParseExpression(ts).value.1 && ExpressionForm(w, ParseExpression(ts).value.0)
    decreases |ts|, 5
  {
    hide ParseAtom, ParseChain, ChainForm;
    var (atom, rest) := ParseAtom(ts).value;
    w := AtomIs(ts);
    if rest[0] == Pipe {
      var a := w;
      var b := ChainIs(rest);
      w := a + b;
    }
  }

  lemma ParameterIs(ts: Tokens) returns (w: Tokens)
    requires ParseParameter(ts).Ok?
    ensures ts == w + ParseParameter(ts).value.1 && ParameterForm(w, ParseParameter(ts).value.0)
  {
    hide ParseExpression, ExpressionForm;
    assert ts == [ts[0]] + ts[1..];
    w := [ts[0]];
    if ts[1..][0] == Eq {
      var a := ExpressionIs(ts[1..][1..]);
      w := [ts[0], Eq] + a;
      assert ts == [ts[0], ts[1]] + ts[1..][1..];
    }
  }

  lemma ParametersCons(first: bool, a: Tokens, p: Parameter, b: Tokens, ps: seq<Parameter>)
    requires ParameterForm(a, p) && ParametersForm(b, ps, false)
    ensures ParametersForm(Separator(first) + a + b, [p] + ps, first)
  {
    hide ParameterForm, Separator;
    assert ([p] + ps)[1..] == ps;
  }

  lemma {:induction false} ParametersRead(ts: Tokens, first: bool) returns (w: Tokens)
    requires ParseParameters(ts, first).Ok?
    ensures ts == w + ParseParameters(ts, first).value.1 && ParametersForm(w, ParseParameters(ts, first).value.0, first)
    decreases |ts|
  {
    hide ParseParameter, ParameterForm, ParametersForm, Separated, Separator, ParseExpression;
    if ts[0] == ClosingParen {
      w := [ClosingParen];
      assert ts == [ts[0]] + ts[1..];
      ParametersEnd(first);
    } else {
      var item := Separated(ts, first).value;
      var (p, rest) := ParseParameter(item).value;
      SeparatedIs(ts, first);
      var a := ParameterIs(item);
      var b := ParametersRead(rest, false);
      w := Separator(first) + a + b;
      ParametersCons(first, a, p, b, ParseParameters(rest, false).value.0);
      Regroup(Separator(first), a, b, ParseParameters(rest, false).value.1);
    }
  }

  lemma ParametersEnd(first: bool)
    ensures ParametersForm([ClosingParen], [], first)
  {
  }

  /** What is told apart as required and defaulted parameters was written in this order. */
  lemma {:induction false} SplitIs(ps: seq<Parameter>)
    requires SplitParameters(ps).Ok?
    ensures ps == RequiredParameters(SplitParameters(ps).value.0) + DefaultParameters(SplitParameters(ps).value.1)
    decreases |ps|
  {
    if ps != [] {
      SplitIs(ps[..|ps| - 1]);
      assert ps == ps[..|ps| - 1] + [ps[|ps| - 1]];
    }
  }

  /** Parameters are refused exactly if one without a default comes after one with a default, and the error
      names the first such. */
  lemma {:induction false} SplitFailsAt(ps: seq<Parameter>)
    ensures SplitParameters(ps).Err? <==>
              exists i, j :: 0 <= i < j < |ps| && ps[i].default_.Some? && ps[j].default_.None?
    ensures SplitParameters(ps).Err? ==> exists j :: 0 <= j < |ps| && FirstMisplaced(ps, j)
                                                     && SplitParameters(ps).error == RequiredAfterDefault(ps[j].name)
    decreases |ps|
  {
    if ps != [] {
      var before := ps[..|ps| - 1];
      SplitFailsAt(before);
      if SplitParameters(before).Err? {
        var j :| 0 <= j < |before| && FirstMisplaced(before, j)
                 && SplitParameters(before).error == RequiredAfterDefault(before[j].name);
        assert FirstMisplaced(ps, j) && ps[j] == before[j];
        var a, b :| 0 <= a < b < |before| && before[a].default_.Some? && before[b].default_.None?;
        assert ps[a] == before[a] && ps[b] == before[b];
      } else {
        if SplitParameters(ps).Err? { LastMisplaced(ps); } else { InOrder(ps); }
      }
    }
  }

  lemma LastMisplaced(ps: seq<Parameter>)
    requires ps != [] && SplitParameters(ps[..|ps| - 1]).Ok? && SplitParameters(ps).Err?
    ensures FirstMisplaced(ps, |ps| - 1) && SplitParameters(ps).error == RequiredAfterDefault(ps[|ps| - 1].name)
  {
    var before := ps[..|ps| - 1];
    InOrder(before);
    SplitIs(before);
    assert forall i :: 0 <= i < |before| ==> ps[i] == before[i];
    var ds := SplitParameters(before).value.1;
    assert before[|before| - 1] == DefaultParameters(ds)[|ds| - 1];
  }

  lemma InOrder(ps: seq<Parameter>)
    requires SplitParameters(ps).Ok?
    ensures forall i, j :: 0 <= i < j < |ps| && ps[i].default_.Some? ==> ps[j].default_.Some?
  {
    hide SplitParameters;
    SplitIs(ps);
  }

  /** Parameter `j` is the first without a default after one that has one. */
  ghost predicate FirstMisplaced(ps: seq<Parameter>, j: nat)
    requires j < |ps|
  {
    && ps[j].default_.None? && (exists i :: 0 <= i < j && ps[i].default_.Some?)
    && forall a, b :: 0 <= a < b < j && ps[a].default_.Some? ==> ps[b].default_.Some?
  }

  lemma ExpectIs(ts: Tokens, t: Token)
    requires t != Eof && Expect(ts, t).Ok?
    ensures ts == [t] + Expect(ts, t).value.1
  {
    assert ts == [ts[0]] + ts[1..];
  }

  lemma LabelIs(ts: Tokens, exported: bool, name: string) returns (w: Tokens)
    requires ParseLabel(ts, exported, name).Ok?
    ensures ExportTokens(exported) + [Ident(name)] + ts == w + ParseLabel(ts, exported, name).value.1
    ensures StatementForm(w, ParseLabel(ts, exported, name).value.0)
  {
    hide ParseExpression, ExpressionForm, ExportTokens, Expect;
    var x, after := ExportTokens(exported), Expect(ts, Eq).value.1;
    ExpectIs(ts, Eq);
    var a := ExpressionIs(after);
    var rest := ParseExpression(after).value.1;
    ExpectIs(rest, SemiColon);
    var end := Expect(rest, SemiColon).value.1;
    w := x + [Ident(name), Eq] + a + [SemiColon];
    assert x + [Ident(name)] + ([Eq] + (a + ([SemiColon] + end))) == x + [Ident(name), Eq] + a + [SemiColon] + end;
  }

  lemma ImportIs(ts: Tokens, exported: bool) returns (w: Tokens)
    requires ParseImport(ts, exported).Ok?
    ensures ExportTokens(exported) + [Import] + ts == w + ParseImport(ts, exported).value.1
    ensures StatementForm(w, ParseImport(ts, exported).value.0)
  {
    hide ExportTokens;
    var x, end := ExportTokens(exported), ts[1..][1..][1..][1..];
    assert ts == [ts[0], ts[1], ts[2], ts[3]] + end;
    w := x + [Import, ts[0], ts[1], ts[2], ts[3]];
  }

  lemma {:induction false} FunctionIs(ts: Tokens, exported: bool) returns (w: Tokens)
    requires ParseFunction(ts, exported).Ok?
    ensures ExportTokens(exported) + [Def] + ts == w + ParseFunction(ts, exported).value.1
    ensures StatementForm(w, ParseFunction(ts, exported).value.0)
    decreases |ts|, 0
  {
    hide ParseParameters, ParseStatements, ParametersForm, StatementsForm, Parameters, ExportTokens, SplitParameters,
         Expect;
    var x := ExportTokens(exported);
    var (name, begun) := ParseIdent(ts).value;
    var listed := Expect(begun, OpenParen).value.1;
    var (parameters, closed) := ParseParameters(listed, true).value;
    var inside := Expect(closed, OpenBracket).value.1;
    var (body, rest) := ParseStatements(inside).value;
    ExpectIs(begun, OpenParen);
    var a := ParametersRead(listed, true);
    ExpectIs(closed, OpenBracket);
    var b := StatementsAre(inside);
    var (required, defaults) := SplitParameters(parameters).value;
    SplitIs(parameters);
    ParametersAre(Ast.Function(name, required, defaults, body));
    w := x + [Def, Ident(name), OpenParen] + a + [OpenBracket] + b + [ClosingBracket];
    assert ts == [Ident(name)] + begun;
    FunctionTokens(name, a, b, rest);
    DefinitionTokens(x, name, a, b, rest);
  }

  lemma FunctionTokens(name: string, a: Tokens, b: Tokens, rest: Tokens)
    ensures [Ident(name)] + ([OpenParen] + (a + ([OpenBracket] + (b + [ClosingBracket] + rest))))
         == [Ident(name), OpenParen] + a + [OpenBracket] + b + [ClosingBracket] + rest
  {
  }

  lemma {:induction false} DeclarationIs(token: Token, ts: Tokens, exported: bool) returns (w: Tokens)
    requires ParseDeclaration(token, ts, exported).Ok?
    ensures ExportTokens(exported) + [token] + ts == w + ParseDeclaration(token, ts, exported).value.1
    ensures StatementForm(w, ParseDeclaration(token, ts, exported).value.0)
    decreases |ts|, 1
  {
    hide ParseFunction, ParseLabel, ParseImport, ExportTokens, StatementForm;
    if token == Def {
      w := FunctionIs(ts, exported);
    } else if token.Ident? {
      w := LabelIs(ts, exported, token.name);
    } else {
      w := ImportIs(ts, exported);
    }
  }

  lemma ReturnIs(ts: Tokens) returns (w: Tokens)
    requires ParseStatement(ts).Ok? && ts[0] == Return
    ensures ts == w + ParseStatement(ts).value.1 && StatementForm(w, ParseStatement(ts).value.0)
  {
    hide ParseExpression, ExpressionForm, Expect;
    var a := ExpressionIs(ts[1..]);
    var rest := ParseExpression(ts[1..]).value.1;
    ExpectIs(rest, SemiColon);
    w := [Return] + a + [SemiColon];
    assert ts == [ts[0]] + ts[1..];
    assert [Return] + (a + ([SemiColon] + Expect(rest, SemiColon).value.1)) == w + Expect(rest, SemiColon).value.1;
  }

  /** Whatever is read as a statement is a way to write that statement. */
  lemma {:induction false} StatementIs(ts: Tokens) returns (w: Tokens)
    requires ParseStatement(ts).Ok?
    ensures ts == w + ParseStatement(ts).value.1 && StatementForm(w, ParseStatement(ts).value.0)
    decreases |ts|, 2
  {
    hide ParseDeclaration, StatementForm, ParseExpression;
    if ts[0] == Return {
      w := ReturnIs(ts);
    } else if ts[0] == Export {
      w := DeclarationIs(ts[1], ts[1..][1..], true);
      assert ts == [Export] + [ts[1]] + ts[1..][1..];
    } else {
      w := DeclarationIs(ts[0], ts[1..], false);
      assert ts == [] + [ts[0]] + ts[1..];
    }
  }

  lemma {:induction false} StatementsAre(ts: Tokens) returns (w: Tokens)
    requires ParseStatements(ts).Ok?
    ensures ts == w + [ClosingBracket] + ParseStatements(ts).value.1 && StatementsForm(w, ParseStatements(ts).value.0)
    decreases |ts|, 3
  {
    hide ParseStatement, StatementForm;
    if ts[0] == ClosingBracket {
      w := [];
      assert ts == [ts[0]] + ts[1..];
    } else {
      var (s, rest) := ParseStatement(ts).value;
      var a := StatementIs(ts);
      var b := StatementsAre(rest);
      w := a + b;
      var ss := ParseStatements(rest).value.0;
      assert ([s] + ss)[1..] == ss;
      var end := ParseStatements(rest).value.1;
      assert a + (b + [ClosingBracket] + end) == w + [ClosingBracket] + end;
    }
  }

  lemma {:induction false} FileIs(ts: Tokens) returns (w: Tokens)
    requires ParseFile(ts).Ok?
    ensures ts == w + ParseFile(ts).value.1 && StatementsForm(w, ParseFile(ts).value.0)
    ensures ParseFile(ts).value.1 == [] || ParseFile(ts).value.1[0] == Eof
    decreases |ts|
  {
    hide ParseStatement, StatementForm;
    if ts == [] || ts[0] == Eof {
      w := [];
    } else {
      var (s, rest) := ParseStatement(ts).value;
      var a := StatementIs(ts);
      var b := FileIs(rest);
      w := a + b;
      var ss := ParseFile(rest).value.0;
      assert ([s] + ss)[1..] == ss;
    }
  }

  /** A list of tokens is read as these statements exactly if it is a way to write them. */
  lemma FileIff(ts: Tokens, ss: seq<Ast.Statement>)
    requires Eof !in ts
    ensures ParseFile(ts + [Eof]) == Ok((ss, [Eof])) <==> StatementsForm(ts, ss)
    ensures ParseFile(ts + [Eof]).Ok? ==> ParseFile(ts + [Eof]).value.1 == [Eof]
  {
    hide ParseFile, StatementsForm;
    if ParseFile(ts + [Eof]).Ok? {
      var w := FileIs(ts + [Eof]);
      var rest := ParseFile(ts + [Eof]).value.1;
      assert Terminated(ts + [Eof]);
      assert Fine(ParseFile(ts + [Eof])) && rest != [];
      assert (w + rest)[|w|] == Eof && (ts + [Eof])[|w|] == Eof;
      assert forall i :: 0 <= i < |ts| ==> (ts + [Eof])[i] == ts[i] && ts[i] in ts;
      assert w == (w + rest)[..|ts|] == ts && rest == (w + rest)[|ts|..] == [Eof];
    }
    if StatementsForm(ts, ss) { ReadFile(ts, ss); }
  }
}
