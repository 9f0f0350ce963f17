/** From tokens to syntax: recursive descent over the tokens that are left. */
module Parsers {
  import opened Wrappers
  import Ast
  import opened Tokenizers

  type Tokens = seq<Token>

  /** `EndOfTokens` is an internal error: a parser that is given an end token never runs past it. */
  datatype ParseError = UnexpectedToken(got: Token) | RequiredAfterDefault(name: string) | EndOfTokens

  type Parsed<T> = Result<(T, Tokens), ParseError>

  ghost predicate Terminated(ts: Tokens) {
    ts != [] && ts[|ts| - 1] == Eof
  }

  /** The end token is still there, and the error is not the internal one. */
  ghost predicate Fine<T>(r: Parsed<T>) {
    (r.Ok? ==> Terminated(r.value.1)) && (r.Err? ==> r.error != EndOfTokens)
  }

  function Next(ts: Tokens): (r: Parsed<Token>)
    ensures r.Ok? ==> |r.value.1| < |ts|
  {
    if ts == [] then Err(EndOfTokens) else Ok((ts[0], ts[1..]))
  }

  function Expect(ts: Tokens, t: Token): (r: Parsed<Token>)
    requires t != Eof
    ensures r.Ok? ==> |r.value.1| < |ts|
    ensures Terminated(ts) ==> Fine(r)
  {
    var (got, rest) :- Next(ts);
    if got == t then Ok((got, rest)) else Err(UnexpectedToken(got))
  }

  function ParseIdent(ts: Tokens): (r: Parsed<string>)
    ensures r.Ok? ==> |r.value.1| < |ts|
    ensures Terminated(ts) ==> Fine(r)
  {
    var (got, rest) :- Next(ts);
    if got.Ident? then Ok((got.name, rest)) else Err(UnexpectedToken(got))
  }

  function ParseStr(ts: Tokens): (r: Parsed<string>)
    ensures r.Ok? ==> |r.value.1| < |ts|
    ensures Terminated(ts) ==> Fine(r)
  {
    var (got, rest) :- Next(ts);
    if got.Str? then Ok((got.text, rest)) else Err(UnexpectedToken(got))
  }

  function Prepend<T>(xs: seq<T>, r: Parsed<seq<T>>): Parsed<seq<T>> {
    match r
    case Ok(p) => Ok((xs + p.0, p.1))
    case Err(e) => Err(e)
  }

  /** The `::name` parts of a path. */
  function ParseParts(ts: Tokens): (r: Parsed<seq<string>>)
    ensures r.Ok? ==> |r.value.1| <= |ts|
    ensures Terminated(ts) ==> Fine(r)
    decreases |ts|
  {
    if ts == [] then Err(EndOfTokens)
    else if ts[0] != Path then Ok(([], ts))
    else
      var (part, rest) :- ParseIdent(ts[1..]);
      Prepend([part], ParseParts(rest))
  }

  function ParsePath(ts: Tokens): (r: Parsed<Ast.ItemPath>)
    ensures r.Ok? ==> |r.value.1| < |ts|
    ensures Terminated(ts) ==> Fine(r)
  {
    var (base, after) :- ParseIdent(ts);
    var (parts, rest) :- ParseParts(after);
    Ok((Ast.ItemPath(base, parts), rest))
  }

  /** What starts the next item of a list: the separator, unless it is the first. */
  function Separated(ts: Tokens, first: bool): (r: Result<Tokens, ParseError>)
    ensures r.Ok? ==> |r.value| <= |ts|
    ensures Terminated(ts) ==> (r.Ok? ==> Terminated(r.value)) && (r.Err? ==> r.error != EndOfTokens)
  {
    if first then Ok(ts)
    else
      var (_, rest) :- Expect(ts, Comma);
      Ok(rest)
  }

  function ParsePaths(ts: Tokens, first: bool): (r: Parsed<seq<Ast.ItemPath>>)
    ensures r.Ok? ==> |r.value.1| < |ts|
    ensures Terminated(ts) ==> Fine(r)
    decreases |ts|
  {
    if ts == [] then Err(EndOfTokens)
    else if ts[0] == ClosingParen then Ok(([], ts[1..]))
    else
      var item :- Separated(ts, first);
      var (path, rest) :- ParsePath(item);
      Prepend([path], ParsePaths(rest, false))
  }

  function ParseExpression(ts: Tokens): (r: Parsed<Ast.Expression>)
    ensures r.Ok? ==> |r.value.1| < |ts|
    ensures Terminated(ts) ==> Fine(r)
    decreases |ts|, 5
  {
    var (atom, rest) :- ParseAtom(ts);
    if rest == [] then Err(EndOfTokens)
    else if rest[0] != Pipe then Ok((atom, rest))
    else
      var (nodes, after) :- ParseChain(rest);
      Ok((Ast.Chain(atom, nodes), after))
  }

  function ParseAtom(ts: Tokens): (r: Parsed<Ast.Expression>)
    ensures r.Ok? ==> |r.value.1| < |ts|
    ensures Terminated(ts) ==> Fine(r)
    decreases |ts|, 4
  {
    if ts == [] then Err(EndOfTokens)
    else if ts[0].Numeric? then Ok((Ast.Number(ts[0].value), ts[1..]))
    else if ts[0].Str? then Ok((Ast.Text(ts[0].text), ts[1..]))
    else if ts[0].Ident? then
      var (path, rest) :- ParsePath(ts);
      if rest == [] then Err(EndOfTokens)
      else if rest[0] != OpenParen then Ok((Ast.Label(path), rest))
      else
        var (node, after) :- ParseCall(rest, path, []);
        Ok((Ast.Call(node), after))
    else
      var (node, rest) :- ParseNode(ts);
      Ok((Ast.Call(node), rest))
  }

  /** The `> node` parts of a chain. */
  function ParseChain(ts: Tokens): (r: Parsed<seq<Ast.Node>>)
    ensures r.Ok? ==> |r.value.1| <= |ts|
    ensures Terminated(ts) ==> Fine(r)
    decreases |ts|, 4
  {
    if ts == [] then Err(EndOfTokens)
    else if ts[0] != Pipe then Ok(([], ts))
    else
      var (node, rest) :- ParseNode(ts[1..]);
      Prepend([node], ParseChain(rest))
  }

  /** What a node waits for, if it starts with a `!`. */
  function ParsePhantoms(ts: Tokens): (r: Parsed<seq<Ast.ItemPath>>)
    ensures r.Ok? ==> |r.value.1| <= |ts|
    ensures Terminated(ts) ==> Fine(r)
  {
    if ts == [] then Err(EndOfTokens)
    else if ts[0] != Wait then Ok(([], ts))
    else if ts[1..] == [] then Err(EndOfTokens)
    else if ts[1] == OpenParen then ParsePaths(ts[2..], true)
    else
      var (path, rest) :- ParsePath(ts[1..]);
      Ok(([path], rest))
  }

  function ParseNode(ts: Tokens): (r: Parsed<Ast.Node>)
    ensures r.Ok? ==> |r.value.1| < |ts|
    ensures Terminated(ts) ==> Fine(r)
    decreases |ts|, 3
  {
    var (phantoms, after) :- ParsePhantoms(ts);
    var (name, rest) :- ParsePath(after);
    ParseCall(rest, name, phantoms)
  }

  /** The arguments of a node whose name has been read. */
  function ParseCall(ts: Tokens, name: Ast.ItemPath, phantoms: seq<Ast.ItemPath>): (r: Parsed<Ast.Node>)
    ensures r.Ok? ==> |r.value.1| < |ts|
    ensures Terminated(ts) ==> Fine(r)
    decreases |ts|, 2
  {
    var (_, after) :- Expect(ts, OpenParen);
    var (arguments, rest) :- ParseArguments(after, true);
    Ok((Ast.Node(name, arguments, phantoms), rest))
  }

  function ParseArguments(ts: Tokens, first: bool): (r: Parsed<seq<Ast.Expression>>)
    ensures r.Ok? ==> |r.value.1| < |ts|
    ensures Terminated(ts) ==> Fine(r)
    decreases |ts|, 6
  {
    if ts == [] then Err(EndOfTokens)
    else if ts[0] == ClosingParen then Ok(([], ts[1..]))
    else
      var item :- Separated(ts, first);
      var (e, rest) :- ParseExpression(item);
      Prepend([e], ParseArguments(rest, false))
  }

  datatype Parameter = Parameter(name: string, default_: Option<Ast.Expression>)

  function ParseParameter(ts: Tokens): (r: Parsed<Parameter>)
    ensures r.Ok? ==> |r.value.1| < |ts|
    ensures Terminated(ts) ==> Fine(r)
  {
    var (name, rest) :- ParseIdent(ts);
    if rest == [] then Err(EndOfTokens)
    else if rest[0] != Eq then Ok((Parameter(name, None), rest))
    else
      var (value, after) :- ParseExpression(rest[1..]);
      Ok((Parameter(name, Some(value)), after))
  }

  function ParseParameters(ts: Tokens, first: bool): (r: Parsed<seq<Parameter>>)
    ensures r.Ok? ==> |r.value.1| < |ts|
    ensures Terminated(ts) ==> Fine(r)
    decreases |ts|
  {
    if ts == [] then Err(EndOfTokens)
    else if ts[0] == ClosingParen then Ok(([], ts[1..]))
    else
      var item :- Separated(ts, first);
      var (p, rest) :- ParseParameter(item);
      Prepend([p], ParseParameters(rest, false))
  }

  /** Divides parameters into required ones and, after them, those with defaults. */
  function SplitParameters(ps: seq<Parameter>): (r: Result<(seq<string>, seq<Ast.Default>), ParseError>)
    ensures r.Err? ==> r.error.RequiredAfterDefault?
  {
    if ps == [] then Ok(([], []))
    else
      var last := ps[|ps| - 1];
      var (required, defaults) :- SplitParameters(ps[..|ps| - 1]);
      match last.default_
      case Some(e) => Ok((required, defaults + [Ast.Default(last.name, e)]))
      case None => if defaults != [] then Err(RequiredAfterDefault(last.name)) else Ok((required + [last.name], []))
  }

  function ParseStatement(ts: Tokens): (r: Parsed<Ast.Statement>)
    ensures r.Ok? ==> |r.value.1| < |ts|
    ensures Terminated(ts) ==> Fine(r)
    decreases |ts|, 2
  {
    var (token, rest) :- Next(ts);
    if token == Return then
      var (e, after) :- ParseExpression(rest);
      var (_, end) :- Expect(after, SemiColon);
      Ok((Ast.Return(e), end))
    else if token == Export then
      var (second, after) :- Next(rest);
      ParseDeclaration(second, after, true)
    else ParseDeclaration(token, rest, false)
  }

  /** A statement that may be exported, by its first token. */
  function ParseDeclaration(token: Token, ts: Tokens, exported: bool): (r: Parsed<Ast.Statement>)
    ensures r.Ok? ==> |r.value.1| < |ts|
    ensures Terminated([token] + ts) ==> Fine(r)
    decreases |ts|, 1
  {
    match token
    case Def => ParseFunction(ts, exported)
    case Ident(name) => ParseLabel(ts, exported, name)
    case Import => ParseImport(ts, exported)
    case _ => Err(UnexpectedToken(token))
  }

  function ParseLabel(ts: Tokens, exported: bool, name: string): (r: Parsed<Ast.Statement>)
    ensures r.Ok? ==> |r.value.1| < |ts|
    ensures Terminated(ts) ==> Fine(r)
  {
    var (_, after) :- Expect(ts, Eq);
    var (e, rest) :- ParseExpression(after);
    var (_, end) :- Expect(rest, SemiColon);
    Ok((Ast.Assign(exported, e, name), end))
  }

  function ParseImport(ts: Tokens, exported: bool): (r: Parsed<Ast.Statement>)
    ensures r.Ok? ==> |r.value.1| < |ts|
    ensures Terminated(ts) ==> Fine(r)
  {
    var (path, after) :- ParseStr(ts);
    var (_, named) :- Expect(after, As);
    var (name, rest) :- ParseIdent(named);
    var (_, end) :- Expect(rest, SemiColon);
    Ok((Ast.Import(exported, path, name), end))
  }

  function ParseFunction(ts: Tokens, exported: bool): (r: Parsed<Ast.Statement>)
    ensures r.Ok? ==> |r.value.1| < |ts|
    ensures Terminated(ts) ==> Fine(r)
    decreases |ts|, 0
  {
    var (name, begun) :- ParseIdent(ts);
    var (_, listed) :- Expect(begun, OpenParen);
    var (parameters, closed) :- ParseParameters(listed, true);
    var (required, defaults) :- SplitParameters(parameters);
    var (_, inside) :- Expect(closed, OpenBracket);
    var (body, rest) :- ParseStatements(inside);
    Ok((Ast.Def(exported, Ast.Function(name, required, defaults, body)), rest))
  }

  /** The statements up to a closing bracket. */
  function ParseStatements(ts: Tokens): (r: Parsed<seq<Ast.Statement>>)
    ensures r.Ok? ==> |r.value.1| < |ts|
    ensures Terminated(ts) ==> Fine(r)
    decreases |ts|, 3
  {
    if ts == [] then Err(EndOfTokens)
    else if ts[0] == ClosingBracket then Ok(([], ts[1..]))
    else
      var (s, rest) :- ParseStatement(ts);
      Prepend([s], ParseStatements(rest))
  }

  /** A whole file. */
  function ParseFile(ts: Tokens): (r: Parsed<seq<Ast.Statement>>)
    ensures Terminated(ts) ==> Fine(r)
    decreases |ts|
  {
    if ts == [] || ts[0] == Eof then Ok(([], ts))
    else
      var (s, rest) :- ParseStatement(ts);
      Prepend([s], ParseFile(rest))
  }

  lemma PrependMore<T>(xs: seq<T>, x: T, r: Parsed<seq<T>>)
    ensures Prepend(xs, Prepend([x], r)) == Prepend(xs + [x], r)
  {
    if r.Ok? { assert xs + ([x] + r.value.0) == (xs + [x]) + r.value.0; }
  }

  lemma PrependNone<T>(xs: seq<T>, r: Parsed<seq<T>>)
    ensures Prepend([], r) == r
    ensures r.Ok? && r.value.0 == [] ==> Prepend(xs, r) == Ok((xs, r.value.1))
  {
    if r.Ok? {
      assert [] + r.value.0 == r.value.0 && xs + [] == xs;
      assert r.value == (r.value.0, r.value.1);
    }
  }
}
