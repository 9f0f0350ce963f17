/** The parser as an object that consumes its tokens, proved equal to the functional specification. */
module ParserMethods {
  import opened Wrappers
  import Ast
  import FrontEnd
  import opened Tokenizers
  import opened Parsers

  /** A method's result and the tokens it left are what the specification gives. */
  ghost predicate Gives<T>(spec: Parsed<T>, r: Result<T, ParseError>, rest: Tokens) {
    match spec
    case Ok(p) => r == Ok(p.0) && rest == p.1
    case Err(e) => r == Err(e)
  }

  class Parser {
    var tokens: Tokens

    constructor (ts: Tokens)
      ensures tokens == ts
    {
      tokens := ts;
    }

    function Peek(): Result<Token, ParseError>
      reads this
    {
      if tokens == [] then Err(EndOfTokens) else Ok(tokens[0])
    }

    method NextToken() returns (r: Result<Token, ParseError>)
      modifies this
      ensures Gives(Next(old(tokens)), r, tokens)
    {
      if tokens == [] { return Err(EndOfTokens); }
      r := Ok(tokens[0]);
      tokens := tokens[1..];
    }

    method ExpectToken(t: Token) returns (r: Result<Token, ParseError>)
      requires t != Eof
      modifies this
      ensures Gives(Expect(old(tokens), t), r, tokens)
    {
      var got :- NextToken();
      r := if got == t then Ok(got) else Err(UnexpectedToken(got));
    }

    method ExpectIdent() returns (r: Result<string, ParseError>)
      modifies this
      ensures Gives(ParseIdent(old(tokens)), r, tokens)
    {
      var got :- NextToken();
      r := if got.Ident? then Ok(got.name) else Err(UnexpectedToken(got));
    }

    method ExpectStr() returns (r: Result<string, ParseError>)
      modifies this
      ensures Gives(ParseStr(old(tokens)), r, tokens)
    {
      var got :- NextToken();
      r := if got.Str? then Ok(got.text) else Err(UnexpectedToken(got));
    }

    /** Consumes the next token if it is `t`. */
    method NextIf(t: Token) returns (r: Result<bool, ParseError>)
      modifies this
      ensures old(tokens) == [] ==> r == Err(EndOfTokens)
      ensures old(tokens) != [] ==> r == Ok(old(tokens)[0] == t)
      ensures tokens == if old(tokens) != [] && old(tokens)[0] == t then old(tokens)[1..] else old(tokens)
    {
      var next :- Peek();
      if next == t { tokens := tokens[1..]; }
      r := Ok(next == t);
    }

    method ParseItemPath() returns (r: Result<Ast.ItemPath, ParseError>)
      modifies this
      ensures Gives(ParsePath(old(tokens)), r, tokens)
      ensures r.Ok? ==> |tokens| < old(|tokens|)
    {
      hide ParseParts, ParseIdent;
      var base :- ExpectIdent();
      var rest := [];
      ghost var start := tokens;
      PrependNone([], ParseParts(start));
      while true
        invariant |tokens| <= |start| && ParseParts(start) == Prepend(rest, ParseParts(tokens))
        decreases |tokens|
      {
        PartsStep(rest, tokens);
        var more :- NextIf(Path);
        if !more { break; }
        var part :- ExpectIdent();
        rest := rest + [part];
      }
      r := Ok(Ast.ItemPath(base, rest));
    }

    /** Consumes the comma before an item that is not the first. */
    method Separator(first: bool) returns (r: Result<bool, ParseError>)
      modifies this
      ensures Separated(old(tokens), first).Ok? ==> r == Ok(!first) && tokens == Separated(old(tokens), first).value
      ensures Separated(old(tokens), first).Err? ==> r == Err(Separated(old(tokens), first).error)
    {
      if !first { var _ :- ExpectToken(Comma); }
      r := Ok(!first);
    }

    method ParsePathList() returns (r: Result<seq<Ast.ItemPath>, ParseError>)
      modifies this
      ensures Gives(ParsePaths(old(tokens), true), r, tokens)
    {
      hide ParsePaths, ParsePath, Separated;
      var result := [];
      ghost var start := tokens;
      PrependNone([], ParsePaths(start, true));
      while true
        invariant ParsePaths(start, true) == Prepend(result, ParsePaths(tokens, result == []))
        decreases |tokens|
      {
        PathsStep(result, tokens, result == []);
        var closing :- NextIf(ClosingParen);
        if closing { return Ok(result); }
        var _ :- Separator(result == []);
        var path :- ParseItemPath();
        result := result + [path];
      }
    }

    method ParseExpressionTokens() returns (r: Result<Ast.Expression, ParseError>)
      modifies this
      ensures Gives(ParseExpression(old(tokens)), r, tokens)
      decreases |tokens|, 5
    {
      hide ParseAtom, ParseChain;
      var value :- ParseAtomTokens();
      var next :- Peek();
      if next != Pipe { return Ok(value); }
      var nodes :- ParseChainTokens();
      r := Ok(Ast.Chain(value, nodes));
    }

    /** A literal, a label or a node. */
    method ParseAtomTokens() returns (r: Result<Ast.Expression, ParseError>)
      modifies this
      ensures Gives(ParseAtom(old(tokens)), r, tokens)
      decreases |tokens|, 4
    {
      hide ParsePath, ParseNode, ParseCall;
      var next :- Peek();
      match next {
        case Numeric(n) =>
          var _ := NextToken();
          r := Ok(Ast.Number(n));
        case Str(text) =>
          var _ := NextToken();
          r := Ok(Ast.Text(text));
        case Ident(_) =>
          var item :- ParseItemPath();
          var after :- Peek();
          if after == OpenParen {
            var node :- ParseCallTokens(item, []);
            r := Ok(Ast.Call(node));
          } else {
            r := Ok(Ast.Label(item));
          }
        case _ =>
          var node :- ParseNodeTokens();
          r := Ok(Ast.Call(node));
      }
    }

    method ParseChainTokens() returns (r: Result<seq<Ast.Node>, ParseError>)
      modifies this
      ensures Gives(ParseChain(old(tokens)), r, tokens)
      decreases |tokens|, 4
    {
      hide ParseChain, ParseNode;
      var nodes := [];
      ghost var start := tokens;
      PrependNone([], ParseChain(start));
      while true
        invariant |tokens| <= |start| && ParseChain(start) == Prepend(nodes, ParseChain(tokens))
        decreases |tokens|
      {
        ChainStep(nodes, tokens);
        var more :- NextIf(Pipe);
        if !more { return Ok(nodes); }
        var node :- ParseNodeTokens();
        nodes := nodes + [node];
      }
    }

    method ParsePhantomTokens() returns (r: Result<seq<Ast.ItemPath>, ParseError>)
      modifies this
      ensures Gives(ParsePhantoms(old(tokens)), r, tokens)
    {
      hide ParsePaths, ParsePath;
      var waits :- NextIf(Wait);
      if !waits { return Ok([]); }
      var list :- NextIf(OpenParen);
      if list {
        r := ParsePathList();
      } else {
        var path :- ParseItemPath();
        r := Ok([path]);
      }
    }

    method ParseNodeTokens() returns (r: Result<Ast.Node, ParseError>)
      modifies this
      ensures Gives(ParseNode(old(tokens)), r, tokens)
      decreases |tokens|, 3
    {
      hide ParsePhantoms, ParsePath, ParseCall;
      var phantoms :- ParsePhantomTokens();
      var name :- ParseItemPath();
      r := ParseCallTokens(name, phantoms);
    }

    method ParseCallTokens(name: Ast.ItemPath, phantoms: seq<Ast.ItemPath>) returns (r: Result<Ast.Node, ParseError>)
      modifies this
      ensures Gives(ParseCall(old(tokens), name, phantoms), r, tokens)
      decreases |tokens|, 2
    {
      hide ParseArguments, Expect;
      var _ :- ExpectToken(OpenParen);
      var arguments :- ParseArgumentList();
      r := Ok(Ast.Node(name, arguments, phantoms));
    }

    method ParseArgumentList() returns (r: Result<seq<Ast.Expression>, ParseError>)
      modifies this
      ensures Gives(ParseArguments(old(tokens), true), r, tokens)
      decreases |tokens|, 6
    {
      hide ParseArguments, ParseExpression, Separated;
      var result := [];
      ghost var start := tokens;
      PrependNone([], ParseArguments(start, true));
      while true
        invariant |tokens| <= |start|
        invariant ParseArguments(start, true) == Prepend(result, ParseArguments(tokens, result == []))
        decreases |tokens|
      {
        ArgumentsStep(result, tokens, result == []);
        var closing :- NextIf(ClosingParen);
        if closing { return Ok(result); }
        var _ :- Separator(result == []);
        var e :- ParseExpressionTokens();
        result := result + [e];
      }
    }

    method ParseParameterTokens() returns (r: Result<Parameter, ParseError>)
      modifies this
      ensures Gives(ParseParameter(old(tokens)), r, tokens)
    {
      hide ParseIdent, ParseExpression;
      var name :- ExpectIdent();
      var defaulted :- NextIf(Eq);
      if !defaulted { return Ok(Parameter(name, None)); }
      var value :- ParseExpressionTokens();
      r := Ok(Parameter(name, Some(value)));
    }

    method ParseParameterList() returns (r: Result<seq<Parameter>, ParseError>)
      modifies this
      ensures Gives(ParseParameters(old(tokens), true), r, tokens)
    {
      hide ParseParameters, ParseParameter, Separated;
      var result := [];
      ghost var start := tokens;
      PrependNone([], ParseParameters(start, true));
      while true
        invariant ParseParameters(start, true) == Prepend(result, ParseParameters(tokens, result == []))
        decreases |tokens|
      {
        ParametersStep(result, tokens, result == []);
        var closing :- NextIf(ClosingParen);
        if closing { return Ok(result); }
        var _ :- Separator(result == []);
        var p :- ParseParameterTokens();
        result := result + [p];
      }
    }

    method ParseStatementTokens() returns (r: Result<Ast.Statement, ParseError>)
      modifies this
      ensures Gives(ParseStatement(old(tokens)), r, tokens)
      decreases |tokens|, 2
    {
      hide ParseExpression, Expect, ParseDeclaration;
      var token :- NextToken();
      if token == Return {
        var e :- ParseExpressionTokens();
        var _ :- ExpectToken(SemiColon);
        r := Ok(Ast.Return(e));
      } else if token == Export {
        var second :- NextToken();
        r := ParseDeclarationTokens(second, true);
      } else {
        r := ParseDeclarationTokens(token, false);
      }
    }

    method ParseDeclarationTokens(token: Token, exported: bool) returns (r: Result<Ast.Statement, ParseError>)
      modifies this
      ensures Gives(ParseDeclaration(token, old(tokens), exported), r, tokens)
      decreases |tokens|, 1
    {
      hide ParseFunction, ParseLabel, ParseImport;
      match token {
        case Def => r := ParseFunctionDef(exported);
        case Ident(name) => r := ParseLabelTokens(exported, name);
        case Import => r := ParseImportTokens(exported);
        case _ => r := Err(UnexpectedToken(token));
      }
    }

    method ParseLabelTokens(exported: bool, name: string) returns (r: Result<Ast.Statement, ParseError>)
      modifies this
      ensures Gives(ParseLabel(old(tokens), exported, name), r, tokens)
    {
      hide ParseExpression, Expect;
      var _ :- ExpectToken(Eq);
      var e :- ParseExpressionTokens();
      var _ :- ExpectToken(SemiColon);
      r := Ok(Ast.Assign(exported, e, name));
    }

    method ParseImportTokens(exported: bool) returns (r: Result<Ast.Statement, ParseError>)
      modifies this
      ensures Gives(ParseImport(old(tokens), exported), r, tokens)
    {
      hide ParseStr, ParseIdent, Expect;
      var path :- ExpectStr();
      var _ :- ExpectToken(As);
      var name :- ExpectIdent();
      var _ :- ExpectToken(SemiColon);
      r := Ok(Ast.Import(exported, path, name));
    }

    method ParseFunctionDef(exported: bool) returns (r: Result<Ast.Statement, ParseError>)
      modifies this
      ensures Gives(ParseFunction(old(tokens), exported), r, tokens)
      decreases |tokens|, 0
    {
      hide ParseIdent, Expect, ParseParameters, SplitParameters, ParseStatements;
      var name :- ExpectIdent();
      var _ :- ExpectToken(OpenParen);
      var parameters :- ParseParameterList();
      var split :- Divide(parameters);
      var _ :- ExpectToken(OpenBracket);
      var body :- ParseStatementList();
      r := Ok(Ast.Def(exported, Ast.Function(name, split.0, split.1, body)));
    }

    method ParseStatementList() returns (r: Result<seq<Ast.Statement>, ParseError>)
      modifies this
      ensures Gives(ParseStatements(old(tokens)), r, tokens)
      decreases |tokens|, 3
    {
      hide ParseStatements, ParseStatement;
      var result := [];
      ghost var start := tokens;
      PrependNone([], ParseStatements(start));
      while true
        invariant |tokens| <= |start| && ParseStatements(start) == Prepend(result, ParseStatements(tokens))
        decreases |tokens|
      {
        StatementsStep(result, tokens);
        var closing :- NextIf(ClosingBracket);
        if closing { return Ok(result); }
        var s :- ParseStatementTokens();
        result := result + [s];
      }
    }
  }

  /** Divides parameters into those that are required and those with defaults. */
  method Divide(ps: seq<Parameter>) returns (r: Result<(seq<string>, seq<Ast.Default>), ParseError>)
    ensures r == SplitParameters(ps)
  {
    var required, defaults, doneRequired := [], [], false;
    assert ps[..0] == [];
    for i := 0 to |ps|
      invariant SplitParameters(ps[..i]) == Ok((required, defaults)) && doneRequired == (defaults != [])
    {
      assert ps[..i + 1][..i] == ps[..i];
      match ps[i].default_ {
        case Some(e) =>
          doneRequired := true;
          defaults := defaults + [Ast.Default(ps[i].name, e)];
        case None =>
          if doneRequired {
            SplitFails(ps, i + 1);
            return Err(RequiredAfterDefault(ps[i].name));
          }
          required := required + [ps[i].name];
      }
    }
    assert ps[..|ps|] == ps;
    r := Ok((required, defaults));
  }

  lemma {:induction false} SplitFails(ps: seq<Parameter>, n: nat)
    requires n <= |ps| && SplitParameters(ps[..n]).Err?
    ensures SplitParameters(ps) == SplitParameters(ps[..n])
    decreases |ps|
  {
    if n < |ps| {
      assert ps[..|ps| - 1][..n] == ps[..n];
      SplitFails(ps[..|ps| - 1], n);
    } else {
      assert ps[..n] == ps;
    }
  }

  /** Parses the tokens of a whole file. */
  method ParseTokens(ts: Tokens) returns (r: Result<seq<Ast.Statement>, ParseError>)
    ensures ParseFile(ts).Ok? ==> r == Ok(ParseFile(ts).value.0)
    ensures ParseFile(ts).Err? ==> r == Err(ParseFile(ts).error)
  {
    hide ParseFile, ParseStatement;
    var parser := new Parser(ts);
    var statements := [];
    PrependNone([], ParseFile(ts));
    while parser.tokens != [] && parser.tokens[0] != Eof
      invariant fresh(parser) && ParseFile(ts) == Prepend(statements, ParseFile(parser.tokens))
      decreases |parser.tokens|
    {
      FileStep(statements, parser.tokens);
      var s :- parser.ParseStatementTokens();
      statements := statements + [s];
    }
    FileStep(statements, parser.tokens);
    r := Ok(statements);
  }

  /** From text to statements. */
  method ParseSource(k: Classes, text: string) returns (r: Result<seq<Ast.Statement>, FrontEnd.SyntaxError>)
    ensures r == FrontEnd.ReadSource(k, text)
  {
    hide ReadTokens, ParseFile;
    var tokens := Tokenize(k, text);
    match tokens {
      case Err(e) => r := Err(FrontEnd.Lexical(e));
      case Ok(ts) =>
        var parsed := ParseTokens(ts);
        match parsed {
          case Err(e) => r := Err(FrontEnd.Syntactic(e));
          case Ok(ss) => r := Ok(ss);
        }
    }
  }

  /** What is left of a loop over a list once it has `xs`, seen from before the next item. */
  ghost function AfterPart(xs: seq<string>, ts: Tokens): Parsed<seq<string>> {
    var (x, rest) :- ParseIdent(ts);
    Prepend(xs + [x], ParseParts(rest))
  }

  lemma PartsStep(xs: seq<string>, ts: Tokens)
    ensures Prepend(xs, ParseParts(ts))
            == if ts == [] then Err(EndOfTokens) else if ts[0] != Path then Ok((xs, ts)) else AfterPart(xs, ts[1..])
  {
    hide ParseIdent;
    PrependNone(xs, ParseParts(ts));
    if ts != [] && ts[0] == Path && ParseIdent(ts[1..]).Ok? {
      PrependMore(xs, ParseIdent(ts[1..]).value.0, ParseParts(ParseIdent(ts[1..]).value.1));
    }
  }

  ghost function AfterNode(xs: seq<Ast.Node>, ts: Tokens): Parsed<seq<Ast.Node>> {
    var (x, rest) :- ParseNode(ts);
    Prepend(xs + [x], ParseChain(rest))
  }

  lemma ChainStep(xs: seq<Ast.Node>, ts: Tokens)
    ensures Prepend(xs, ParseChain(ts))
            == if ts == [] then Err(EndOfTokens) else if ts[0] != Pipe then Ok((xs, ts)) else AfterNode(xs, ts[1..])
  {
    hide ParseNode;
    PrependNone(xs, ParseChain(ts));
    if ts != [] && ts[0] == Pipe && ParseNode(ts[1..]).Ok? {
      PrependMore(xs, ParseNode(ts[1..]).value.0, ParseChain(ParseNode(ts[1..]).value.1));
    }
  }

  ghost function AfterPath(xs: seq<Ast.ItemPath>, ts: Tokens, first: bool): Parsed<seq<Ast.ItemPath>> {
    var item :- Separated(ts, first);
    var (x, rest) :- ParsePath(item);
    Prepend(xs + [x], ParsePaths(rest, false))
  }

  lemma PathsStep(xs: seq<Ast.ItemPath>, ts: Tokens, first: bool)
    ensures Prepend(xs, ParsePaths(ts, first))
            == if ts == [] then Err(EndOfTokens) else if ts[0] == ClosingParen then Ok((xs, ts[1..]))
               else AfterPath(xs, ts, first)
  {
    hide ParsePath, Separated;
    PrependNone(xs, ParsePaths(ts, first));
    if ts != [] && ts[0] != ClosingParen && Separated(ts, first).Ok? {
      var item := ParsePath(Separated(ts, first).value);
      if item.Ok? { PrependMore(xs, item.value.0, ParsePaths(item.value.1, false)); }
    }
  }

  ghost function AfterArgument(xs: seq<Ast.Expression>, ts: Tokens, first: bool): Parsed<seq<Ast.Expression>> {
    var item :- Separated(ts, first);
    var (x, rest) :- ParseExpression(item);
    Prepend(xs + [x], ParseArguments(rest, false))
  }

  lemma ArgumentsStep(xs: seq<Ast.Expression>, ts: Tokens, first: bool)
    ensures Prepend(xs, ParseArguments(ts, first))
            == if ts == [] then Err(EndOfTokens) else if ts[0] == ClosingParen then Ok((xs, ts[1..]))
               else AfterArgument(xs, ts, first)
  {
    hide ParseExpression, Separated;
    PrependNone(xs, ParseArguments(ts, first));
    if ts != [] && ts[0] != ClosingParen && Separated(ts, first).Ok? {
      var item := ParseExpression(Separated(ts, first).value);
      if item.Ok? { PrependMore(xs, item.value.0, ParseArguments(item.value.1, false)); }
    }
  }

  ghost function AfterParameter(xs: seq<Parameter>, ts: Tokens, first: bool): Parsed<seq<Parameter>> {
    var item :- Separated(ts, first);
    var (x, rest) :- ParseParameter(item);
    Prepend(xs + [x], ParseParameters(rest, false))
  }

  lemma ParametersStep(xs: seq<Parameter>, ts: Tokens, first: bool)
    ensures Prepend(xs, ParseParameters(ts, first))
            == if ts == [] then Err(EndOfTokens) else if ts[0] == ClosingParen then Ok((xs, ts[1..]))
               else AfterParameter(xs, ts, first)
  {
    hide ParseParameter, Separated;
    PrependNone(xs, ParseParameters(ts, first));
    if ts != [] && ts[0] != ClosingParen && Separated(ts, first).Ok? {
      var item := ParseParameter(Separated(ts, first).value);
      if item.Ok? { PrependMore(xs, item.value.0, ParseParameters(item.value.1, false)); }
    }
  }

  ghost function AfterStatement(xs: seq<Ast.Statement>, ts: Tokens): Parsed<seq<Ast.Statement>> {
    var (x, rest) :- ParseStatement(ts);
    Prepend(xs + [x], ParseStatements(rest))
  }

  lemma StatementsStep(xs: seq<Ast.Statement>, ts: Tokens)
    ensures Prepend(xs, ParseStatements(ts))
            == if ts == [] then Err(EndOfTokens) else if ts[0] == ClosingBracket then Ok((xs, ts[1..]))
               else AfterStatement(xs, ts)
  {
    hide ParseStatement;
    PrependNone(xs, ParseStatements(ts));
    if ts != [] && ts[0] != ClosingBracket && ParseStatement(ts).Ok? {
      PrependMore(xs, ParseStatement(ts).value.0, ParseStatements(ParseStatement(ts).value.1));
    }
  }

  ghost function AfterTopLevel(xs: seq<Ast.Statement>, ts: Tokens): Parsed<seq<Ast.Statement>> {
    var (x, rest) :- ParseStatement(ts);
    Prepend(xs + [x], ParseFile(rest))
  }

  lemma FileStep(xs: seq<Ast.Statement>, ts: Tokens)
    ensures Prepend(xs, ParseFile(ts)) == if ts == [] || ts[0] == Eof then Ok((xs, ts)) else AfterTopLevel(xs, ts)
  {
    hide ParseStatement;
    PrependNone(xs, ParseFile(ts));
    if ts != [] && ts[0] != Eof && ParseStatement(ts).Ok? {
      PrependMore(xs, ParseStatement(ts).value.0, ParseFile(ParseStatement(ts).value.1));
    }
  }
}
