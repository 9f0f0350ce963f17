/** Where the parser stops, proved one token at a time: as long as it asks for more it has refused nothing,
    and once it has an answer no further token changes it. Hence the token that a file is refused for is
    the last one looked at, and what follows it does not matter. */
module ParserErrors {
  import opened Wrappers
  import Ast
  import opened Tokenizers
  import opened Parsers

  /** The answer when one more token follows what is left. */
  function More<T>(r: Parsed<T>, t: Token): Parsed<T> {
    match r
    case Ok(p) => Ok((p.0, p.1 + [t]))
    case Err(e) => Err(e)
  }

  /** An answer that came only with the last token `t`: at most that token is left, or it is the one refused. */
  ghost predicate Fresh<T>(r: Parsed<T>, t: Token) {
    && (r.Ok? ==> r.value.1 == [] || r.value.1 == [t])
    && (r.Err? && r.error.UnexpectedToken? ==> r.error.got == t)
  }

  /** What one more token does to a parser's answer. */
  ghost predicate Steps<T>(before: Parsed<T>, after: Parsed<T>, t: Token) {
    if before == Err(EndOfTokens) then Fresh(after, t) else after == More(before, t)
  }

  /** What is left for the next parser. */
  function Left<T>(r: Parsed<T>): Tokens {
    if r.Ok? then r.value.1 else []
  }

  lemma TailMore(ts: Tokens, t: Token)
    ensures ts != [] ==> (ts + [t])[0] == ts[0] && (ts + [t])[1..] == ts[1..] + [t]
    ensures [] + [t] == [t] && [t][1..] == []
  {
  }

  lemma ExpectSteps(ts: Tokens, wanted: Token, t: Token)
    requires wanted != Eof
    ensures Steps(Expect(ts, wanted), Expect(ts + [t], wanted), t)
    ensures ts == [] ==> Expect(ts, wanted) == Err(EndOfTokens)
  {
    TailMore(ts, t);
  }

  lemma IdentSteps(ts: Tokens, t: Token)
    ensures Steps(ParseIdent(ts), ParseIdent(ts + [t]), t)
    ensures ts == [] ==> ParseIdent(ts) == Err(EndOfTokens)
  {
    TailMore(ts, t);
  }

  lemma StrSteps(ts: Tokens, t: Token)
    ensures Steps(ParseStr(ts), ParseStr(ts + [t]), t)
    ensures ts == [] ==> ParseStr(ts) == Err(EndOfTokens)
  {
    TailMore(ts, t);
  }

  /** The answer of a list parser when the first item gave `item` and the rest of the list `list`. */
  function After<T>(item: Parsed<T>, list: Parsed<seq<T>>): Parsed<seq<T>> {
    if item.Ok? then Prepend([item.value.0], list) else Err(item.error)
  }

  lemma ItemSteps<T>(before: Parsed<T>, after: Parsed<T>, list: Parsed<seq<T>>, longer: Parsed<seq<T>>, t: Token)
    requires Steps(before, after, t) && (before.Ok? ==> Steps(list, longer, t))
    requires before == Err(EndOfTokens) && after.Ok? ==> Fresh(longer, t)
    ensures Steps(After(before, list), After(after, longer), t)
  {
  }

  lemma {:induction false} PartsSteps(ts: Tokens, t: Token)
    ensures Steps(ParseParts(ts), ParseParts(ts + [t]), t)
    ensures ts == [] ==> ParseParts(ts) == Err(EndOfTokens)
    decreases |ts|
  {
    hide ParseParts, ParseIdent;
    TailMore(ts, t);
    if ts == [] {
      FirstParts(t);
    } else if ts[0] != Path {
      PartsStop(ts);
      PartsStop(ts + [t]);
    } else {
      PartsGoOn(ts);
      PartsGoOn(ts + [t]);
      var before, after := ParseIdent(ts[1..]), ParseIdent(ts[1..] + [t]);
      IdentSteps(ts[1..], t);
      PartsSteps(Left(before), t);
      PartsSteps([], t);
      ItemSteps(before, after, ParseParts(Left(before)), ParseParts(Left(after)), t);
    }
  }

  lemma PartsStop(ts: Tokens)
    requires ts != [] && ts[0] != Path
    ensures ParseParts(ts) == Ok(([], ts))
  {
  }

  lemma PartsGoOn(ts: Tokens)
    requires ts != [] && ts[0] == Path
    ensures var item := ParseIdent(ts[1..]); ParseParts(ts) == After(item, ParseParts(Left(item)))
  {
    hide ParseIdent;
  }

  lemma {:induction false} FirstParts(t: Token)
    ensures ParseParts([]) == Err(EndOfTokens) && Steps(ParseParts([]), ParseParts([] + [t]), t)
  {
    hide ParseIdent;
    TailMore([], t);
    IdentSteps([], t);
  }

  lemma PathSteps(ts: Tokens, t: Token)
    ensures Steps(ParsePath(ts), ParsePath(ts + [t]), t)
    ensures ts == [] ==> ParsePath(ts) == Err(EndOfTokens)
  {
    hide ParseIdent, ParseParts;
    TailMore(ts, t);
    IdentSteps(ts, t);
    PartsSteps(Left(ParseIdent(ts)), t);
    PartsSteps([], t);
  }

  /** The separator before an item: the item starts with what is left. */
  lemma SeparatedSteps(ts: Tokens, first: bool, t: Token)
    ensures ts != [] && Separated(ts, first).Ok? ==> Separated(ts + [t], first) == Ok(Separated(ts, first).value + [t])
    ensures ts != [] && Separated(ts, first).Err? ==>
              Separated(ts, first).error != EndOfTokens && Separated(ts + [t], first) == Separated(ts, first)
    ensures Separated([t], first) == (if first then Ok([t]) else if t == Comma then Ok([]) else Err(UnexpectedToken(t)))
  {
    TailMore(ts, t);
  }

  lemma {:induction false} PathsSteps(ts: Tokens, first: bool, t: Token)
    ensures Steps(ParsePaths(ts, first), ParsePaths(ts + [t], first), t)
    ensures ts == [] ==> ParsePaths(ts, first) == Err(EndOfTokens)
    decreases |ts|
  {
    hide ParsePaths, ParsePath, Separated;
    TailMore(ts, t);
    if ts == [] {
      FirstPaths(first, t);
    } else if ts[0] == ClosingParen {
      PathsClose(ts, first);
      PathsClose(ts + [t], first);
    } else {
      PathsGoOn(ts, first);
      PathsGoOn(ts + [t], first);
      SeparatedSteps(ts, first, t);
      if Separated(ts, first).Ok? {
        var item := Separated(ts, first).value;
        var before, after := ParsePath(item), ParsePath(item + [t]);
        PathSteps(item, t);
        PathsSteps(Left(before), false, t);
        PathsSteps([], false, t);
        ItemSteps(before, after, ParsePaths(Left(before), false), ParsePaths(Left(after), false), t) by {
          PathsAfter(before, after, t);
        }
      }
    }
  }

  lemma PathsClose(ts: Tokens, first: bool)
    requires ts != [] && ts[0] == ClosingParen
    ensures ParsePaths(ts, first) == Ok(([], ts[1..]))
  {
  }

  lemma PathsGoOn(ts: Tokens, first: bool)
    requires ts != [] && ts[0] != ClosingParen
    ensures Separated(ts, first).Err? ==> ParsePaths(ts, first) == Err(Separated(ts, first).error)
    ensures Separated(ts, first).Ok? ==>
              var item := ParsePath(Separated(ts, first).value);
              ParsePaths(ts, first) == After(item, ParsePaths(Left(item), false))
  {
    hide ParsePath, Separated;
  }

  lemma PathsAfter(before: Parsed<Ast.ItemPath>, after: Parsed<Ast.ItemPath>, t: Token)
    requires Steps(before, after, t)
    requires before.Ok? ==> Steps(ParsePaths(Left(before), false), ParsePaths(Left(before) + [t], false), t)
    requires Steps(ParsePaths([], false), ParsePaths([] + [t], false), t)
    requires ParsePaths([], false) == Err(EndOfTokens)
    ensures before.Ok? ==> Steps(ParsePaths(Left(before), false), ParsePaths(Left(after), false), t)
    ensures before == Err(EndOfTokens) && after.Ok? ==> Fresh(ParsePaths(Left(after), false), t)
  {
    hide ParsePaths;
    TailMore([], t);
  }

  lemma {:induction false} FirstPaths(first: bool, t: Token)
    ensures ParsePaths([], first) == Err(EndOfTokens)
    ensures Steps(ParsePaths([], first), ParsePaths([] + [t], first), t)
  {
    hide ParsePath;
    TailMore([], t);
    PathSteps([], t);
  }

  lemma PhantomsSteps(ts: Tokens, t: Token)
    ensures Steps(ParsePhantoms(ts), ParsePhantoms(ts + [t]), t)
    ensures ts == [] ==> ParsePhantoms(ts) == Err(EndOfTokens)
  {
    hide ParsePath, ParsePaths;
    TailMore(ts, t);
    if ts != [] && ts[0] == Wait {
      TailMore(ts[1..], t);
      PathSteps(ts[1..], t);
      if ts[1..] != [] {
        assert (ts + [t])[2..] == ts[2..] + [t];
        PathsSteps(ts[2..], true, t);
      } else {
        assert (ts + [t])[2..] == [] && (ts + [t])[1] == t;
        PathsSteps([], true, t);
      }
    }
  }

  lemma {:induction false} NodeSteps(ts: Tokens, t: Token)
    ensures Steps(ParseNode(ts), ParseNode(ts + [t]), t)
    ensures ts == [] ==> ParseNode(ts) == Err(EndOfTokens)
    decreases |ts|, 3
  {
    hide ParsePath, ParsePhantoms, ParseCall;
    TailMore(ts, t);
    PhantomsSteps(ts, t);
    var after := Left(ParsePhantoms(ts));
    PathSteps(after, t);
    PathSteps([], t);
    var phantoms := ParsePhantoms(ts + [t]);
    if phantoms.Ok? {
      var name := ParsePath(phantoms.value.1);
      if name.Ok? {
        CallSteps(Left(ParsePath(after)), name.value.0, phantoms.value.0, t);
        CallSteps([], name.value.0, phantoms.value.0, t);
      }
    }
  }

  lemma {:induction false} CallSteps(ts: Tokens, name: Ast.ItemPath, phantoms: seq<Ast.ItemPath>, t: Token)
    ensures Steps(ParseCall(ts, name, phantoms), ParseCall(ts + [t], name, phantoms), t)
    ensures ts == [] ==> ParseCall(ts, name, phantoms) == Err(EndOfTokens)
    decreases |ts|, 2
  {
    hide ParseArguments;
    TailMore(ts, t);
    if ts != [] { ArgumentsSteps(ts[1..], true, t); } else { NoArgumentsYet(true); }
  }

  lemma NoArgumentsYet(first: bool)
    ensures ParseArguments([], first) == Err(EndOfTokens)
  {
  }

  lemma {:induction false} ArgumentsSteps(ts: Tokens, first: bool, t: Token)
    ensures Steps(ParseArguments(ts, first), ParseArguments(ts + [t], first), t)
    ensures ts == [] ==> ParseArguments(ts, first) == Err(EndOfTokens)
    decreases |ts|, 8
  {
    hide ParseArguments, ParseExpression, Separated;
    TailMore(ts, t);
    if ts == [] {
      FirstArguments(first, t);
    } else if ts[0] == ClosingParen {
      ArgumentsClose(ts, first);
      ArgumentsClose(ts + [t], first);
    } else {
      ArgumentsGoOn(ts, first);
      ArgumentsGoOn(ts + [t], first);
      SeparatedSteps(ts, first, t);
      if Separated(ts, first).Ok? {
        var item := Separated(ts, first).value;
        var before, after := ParseExpression(item), ParseExpression(item + [t]);
        ExpressionSteps(item, t);
        ArgumentsSteps(Left(before), false, t);
        ArgumentsSteps([], false, t);
        ItemSteps(before, after, ParseArguments(Left(before), false), ParseArguments(Left(after), false), t) by {
          ArgumentsAfter(before, after, t);
        }
      }
    }
  }

  lemma ArgumentsClose(ts: Tokens, first: bool)
    requires ts != [] && ts[0] == ClosingParen
    ensures ParseArguments(ts, first) == Ok(([], ts[1..]))
  {
  }

  lemma ArgumentsGoOn(ts: Tokens, first: bool)
    requires ts != [] && ts[0] != ClosingParen
    ensures Separated(ts, first).Err? ==> ParseArguments(ts, first) == Err(Separated(ts, first).error)
    ensures Separated(ts, first).Ok? ==>
              var item := ParseExpression(Separated(ts, first).value);
              ParseArguments(ts, first) == After(item, ParseArguments(Left(item), false))
  {
    hide ParseExpression, Separated;
  }

  lemma ArgumentsAfter(before: Parsed<Ast.Expression>, after: Parsed<Ast.Expression>, t: Token)
    requires Steps(before, after, t)
    requires before.Ok? ==> Steps(ParseArguments(Left(before), false), ParseArguments(Left(before) + [t], false), t)
    requires Steps(ParseArguments([], false), ParseArguments([] + [t], false), t)
    requires ParseArguments([], false) == Err(EndOfTokens)
    ensures before.Ok? ==> Steps(ParseArguments(Left(before), false), ParseArguments(Left(after), false), t)
    ensures before == Err(EndOfTokens) && after.Ok? ==> Fresh(ParseArguments(Left(after), false), t)
  {
    hide ParseArguments;
    TailMore([], t);
  }

  lemma {:induction false} FirstArguments(first: bool, t: Token)
    ensures ParseArguments([], first) == Err(EndOfTokens)
    ensures Steps(ParseArguments([], first), ParseArguments([] + [t], first), t)
    decreases 0, 7
  {
    hide ParseExpression;
    TailMore([], t);
    ExpressionSteps([], t);
  }

  lemma {:induction false} AtomSteps(ts: Tokens, t: Token)
    ensures Steps(ParseAtom(ts), ParseAtom(ts + [t]), t)
    ensures ts == [] ==> ParseAtom(ts) == Err(EndOfTokens)
    decreases |ts|, 4
  {
    hide ParsePath, ParseNode, ParseNamed;
    TailMore(ts, t);
    NodeSteps(ts, t);
    if ts == [] {
      NamedAlone(t);
      if t.Ident? { AtomIsNamed([t]); }
    } else if ts[0].Ident? {
      AtomIsNamed(ts);
      AtomIsNamed(ts + [t]);
      NamedSteps(ts, t);
    }
  }

  /** A label, or a call that waits for nothing. */
  function ParseNamed(ts: Tokens): Parsed<Ast.Expression> {
    var (path, rest) :- ParsePath(ts);
    if rest == [] then Err(EndOfTokens)
    else if rest[0] != OpenParen then Ok((Ast.Label(path), rest))
    else
      var (node, after) :- ParseCall(rest, path, []);
      Ok((Ast.Call(node), after))
  }

  lemma AtomIsNamed(ts: Tokens)
    requires ts != [] && ts[0].Ident?
    ensures ParseAtom(ts) == ParseNamed(ts)
  {
    hide ParsePath, ParseCall;
  }

  lemma NamedAlone(t: Token)
    ensures Fresh(ParseNamed([t]), t)
  {
    hide ParsePath, ParseCall;
    TailMore([], t);
    PathSteps([], t);
  }

  lemma {:induction false} NamedSteps(ts: Tokens, t: Token)
    requires ts != []
    ensures Steps(ParseNamed(ts), ParseNamed(ts + [t]), t)
    decreases |ts|, 3
  {
    hide ParsePath, ParseCall;
    PathSteps(ts, t);
    var rest := Left(ParsePath(ts));
    TailMore(rest, t);
    var path := ParsePath(ts + [t]);
    if path.Ok? {
      CallSteps(rest, path.value.0, [], t);
      CallSteps([], path.value.0, [], t);
    }
  }

  lemma {:induction false} ChainSteps(ts: Tokens, t: Token)
    ensures Steps(ParseChain(ts), ParseChain(ts + [t]), t)
    ensures ts == [] ==> ParseChain(ts) == Err(EndOfTokens)
    decreases |ts|, 5
  {
    hide ParseChain, ParseNode;
    TailMore(ts, t);
    if ts == [] {
      FirstChain(t);
    } else if ts[0] != Pipe {
      ChainStop(ts);
      ChainStop(ts + [t]);
    } else {
      ChainGoOn(ts);
      ChainGoOn(ts + [t]);
      var before, after := ParseNode(ts[1..]), ParseNode(ts[1..] + [t]);
      NodeSteps(ts[1..], t);
      ChainSteps(Left(before), t);
      ChainSteps([], t);
      ItemSteps(before, after, ParseChain(Left(before)), ParseChain(Left(after)), t);
    }
  }

  lemma ChainStop(ts: Tokens)
    requires ts != [] && ts[0] != Pipe
    ensures ParseChain(ts) == Ok(([], ts))
  {
  }

  lemma ChainGoOn(ts: Tokens)
    requires ts != [] && ts[0] == Pipe
    ensures var item := ParseNode(ts[1..]); ParseChain(ts) == After(item, ParseChain(Left(item)))
  {
    hide ParseNode;
  }

  lemma {:induction false} FirstChain(t: Token)
    ensures ParseChain([]) == Err(EndOfTokens) && Steps(ParseChain([]), ParseChain([] + [t]), t)
    decreases 0, 4
  {
    hide ParseNode;
    TailMore([], t);
    NodeSteps([], t);
  }

  lemma {:induction false} ExpressionSteps(ts: Tokens, t: Token)
    ensures Steps(ParseExpression(ts), ParseExpression(ts + [t]), t)
    ensures ts == [] ==> ParseExpression(ts) == Err(EndOfTokens)
    decreases |ts|, 6
  {
    hide ParseAtom, ParseChain;
    AtomSteps(ts, t);
    var rest := Left(ParseAtom(ts));
    TailMore(rest, t);
    ChainSteps(rest, t);
    ChainSteps([], t);
  }

  lemma ParameterSteps(ts: Tokens, t: Token)
    ensures Steps(ParseParameter(ts), ParseParameter(ts + [t]), t)
    ensures ts == [] ==> ParseParameter(ts) == Err(EndOfTokens)
  {
    hide ParseExpression;
    TailMore(ts, t);
    ExpressionSteps([], t);
    if ts != [] {
      TailMore(ts[1..], t);
      if ts[1..] != [] { ExpressionSteps(ts[1..][1..], t); }
    }
  }

  lemma {:induction false} ParametersSteps(ts: Tokens, first: bool, t: Token)
    ensures Steps(ParseParameters(ts, first), ParseParameters(ts + [t], first), t)
    ensures ts == [] ==> ParseParameters(ts, first) == Err(EndOfTokens)
    decreases |ts|
  {
    hide ParseParameters, ParseParameter, Separated;
    TailMore(ts, t);
    if ts == [] {
      FirstParameters(first, t);
    } else if ts[0] == ClosingParen {
      ParametersClose(ts, first);
      ParametersClose(ts + [t], first);
    } else {
      ParametersGoOn(ts, first);
      ParametersGoOn(ts + [t], first);
      SeparatedSteps(ts, first, t);
      if Separated(ts, first).Ok? {
        var item := Separated(ts, first).value;
        var before, after := ParseParameter(item), ParseParameter(item + [t]);
        ParameterSteps(item, t);
        ParametersSteps(Left(before), false, t);
        ParametersSteps([], false, t);
        ItemSteps(before, after, ParseParameters(Left(before), false), ParseParameters(Left(after), false), t) by {
          ParametersAfter(before, after, t);
        }
      }
    }
  }

  lemma ParametersClose(ts: Tokens, first: bool)
    requires ts != [] && ts[0] == ClosingParen
    ensures ParseParameters(ts, first) == Ok(([], ts[1..]))
  {
  }

  lemma ParametersGoOn(ts: Tokens, first: bool)
    requires ts != [] && ts[0] != ClosingParen
    ensures Separated(ts, first).Err? ==> ParseParameters(ts, first) == Err(Separated(ts, first).error)
    ensures Separated(ts, first).Ok? ==>
              var item := ParseParameter(Separated(ts, first).value);
              ParseParameters(ts, first) == After(item, ParseParameters(Left(item), false))
  {
    hide ParseParameter, Separated;
  }

  lemma ParametersAfter(before: Parsed<Parameter>, after: Parsed<Parameter>, t: Token)
    requires Steps(before, after, t)
    requires before.Ok? ==> Steps(ParseParameters(Left(before), false), ParseParameters(Left(before) + [t], false), t)
    requires Steps(ParseParameters([], false), ParseParameters([] + [t], false), t)
    requires ParseParameters([], false) == Err(EndOfTokens)
    ensures before.Ok? ==> Steps(ParseParameters(Left(before), false), ParseParameters(Left(after), false), t)
    ensures before == Err(EndOfTokens) && after.Ok? ==> Fresh(ParseParameters(Left(after), false), t)
  {
    hide ParseParameters;
    TailMore([], t);
  }

  lemma {:induction false} FirstParameters(first: bool, t: Token)
    ensures ParseParameters([], first) == Err(EndOfTokens)
    ensures Steps(ParseParameters([], first), ParseParameters([] + [t], first), t)
  {
    hide ParseParameter;
    TailMore([], t);
    ParameterSteps([], t);
  }

  /** An expression and the semicolon after it. */
  function ParseEnded(ts: Tokens): Parsed<Ast.Expression> {
    var (e, rest) :- ParseExpression(ts);
    var (_, end) :- Expect(rest, SemiColon);
    Ok((e, end))
  }

  lemma EndedSteps(ts: Tokens, t: Token)
    ensures Steps(ParseEnded(ts), ParseEnded(ts + [t]), t)
    ensures ts == [] ==> ParseEnded(ts) == Err(EndOfTokens)
  {
    hide ParseExpression, Expect;
    TailMore(ts, t);
    ExpressionSteps(ts, t);
    ExpectSteps(Left(ParseExpression(ts)), SemiColon, t);
    ExpectSteps([], SemiColon, t);
  }

  lemma LabelSteps(ts: Tokens, exported: bool, name: string, t: Token)
    ensures Steps(ParseLabel(ts, exported, name), ParseLabel(ts + [t], exported, name), t)
    ensures ts == [] ==> ParseLabel(ts, exported, name) == Err(EndOfTokens)
  {
    hide ParseEnded;
    LabelIsEnded(ts, exported, name);
    LabelIsEnded(ts + [t], exported, name);
    hide ParseLabel, Expect;
    TailMore(ts, t);
    ExpectSteps(ts, Eq, t);
    EndedSteps(Left(Expect(ts, Eq)), t);
    EndedSteps([], t);
  }

  lemma LabelIsEnded(ts: Tokens, exported: bool, name: string)
    ensures ParseLabel(ts, exported, name) == Labelled(ts, exported, name)
  {
    hide ParseExpression, Expect;
  }

  function Labelled(ts: Tokens, exported: bool, name: string): Parsed<Ast.Statement> {
    var (_, after) :- Expect(ts, Eq);
    var (e, end) :- ParseEnded(after);
    Ok((Ast.Assign(exported, e, name), end))
  }

  /** What is imported, and as what. */
  function ParseTarget(ts: Tokens): Parsed<string> {
    var (path, after) :- ParseStr(ts);
    var (_, named) :- Expect(after, As);
    Ok((path, named))
  }

  function ParseAlias(ts: Tokens): Parsed<string> {
    var (name, rest) :- ParseIdent(ts);
    var (_, end) :- Expect(rest, SemiColon);
    Ok((name, end))
  }

  lemma TargetSteps(ts: Tokens, t: Token)
    ensures Steps(ParseTarget(ts), ParseTarget(ts + [t]), t)
    ensures ts == [] ==> ParseTarget(ts) == Err(EndOfTokens)
  {
    hide ParseStr, Expect;
    TailMore(ts, t);
    StrSteps(ts, t);
    ExpectSteps(Left(ParseStr(ts)), As, t);
    ExpectSteps([], As, t);
  }

  lemma AliasSteps(ts: Tokens, t: Token)
    ensures Steps(ParseAlias(ts), ParseAlias(ts + [t]), t)
    ensures ts == [] ==> ParseAlias(ts) == Err(EndOfTokens)
  {
    hide ParseIdent, Expect;
    TailMore(ts, t);
    IdentSteps(ts, t);
    ExpectSteps(Left(ParseIdent(ts)), SemiColon, t);
    ExpectSteps([], SemiColon, t);
  }

  lemma ImportSteps(ts: Tokens, exported: bool, t: Token)
    ensures Steps(ParseImport(ts, exported), ParseImport(ts + [t], exported), t)
    ensures ts == [] ==> ParseImport(ts, exported) == Err(EndOfTokens)
  {
    hide ParseImport, ParseTarget, ParseAlias;
    ImportIsHalves(ts, exported);
    ImportIsHalves(ts + [t], exported);
    TailMore(ts, t);
    TargetSteps(ts, t);
    AliasSteps(Left(ParseTarget(ts)), t);
    AliasSteps([], t);
  }

  function ImportHalves(ts: Tokens, exported: bool): Parsed<Ast.Statement> {
    var (path, named) :- ParseTarget(ts);
    var (name, end) :- ParseAlias(named);
    Ok((Ast.Import(exported, path, name), end))
  }

  lemma ImportIsHalves(ts: Tokens, exported: bool)
    ensures ParseImport(ts, exported) == ImportHalves(ts, exported)
  {
    hide ParseStr, ParseIdent, Expect;
  }

  /** The name of a function and its parameters. */
  function ParseHead(ts: Tokens): Parsed<(string, seq<Parameter>)> {
    var (name, begun) :- ParseIdent(ts);
    var (_, listed) :- Expect(begun, OpenParen);
    var (parameters, closed) :- ParseParameters(listed, true);
    Ok(((name, parameters), closed))
  }

  /** The body of a function. */
  function ParseBody(ts: Tokens): Parsed<seq<Ast.Statement>> {
    var (_, inside) :- Expect(ts, OpenBracket);
    ParseStatements(inside)
  }

  /** A function definition in two halves. */
  function ParseHalves(ts: Tokens, exported: bool): Parsed<Ast.Statement> {
    var (head, closed) :- ParseHead(ts);
    var (required, defaults) :- SplitParameters(head.1);
    var (body, rest) :- ParseBody(closed);
    Ok((Ast.Def(exported, Ast.Function(head.0, required, defaults, body)), rest))
  }

  lemma FunctionIsHalves(ts: Tokens, exported: bool)
    ensures ParseFunction(ts, exported) == ParseHalves(ts, exported)
  {
    hide ParseIdent, Expect, ParseParameters, SplitParameters, ParseStatements;
  }

  lemma HeadSteps(ts: Tokens, t: Token)
    ensures Steps(ParseHead(ts), ParseHead(ts + [t]), t)
    ensures ts == [] ==> ParseHead(ts) == Err(EndOfTokens)
  {
    hide ParseIdent, Expect, ParseParameters;
    TailMore(ts, t);
    IdentSteps(ts, t);
    var begun := Left(ParseIdent(ts));
    ExpectSteps(begun, OpenParen, t);
    ExpectSteps([], OpenParen, t);
    ParametersSteps(Left(Expect(begun, OpenParen)), true, t);
    ParametersSteps([], true, t);
  }

  lemma {:induction false} FunctionSteps(ts: Tokens, exported: bool, t: Token)
    ensures Steps(ParseFunction(ts, exported), ParseFunction(ts + [t], exported), t)
    ensures ts == [] ==> ParseFunction(ts, exported) == Err(EndOfTokens)
    decreases |ts|, 0
  {
    hide ParseFunction, ParseHead, SplitParameters, ParseBody;
    FunctionIsHalves(ts, exported);
    FunctionIsHalves(ts + [t], exported);
    HeadSteps(ts, t);
    TailMore(ts, t);
    HeadIsShorter(ts);
    if ts != [] { BodySteps(Left(ParseHead(ts)), t); }
    NoBodyYet(t);
    HeadIsShorter([t]);
  }

  lemma HeadIsShorter(ts: Tokens)
    ensures ParseHead(ts).Ok? ==> |ParseHead(ts).value.1| < |ts|
  {
    hide ParseIdent, Expect, ParseParameters;
  }

  lemma NoBodyYet(t: Token)
    ensures ParseBody([]) == Err(EndOfTokens) && Fresh(ParseBody([t]), t)
  {
    hide ParseStatement;
    TailMore([], t);
  }

  lemma {:induction false} BodySteps(ts: Tokens, t: Token)
    ensures Steps(ParseBody(ts), ParseBody(ts + [t]), t)
    decreases |ts|, 4
  {
    hide ParseStatements;
    TailMore(ts, t);
    if ts != [] { StatementsSteps(ts[1..], t); } else { NoBodyYet(t); }
  }

  lemma {:induction false} DeclarationSteps(token: Token, ts: Tokens, exported: bool, t: Token)
    ensures Steps(ParseDeclaration(token, ts, exported), ParseDeclaration(token, ts + [t], exported), t)
    decreases |ts|, 1
  {
    hide ParseFunction, ParseLabel, ParseImport;
    FunctionSteps(ts, exported, t);
    ImportSteps(ts, exported, t);
    if token.Ident? { LabelSteps(ts, exported, token.name, t); }
  }

  /** A declaration of which only the first token is there. */
  lemma DeclarationStarts(token: Token, exported: bool)
    ensures ParseDeclaration(token, [], exported) in {Err(EndOfTokens), Err(UnexpectedToken(token))}
  {
    hide ParseExpression, ParseParameters, ParseStatements;
  }

  lemma {:induction false} StatementSteps(ts: Tokens, t: Token)
    ensures Steps(ParseStatement(ts), ParseStatement(ts + [t]), t)
    ensures ts == [] ==> ParseStatement(ts) == Err(EndOfTokens)
    decreases |ts|, 2
  {
    StatementIsEnded(ts);
    StatementIsEnded(ts + [t]);
    hide ParseStatement, ParseEnded, ParseDeclaration;
    TailMore(ts, t);
    EndedSteps([], t);
    DeclarationStarts(t, false);
    DeclarationStarts(t, true);
    if ts != [] {
      EndedSteps(ts[1..], t);
      DeclarationSteps(ts[0], ts[1..], false, t);
      TailMore(ts[1..], t);
      if ts[1..] != [] { DeclarationSteps(ts[1], ts[1..][1..], true, t); }
    }
  }

  lemma StatementIsEnded(ts: Tokens)
    ensures ParseStatement(ts) == Stated(ts)
  {
    hide ParseExpression, Expect, ParseDeclaration;
  }

  function Stated(ts: Tokens): Parsed<Ast.Statement> {
    var (token, rest) :- Next(ts);
    if token == Return then
      var (e, end) :- ParseEnded(rest);
      Ok((Ast.Return(e), end))
    else if token == Export then
      var (second, after) :- Next(rest);
      ParseDeclaration(second, after, true)
    else ParseDeclaration(token, rest, false)
  }

  lemma {:induction false} StatementsSteps(ts: Tokens, t: Token)
    ensures Steps(ParseStatements(ts), ParseStatements(ts + [t]), t)
    ensures ts == [] ==> ParseStatements(ts) == Err(EndOfTokens)
    decreases |ts|, 3
  {
    hide ParseStatement;
    TailMore(ts, t);
    StatementSteps(ts, t);
    if ts != [] {
      StatementsSteps(Left(ParseStatement(ts)), t);
      StatementsSteps([], t);
    }
  }

  /** Once a statement has been read or refused, more tokens do not change that. */
  lemma {:induction false} StatementIsSettled(ts: Tokens, more: Tokens)
    requires ParseStatement(ts) != Err(EndOfTokens)
    ensures ParseStatement(ts).Ok? ==>
              ParseStatement(ts + more) == Ok((ParseStatement(ts).value.0, ParseStatement(ts).value.1 + more))
    ensures ParseStatement(ts).Err? ==> ParseStatement(ts + more) == ParseStatement(ts)
    decreases |more|
  {
    hide ParseStatement;
    if more == [] {
      assert ts + more == ts;
      if ParseStatement(ts).Ok? { assert ParseStatement(ts).value.1 + more == ParseStatement(ts).value.1; }
    } else {
      var before, t := more[..|more| - 1], more[|more| - 1];
      assert more == before + [t] && ts + more == (ts + before) + [t];
      StatementIsSettled(ts, before);
      StatementSteps(ts + before, t);
      if ParseStatement(ts).Ok? {
        assert ParseStatement(ts).value.1 + before + [t] == ParseStatement(ts).value.1 + more;
      }
    }
  }

  /** The first tokens that settle a statement: all before them do not, so the last of them is left or was
      refused, if it was not read. */
  lemma {:induction false} FirstSettled(ts: Tokens, n: nat) returns (m: nat)
    requires n <= |ts| && ParseStatement(ts[..n]) == Err(EndOfTokens) && ParseStatement(ts) != Err(EndOfTokens)
    ensures n < m <= |ts| && ParseStatement(ts[..m]) != Err(EndOfTokens) && Fresh(ParseStatement(ts[..m]), ts[m - 1])
    decreases |ts| - n
  {
    hide ParseStatement;
    assert n < |ts| by { assert ts[..|ts|] == ts; }
    assert ts[..n + 1] == ts[..n] + [ts[n]];
    StatementSteps(ts[..n], ts[n]);
    if ParseStatement(ts[..n + 1]) == Err(EndOfTokens) { m := FirstSettled(ts, n + 1); } else { m := n + 1; }
  }

  /** The lists start with the same `n` tokens. */
  ghost predicate Agree(ts: Tokens, us: Tokens, n: nat) {
    n <= |ts| && n <= |us| && ts[..n] == us[..n]
  }

  /** The lists go on alike after the first `k` tokens. */
  lemma AgreeAfter(ts: Tokens, us: Tokens, n: nat, k: nat)
    requires Agree(ts, us, n) && k <= n
    ensures k <= |ts| && k <= |us| && Agree(ts[k..], us[k..], n - k) && Agree(ts, us, k)
  {
    assert ts[k..][..n - k] == ts[..n][k..] && us[k..][..n - k] == us[..n][k..];
    assert ts[..k] == ts[..n][..k] && us[..k] == us[..n][..k];
  }

  /** A statement that is read is read alike in any list that starts with its tokens and the one behind. */
  lemma StatementStays(ts: Tokens, us: Tokens)
    requires ParseStatement(ts).Ok?
    requires Agree(ts, us, |ts| - |ParseStatement(ts).value.1| + 1)
    ensures var n := |ts| - |ParseStatement(ts).value.1|;
      && ParseStatement(ts).value.1 == ts[n..] && ParseStatement(us) == Ok((ParseStatement(ts).value.0, us[n..]))
  {
    hide ParseStatement, Agree;
    var m, left := SettledStatement(ts);
    AgreeAfter(ts, us, |ts| - |ParseStatement(ts).value.1| + 1, m);
    SameFirst(ts, us, m);
    StatementIsSettled(us[..m], us[m..]);
    LastLeft(us, m, left);
  }

  /** A statement is settled by its tokens, or by them and the one behind. */
  lemma SettledStatement(ts: Tokens) returns (m: nat, left: Tokens)
    requires ParseStatement(ts).Ok?
    ensures 0 < m <= |ts| && (left == [] || left == [ts[m - 1]])
    ensures ParseStatement(ts[..m]) == Ok((ParseStatement(ts).value.0, left))
    ensures ParseStatement(ts).value.1 == ts[m - |left|..]
  {
    hide ParseStatement;
    StatementSteps([], Eof);
    m := FirstSettled(ts, 0);
    assert ts[..m] + ts[m..] == ts;
    StatementIsSettled(ts[..m], ts[m..]);
    left := ParseStatement(ts[..m]).value.1;
    LastLeft(ts, m, left);
  }

  lemma SameFirst(ts: Tokens, us: Tokens, m: nat)
    requires Agree(ts, us, m) && m > 0
    ensures ts[m - 1] == us[m - 1] && ts[..m] == us[..m] && us[..m] + us[m..] == us
  {
    assert ts[..m][m - 1] == us[..m][m - 1];
  }

  lemma LastLeft(ts: Tokens, m: nat, left: Tokens)
    requires 0 < m <= |ts| && (left == [] || left == [ts[m - 1]])
    ensures left + ts[m..] == ts[m - |left|..]
  {
  }

  lemma StatementRefused(ts: Tokens) returns (i: nat)
    requires ParseStatement(ts).Err? && ParseStatement(ts).error.UnexpectedToken?
    ensures i < |ts| && ts[i] == ParseStatement(ts).error.got
    ensures forall us :: Agree(ts, us, i + 1) ==> ParseStatement(us) == ParseStatement(ts)
  {
    hide ParseStatement;
    StatementSteps([], Eof);
    var m := FirstSettled(ts, 0);
    i := m - 1;
    assert ts[..m] + ts[m..] == ts;
    StatementIsSettled(ts[..m], ts[m..]);
    forall us | Agree(ts, us, m) ensures ParseStatement(us) == ParseStatement(ts) {
      assert us[..m] + us[m..] == us;
      StatementIsSettled(us[..m], us[m..]);
    }
  }

  ghost predicate Refused<T>(r: Parsed<T>) {
    r.Err? && r.error.UnexpectedToken?
  }

  /** The token that a file is refused for stands in it, and no file that starts with the same tokens up to
      that one is accepted, whatever comes after. */
  lemma {:induction false} FileRefused(ts: Tokens) returns (i: nat)
    requires Refused(ParseFile(ts))
    ensures i < |ts| && ts[i] == ParseFile(ts).error.got
    ensures forall us :: Agree(ts, us, i + 1) ==> ParseFile(us) == ParseFile(ts)
    decreases |ts|
  {
    hide ParseStatement, Agree;
    if ParseStatement(ts).Err? {
      i := StatementRefused(ts);
      forall us | Agree(ts, us, i + 1) ensures ParseFile(us) == ParseFile(ts) { AgreeAt(ts, us, i + 1); }
    } else {
      var n := |ts| - |ParseStatement(ts).value.1|;
      StatementStays(ts, ts) by { SelfAgrees(ts, n + 1); }
      var j := FileRefused(ts[n..]);
      i := n + j;
      forall us | Agree(ts, us, i + 1) ensures ParseFile(us) == ParseFile(ts) {
        AgreeAt(ts, us, i + 1);
        AgreeAfter(ts, us, i + 1, n + 1);
        StatementStays(ts, us);
        AgreeAfter(ts, us, i + 1, n);
      }
    }
  }

  lemma AgreeAt(ts: Tokens, us: Tokens, n: nat)
    requires Agree(ts, us, n) && n > 0
    ensures ts != [] && us != [] && us[0] == ts[0]
  {
    assert ts[..n][0] == us[..n][0];
  }

  lemma SelfAgrees(ts: Tokens, n: nat)
    requires n <= |ts|
    ensures Agree(ts, ts, n)
  {
  }
}
