/** Writing syntax down and reading it back: every well-formed file, shown as text, is tokenized and
    parsed to itself, and a text is read as a file exactly if it is one of the ways to write it. */
module FrontEnd {
  import opened Wrappers
  import Ast
  import opened Tokenizers
  import opened Parsers
  import opened Grammar
  import opened Lexicon

  function ExpressionTokens(e: Ast.Expression): seq<Token>
    decreases e, 1
  {
    match e
    case Number(n) => [Numeric(if n < 0 then 0 else n)]
    case Text(t) => [Str(t)]
    case Label(p) => PathTokens(p)
    case Call(n) => NodeTokens(n)
    case Chain(start, nodes) => ExpressionTokens(start) + ChainTokens(nodes)
  }

  function ChainTokens(ns: seq<Ast.Node>): seq<Token>
    decreases ns, 0
  {
    if ns == [] then [] else [Pipe] + NodeTokens(ns[0]) + ChainTokens(ns[1..])
  }

  function WaitTokens(ps: seq<Ast.ItemPath>): seq<Token> {
    if ps == [] then [] else [Wait, OpenParen] + PathsTokens(ps, true)
  }

  function NodeTokens(n: Ast.Node): seq<Token>
    decreases n, 1
  {
    WaitTokens(n.phantoms) + PathTokens(n.name) + [OpenParen] + ArgumentTokens(n.arguments, true)
  }

  function ArgumentTokens(es: seq<Ast.Expression>, first: bool): seq<Token>
    decreases es, 0
  {
    if es == [] then [ClosingParen] else Separator(first) + ExpressionTokens(es[0]) + ArgumentTokens(es[1..], false)
  }

  /** What the parser can produce: chains have nodes and start with something else, and numbers are in range. */
  predicate WellFormed(e: Ast.Expression)
    decreases e, 1
  {
    match e
    case Number(n) => 0 <= n <= MAX_NUMBER
    case Call(n) => WellFormedNode(n)
    case Chain(start, nodes) => !start.Chain? && nodes != [] && WellFormed(start) && WellFormedNodes(nodes)
    case _ => true
  }

  predicate WellFormedNode(n: Ast.Node)
    decreases n, 1
  {
    WellFormedAll(n.arguments)
  }

  predicate WellFormedNodes(ns: seq<Ast.Node>)
    decreases ns, 0
  {
    ns == [] || (WellFormedNode(ns[0]) && WellFormedNodes(ns[1..]))
  }

  predicate WellFormedAll(es: seq<Ast.Expression>)
    decreases es, 0
  {
    es == [] || (WellFormed(es[0]) && WellFormedAll(es[1..]))
  }

  function ParameterToken(p: Parameter): seq<Token> {
    [Ident(p.name)] + if p.default_.Some? then [Eq] + ExpressionTokens(p.default_.value) else []
  }

  function ParameterTokens(ps: seq<Parameter>, first: bool): seq<Token> {
    if ps == [] then [ClosingParen] else Separator(first) + ParameterToken(ps[0]) + ParameterTokens(ps[1..], false)
  }

  function StatementTokens(s: Ast.Statement): seq<Token>
    decreases s, 1
  {
    match s
    case Return(e) => [Return] + ExpressionTokens(e) + [SemiColon]
    case Import(exported, path, name) => ExportTokens(exported) + [Import, Str(path), As, Ident(name), SemiColon]
    case Assign(exported, e, name) => ExportTokens(exported) + [Ident(name), Eq] + ExpressionTokens(e) + [SemiColon]
    case Def(exported, f) =>
      ExportTokens(exported) + [Def] + HeadTokens(f) + StatementsTokens(f.body) + [ClosingBracket]
  }

  function HeadTokens(f: Ast.Function): seq<Token> {
    [Ident(f.name), OpenParen] + ParameterTokens(Parameters(f), true) + [OpenBracket]
  }

  function StatementsTokens(ss: seq<Ast.Statement>): seq<Token>
    decreases ss, 0
  {
    if ss == [] then [] else StatementTokens(ss[0]) + StatementsTokens(ss[1..])
  }

  predicate WellFormedStatement(s: Ast.Statement)
    decreases s, 1
  {
    match s
    case Return(e) => WellFormed(e)
    case Import(_, _, _) => true
    case Assign(_, e, _) => WellFormed(e)
    case Def(_, f) =>
      (forall i :: 0 <= i < |f.defaults| ==> WellFormed(f.defaults[i].value)) && WellFormedStatements(f.body)
  }

  predicate WellFormedStatements(ss: seq<Ast.Statement>)
    decreases ss, 0
  {
    ss == [] || (WellFormedStatement(ss[0]) && WellFormedStatements(ss[1..]))
  }

  lemma {:induction false} ExpressionWritten(e: Ast.Expression)
    requires WellFormed(e)
    ensures ExpressionForm(ExpressionTokens(e), e)
    decreases e, 1
  {
    hide NodeForm, ChainForm, NodeTokens, ChainTokens;
    match e
    case Number(_) =>
    case Text(_) =>
    case Label(_) =>
    case Call(n) => NodeWritten(n);
    case Chain(start, nodes) =>
      ExpressionWritten(start);
      ChainWritten(nodes);
  }

  lemma {:induction false} ChainWritten(ns: seq<Ast.Node>)
    requires WellFormedNodes(ns)
    ensures ChainForm(ChainTokens(ns), ns)
    decreases ns, 0
  {
    hide NodeForm, NodeTokens;
    if ns != [] {
      NodeWritten(ns[0]);
      ChainWritten(ns[1..]);
    }
  }

  lemma {:induction false} NodeWritten(n: Ast.Node)
    requires WellFormedNode(n)
    ensures NodeForm(NodeTokens(n), n)
    decreases n, 1
  {
    hide ArgumentsForm, ArgumentTokens, PathTokens, PathsTokens;
    ArgumentsWritten(n.arguments, true);
    assert WaitForm(WaitTokens(n.phantoms), n.phantoms);
  }

  lemma {:induction false} ArgumentsWritten(es: seq<Ast.Expression>, first: bool)
    requires WellFormedAll(es)
    ensures ArgumentsForm(ArgumentTokens(es, first), es, first)
    decreases es, 0
  {
    hide ExpressionForm, ExpressionTokens;
    if es != [] {
      ExpressionWritten(es[0]);
      ArgumentsWritten(es[1..], false);
    }
  }

  lemma {:induction false} ParametersWritten(ps: seq<Parameter>, first: bool)
    requires forall i :: 0 <= i < |ps| && ps[i].default_.Some? ==> WellFormed(ps[i].default_.value)
    ensures ParametersForm(ParameterTokens(ps, first), ps, first)
    decreases |ps|
  {
    hide ExpressionForm, ExpressionTokens;
    if ps != [] {
      if ps[0].default_.Some? { ExpressionWritten(ps[0].default_.value); }
      assert ParameterToken(ps[0]) == [Ident(ps[0].name)]
        + if ps[0].default_.Some? then [Eq] + ExpressionTokens(ps[0].default_.value) else [];
      OneParameter(ps[0]);
      ParametersWritten(ps[1..], false);
    }
  }

  lemma OneParameter(p: Parameter)
    requires p.default_.Some? ==> ExpressionForm(ExpressionTokens(p.default_.value), p.default_.value)
    ensures ParameterForm(ParameterToken(p), p)
  {
    hide ExpressionForm, ExpressionTokens;
    if p.default_.Some? {
      assert ParameterToken(p) == [Ident(p.name), Eq] + ExpressionTokens(p.default_.value);
    }
  }

  lemma {:induction false} StatementWritten(s: Ast.Statement)
    requires WellFormedStatement(s)
    ensures StatementForm(StatementTokens(s), s)
    decreases s, 1
  {
    hide ExpressionForm, ExpressionTokens, StatementsForm, StatementsTokens, ParametersForm, ParameterTokens,
         ExportTokens, Parameters;
    match s
    case Return(e) => ExpressionWritten(e);
    case Import(_, _, _) =>
    case Assign(_, e, _) => ExpressionWritten(e);
    case Def(exported, f) =>
      DefaultsAreWellFormed(f);
      ParametersWritten(Parameters(f), true);
      StatementsWritten(f.body);
      var a, b := ParameterTokens(Parameters(f), true), StatementsTokens(f.body);
      assert StatementTokens(s)
          == ExportTokens(exported) + [Def, Ident(f.name), OpenParen] + a + [OpenBracket] + b + [ClosingBracket];
  }

  lemma DefaultsAreWellFormed(f: Ast.Function)
    requires forall i :: 0 <= i < |f.defaults| ==> WellFormed(f.defaults[i].value)
    ensures forall i :: 0 <= i < |Parameters(f)| && Parameters(f)[i].default_.Some? ==>
              WellFormed(Parameters(f)[i].default_.value)
  {
    hide WellFormed;
    var ps, n := Parameters(f), |f.required|;
    forall i | 0 <= i < |ps| && ps[i].default_.Some? ensures WellFormed(ps[i].default_.value) {
      assert ps[i] == Parameter(f.defaults[i - n].name, Some(f.defaults[i - n].value));
    }
  }

  /** Every well-formed file can be written. */
  lemma {:induction false} StatementsWritten(ss: seq<Ast.Statement>)
    requires WellFormedStatements(ss)
    ensures StatementsForm(StatementsTokens(ss), ss)
    decreases ss, 0
  {
    hide StatementForm, StatementTokens;
    if ss != [] {
      StatementWritten(ss[0]);
      StatementsWritten(ss[1..]);
    }
  }

  datatype SyntaxError = Lexical(lexError: LexError) | Syntactic(parseError: ParseError)

  /** The statements of a source text. */
  function ReadSource(k: Classes, text: string): Result<seq<Ast.Statement>, SyntaxError> {
    match ReadTokens(k, text)
    case Err(e) => Err(Lexical(e))
    case Ok(ts) =>
      match ParseFile(ts)
      case Err(e) => Err(Syntactic(e))
      case Ok(p) => Ok(p.0)
  }

  /** A source text: tokens with a space after each. */
  function ShowSource(ss: seq<Ast.Statement>): string {
    ShowAll(StatementsTokens(ss))
  }

  /** Every well-formed file whose identifiers can be written is read back from its text. */
  lemma SourceRoundTrip(k: Classes, ss: seq<Ast.Statement>)
    requires Sane(k) && WellFormedStatements(ss)
    requires forall i :: 0 <= i < |StatementsTokens(ss)| ==> ValidToken(k, StatementsTokens(ss)[i])
    ensures ReadSource(k, ShowSource(ss)) == Ok(ss)
  {
    hide ReadTokens, ParseFile, ShowAll, Sane, ValidToken, StatementsTokens, WellFormedStatements, StatementsForm;
    ReadAllShown(k, StatementsTokens(ss));
    StatementsWritten(ss);
    ReadFile(StatementsTokens(ss), ss);
  }

  /** So files with the same text are the same file. */
  lemma ShowIsInjective(k: Classes, a: seq<Ast.Statement>, b: seq<Ast.Statement>)
    requires Sane(k) && WellFormedStatements(a) && WellFormedStatements(b) && ShowSource(a) == ShowSource(b)
    requires forall i :: 0 <= i < |StatementsTokens(a)| ==> ValidToken(k, StatementsTokens(a)[i])
    requires forall i :: 0 <= i < |StatementsTokens(b)| ==> ValidToken(k, StatementsTokens(b)[i])
    ensures a == b
  {
    SourceRoundTrip(k, a);
    SourceRoundTrip(k, b);
  }

  /** Every text leads to statements or to an error in the text, never to the parser's internal error. */
  lemma NoInternalError(k: Classes, text: string)
    ensures ReadSource(k, text) != Err(Syntactic(EndOfTokens))
  {
    hide ReadTokens, ParseFile;
    if ReadTokens(k, text).Ok? { EndsWithEof(k, text); }
  }

  lemma {:induction false} EndsWithEof(k: Classes, text: string)
    requires ReadTokens(k, text).Ok?
    ensures Terminated(ReadTokens(k, text).value)
    ensures var ts := ReadTokens(k, text).value;
      Eof !in ts[..|ts| - 1]
    decreases |text|
  {
    hide ReadToken;
    var next := ReadToken(k, text).value;
    if next.Some? {
      NeverEof(k, text);
      EndsWithEof(k, next.value.1);
      var ts, rest := ReadTokens(k, text).value, ReadTokens(k, next.value.1).value;
      assert ts[..|ts| - 1] == [next.value.0] + rest[..|rest| - 1];
    }
  }

  /** The end token is never read from a text. */
  lemma {:induction false} NeverEof(k: Classes, s: string)
    ensures ReadToken(k, s).Ok? && ReadToken(k, s).value.Some? ==> ReadToken(k, s).value.value.0 != Eof
    decreases |s|
  {
    hide ReadString, ReadWide, Symbol, AfterComment;
    var t := s[Span(k.space, s)..];
    if t != "" {
      SymbolIsNotEof(t[0]);
      WideIsNotEof(k, t);
      if t[0] == '/' && AfterComment(t[1..]).Some? { NeverEof(k, AfterComment(t[1..]).value); }
    }
  }

  lemma SymbolIsNotEof(c: char)
    ensures Symbol(c) != Some(Eof)
  {
  }

  lemma WideIsNotEof(k: Classes, s: string)
    requires s != ""
    ensures ReadWide(k, s).Ok? && ReadWide(k, s).value.Some? ==> ReadWide(k, s).value.value.0 != Eof
  {
    hide Number, Span;
  }

  /** The texts of a file: token lists that its grammar allows, with spaces and comments between. */
  ghost predicate IsText(k: Classes, text: string, ss: seq<Ast.Statement>) {
    exists ts :: Written(k, text, ts) && StatementsForm(ts, ss)
  }

  /** A text is read as a file exactly if it is one of the ways to write that file. */
  lemma ReadSourceIff(k: Classes, text: string, ss: seq<Ast.Statement>)
    requires Sane(k)
    ensures ReadSource(k, text) == Ok(ss) <==> IsText(k, text, ss)
  {
    hide ReadTokens, ParseFile, Sane, Written, StatementsForm;
    if ReadSource(k, text) == Ok(ss) {
      var all := ReadTokens(k, text).value;
      EndsWithEof(k, text);
      var ts := all[..|all| - 1];
      assert all == ts + [Eof];
      FileIff(ts, ParseFile(all).value.0);
      TokensIff(k, text, ts);
    }
    forall ts | Written(k, text, ts) && StatementsForm(ts, ss) ensures ReadSource(k, text) == Ok(ss) {
      TokensIff(k, text, ts);
      EndsWithEof(k, text);
      assert (ts + [Eof])[..|ts|] == ts;
      FileIff(ts, ss);
    }
  }
}
