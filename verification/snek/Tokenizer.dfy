/** From text to tokens. Positions are those of characters; spans are left out. */
module Tokenizers {
  import opened Wrappers

  datatype Token =
    | Ident(name: string)
    | Str(text: string)
    | Numeric(value: nat)
    | OpenParen | ClosingParen | OpenBracket | ClosingBracket
    | SemiColon | Pipe | Comma | Eq | Wait | Path
    | Return | Def | Import | Export | As
    | Eof

  datatype LexError = UnknownCharacter(c: char) | UnterminatedString | IntegerOverflow

  /** The Unicode classes of characters that the tokenizer asks for. */
  datatype Classes = Classes(space: char -> bool, alphabetic: char -> bool, numeric: char -> bool) {
    predicate IdentChar(c: char) {
      alphabetic(c) || numeric(c) || c == '-' || c == '_'
    }
  }

  const MAX_NUMBER: nat := 0x7FFF_FFFF_FFFF_FFFF_FFFF_FFFF_FFFF_FFFF

  predicate IsDigit(c: char) {
    '0' <= c <= '9'
  }

  /** The number of leading characters that satisfy `p`. */
  function Span(p: char -> bool, s: string): (n: nat)
    ensures n <= |s| && (forall i :: 0 <= i < n ==> p(s[i])) && (n < |s| ==> !p(s[n]))
  {
    if s == "" || !p(s[0]) then 0 else 1 + Span(p, s[1..])
  }

  function Number(digits: string): nat
    requires forall i :: 0 <= i < |digits| ==> IsDigit(digits[i])
  {
    if digits == "" then 0
    else
      assert IsDigit(digits[|digits| - 1]);
      Number(digits[..|digits| - 1]) * 10 + (digits[|digits| - 1] as int - '0' as int)
  }

  function Word(text: string): Token {
    if text == "return" then Return
    else if text == "def" then Def
    else if text == "import" then Import
    else if text == "export" then Export
    else if text == "as" then As
    else Ident(text)
  }

  function Symbol(c: char): Option<Token> {
    match c
    case '(' => Some(OpenParen)
    case ')' => Some(ClosingParen)
    case '{' => Some(OpenBracket)
    case '}' => Some(ClosingBracket)
    case ';' => Some(SemiColon)
    case '>' => Some(Pipe)
    case ',' => Some(Comma)
    case '=' => Some(Eq)
    case '!' => Some(Wait)
    case _ => None
  }

  /** The content of a string whose opening quote has been read. Only a backslash and a quote can be
      escaped; before anything else a backslash stands for itself. */
  function ReadString(s: string, content: string): (r: Result<(string, string), LexError>)
    ensures r.Ok? ==> |r.value.1| < |s|
    decreases |s|
  {
    if s == "" then Err(UnterminatedString)
    else if s[0] == '"' then Ok((content, s[1..]))
    else if s[0] != '\\' then ReadString(s[1..], content + [s[0]])
    else if |s| == 1 then Err(UnterminatedString)
    else ReadString(s[2..], content + (if s[1] == '\\' || s[1] == '"' then [s[1]] else ['\\', s[1]]))
  }

  /** What follows a block comment whose opening has been read. */
  function SkipComment(s: string): (r: string)
    ensures |r| <= |s|
  {
    if s == "" then ""
    else if s[0] == '*' && |s| > 1 && s[1] == '/' then s[2..]
    else SkipComment(s[1..])
  }

  predicate NotLineEnd(c: char) {
    c != '\n'
  }

  function SkipLine(s: string): (r: string)
    ensures |r| <= |s|
  {
    s[Span(NotLineEnd, s)..]
  }

  /** What follows a comment whose slash has been read, if it is one. */
  function AfterComment(s: string): (r: Option<string>)
    ensures r.Some? ==> |r.value| < |s|
  {
    if s == "" then None
    else if s[0] == '/' then Some(SkipLine(s[1..]))
    else if s[0] == '*' then Some(SkipComment(s[1..]))
    else None
  }

  /** A number or a word, which take more than a fixed number of characters. */
  function ReadWide(k: Classes, t: string): (r: Result<Option<(Token, string)>, LexError>)
    requires t != ""
    ensures r.Ok? ==> r.value.Some? && |r.value.value.1| < |t|
  {
    if IsDigit(t[0]) then
      var n := Span(IsDigit, t);
      if Number(t[..n]) > MAX_NUMBER then Err(IntegerOverflow) else Ok(Some((Numeric(Number(t[..n])), t[n..])))
    else if k.alphabetic(t[0]) then
      var n := 1 + Span(k.IdentChar, t[1..]);
      Ok(Some((Word(t[..n]), t[n..])))
    else Err(UnknownCharacter(t[0]))
  }

  /** The next token and what follows it, or nothing at the end. */
  function ReadToken(k: Classes, s: string): (r: Result<Option<(Token, string)>, LexError>)
    ensures r.Ok? && r.value.Some? ==> |r.value.value.1| < |s|
    decreases |s|, 1
  {
    var t := s[Span(k.space, s)..];
    if t == "" then Ok(None)
    else
      var c, rest := t[0], t[1..];
      if Symbol(c).Some? then Ok(Some((Symbol(c).value, rest)))
      else if c == ':' && rest != "" && rest[0] == ':' then Ok(Some((Path, rest[1..])))
      else if c == '"' then
        var (text, after) :- ReadString(rest, "");
        Ok(Some((Str(text), after)))
      else if c == '/' then AfterSlash(k, t)
      else ReadWide(k, t)
  }

  /** The next token of a text that starts with a slash. */
  function AfterSlash(k: Classes, t: string): (r: Result<Option<(Token, string)>, LexError>)
    requires t != ""
    ensures r.Ok? && r.value.Some? ==> |r.value.value.1| < |t|
    decreases |t|, 0
  {
    match AfterComment(t[1..])
    case Some(rest) => ReadToken(k, rest)
    case None => ReadWide(k, t)
  }

  function ReadTokens(k: Classes, s: string): Result<seq<Token>, LexError>
    decreases |s|
  {
    var next :- ReadToken(k, s);
    if next.None? then Ok([Eof])
    else
      var rest :- ReadTokens(k, next.value.1);
      Ok([next.value.0] + rest)
  }

  /** Characters of ASCII have the classes that Unicode gives them. */
  ghost predicate Sane(k: Classes) {
    && k.space(' ') && k.space('\n') && !k.space('/') && !k.IdentChar(' ')
    && (forall c :: Symbol(c).Some? || c == '"' || c == ':' ==> !k.space(c))
    && (forall c :: IsDigit(c) ==> !k.space(c))
    && (forall c :: k.alphabetic(c) ==>
          !k.space(c) && Symbol(c).None? && !IsDigit(c) && c != '"' && c != ':' && c != '/')
    && (forall c :: 'a' <= c <= 'z' ==> k.alphabetic(c))
  }

  lemma {:induction false} SpanIs(p: char -> bool, a: string, rest: string)
    requires (forall i :: 0 <= i < |a| ==> p(a[i])) && (rest == "" || !p(rest[0]))
    ensures Span(p, a + rest) == |a|
    decreases |a|
  {
    if a == "" {
      assert a + rest == rest;
    } else {
      assert (a + rest)[1..] == a[1..] + rest;
      SpanIs(p, a[1..], rest);
    }
  }

  lemma NoSpace(k: Classes, s: string)
    requires s != "" && !k.space(s[0])
    ensures s[Span(k.space, s)..] == s
  {
  }

  lemma Letters(k: Classes, s: string)
    requires Sane(k) && forall i :: 0 <= i < |s| ==> 'a' <= s[i] <= 'z'
    ensures forall i :: 0 <= i < |s| ==> k.alphabetic(s[i])
  {
  }

  class Tokenizer {
    const classes: Classes
    const code: string

    /** The position of the next character. */
    var at: nat

    ghost predicate Valid()
      reads this
    {
      at <= |code|
    }

    /** What has not been read yet. */
    ghost function Rest(): string
      requires Valid()
      reads this
    {
      code[at..]
    }

    constructor (k: Classes, s: string)
      ensures classes == k && code == s && Valid() && Rest() == s
    {
      classes, code, at := k, s, 0;
    }

    function Peek(): (c: Option<char>)
      requires Valid()
      reads this
      ensures c == if Rest() == "" then None else Some(Rest()[0])
    {
      if at < |code| then Some(code[at]) else None
    }

    method Advance() returns (c: Option<char>)
      requires Valid()
      modifies this
      ensures Valid() && c == old(Peek())
      ensures Rest() == if c.Some? then old(Rest())[1..] else old(Rest())
    {
      c := Peek();
      if c.Some? { at := at + 1; }
    }

    /** Reads the characters that satisfy `p` and counts them. */
    method AdvanceWhile(p: char -> bool) returns (consumed: nat)
      requires Valid()
      modifies this
      ensures Valid() && consumed == Span(p, old(Rest())) && Rest() == old(Rest())[consumed..]
    {
      consumed := 0;
      ghost var start := Rest();
      while Peek().Some? && p(Peek().value)
        invariant Valid() && consumed <= |start| && Rest() == start[consumed..]
        invariant consumed + Span(p, start[consumed..]) == Span(p, start)
        decreases |code| - at
      {
        assert start[consumed..][1..] == start[consumed + 1..];
        var _ := Advance();
        consumed := consumed + 1;
      }
    }

    /** Reads a string after its opening quote. */
    method HandleString() returns (r: Result<string, LexError>)
      requires Valid()
      modifies this
      ensures Valid()
      ensures match ReadString(old(Rest()), "")
              case Ok(p) => r == Ok(p.0) && Rest() == p.1
              case Err(e) => r == Err(e)
    {
      var content := "";
      var escape := false;
      ghost var start := Rest();
      while true
        invariant Valid() && (escape ==> at > 0)
        invariant !escape ==> ReadString(Rest(), content) == ReadString(start, "")
        invariant escape ==> ReadString(['\\'] + Rest(), content) == ReadString(start, "")
        decreases |code| - at
      {
        ghost var before := Rest();
        var c := Advance();
        if c.None? { return Err(UnterminatedString); }
        if escape {
          assert (['\\'] + before)[2..] == Rest();
          content := content + if c.value == '\\' || c.value == '"' then [c.value] else ['\\', c.value];
          escape := false;
        } else if c.value == '"' {
          return Ok(content);
        } else if c.value == '\\' {
          assert before == ['\\'] + Rest();
          escape := true;
        } else {
          content := content + [c.value];
        }
      }
    }

    /** Reads the rest of a block comment. */
    method HandleComment()
      requires Valid()
      modifies this
      ensures Valid() && Rest() == SkipComment(old(Rest()))
    {
      ghost var start := Rest();
      while true
        invariant Valid() && SkipComment(Rest()) == SkipComment(start)
        decreases |code| - at
      {
        var c := Advance();
        if c.None? { break; }
        if c.value == '*' && Peek() == Some('/') {
          var _ := Advance();
          break;
        }
      }
    }
  
    method SkipToLineEnd() returns (consumed: nat)
      requires Valid()
      modifies this
      ensures Valid() && Rest() == SkipLine(old(Rest()))
    {
      consumed := AdvanceWhile(NotLineEnd);
    }

    /** Skips a comment and reads on, or fails if the slash starts none. */
    method ReadAfterSlash(ghost start: string) returns (r: Result<Option<Token>, LexError>)
      requires Valid() && at > 0 && code[at - 1] == '/' && start == code[at - 1..]
      modifies this
      ensures Valid() && ReadsTo(AfterSlash(classes, start), r, Rest())
      decreases |code| - at, 0
    {
      hide ReadToken, ReadWide;
      assert start[1..] == Rest();
      if Peek() == Some('/') {
        var _ := Advance();
        var _ := SkipToLineEnd();
        r := ReadNextToken();
      } else if Peek() == Some('*') {
        var _ := Advance();
        HandleComment();
        r := ReadNextToken();
      } else {
        r := ReadNumberOrWord('/', start);
      }
    }

    method ReadNextToken() returns (r: Result<Option<Token>, LexError>)
      requires Valid()
      modifies this
      ensures Valid() && ReadsTo(ReadToken(classes, old(Rest())), r, Rest())
      decreases |code| - at, 1
    {
      hide Symbol, ReadWide, ReadString, AfterSlash;
      ghost var whole := Rest();
      var spaces := AdvanceWhile(classes.space);
      ghost var start := Rest();
      assert start == whole[Span(classes.space, whole)..];
      var character := Advance();
      if character.None? { return Ok(None); }
      var c := character.value;
      if Symbol(c).Some? {
        r := Ok(Symbol(c));
      } else if c == ':' && Peek() == Some(':') {
        var _ := Advance();
        r := Ok(Some(Path));
      } else if c == '"' {
        var text :- HandleString();
        r := Ok(Some(Str(text)));
      } else if c == '/' {
        r := ReadAfterSlash(start);
      } else {
        r := ReadNumberOrWord(c, start);
      }
    }

    /** Reads on after the first character `c` of a number or a word. */
    method ReadNumberOrWord(c: char, ghost start: string) returns (r: Result<Option<Token>, LexError>)
      requires Valid() && at > 0 && code[at - 1] == c && start == code[at - 1..]
      modifies this
      ensures Valid() && ReadsTo(ReadWide(classes, start), r, Rest())
    {
      var from := at - 1;
      assert start[0] == c && Rest() == start[1..];
      if IsDigit(c) {
        var consumed := AdvanceWhile(IsDigit);
        assert code[from..at] == start[..consumed + 1] && Rest() == start[consumed + 1..];
        r := if Number(code[from..at]) > MAX_NUMBER then Err(IntegerOverflow)
             else Ok(Some(Numeric(Number(code[from..at]))));
      } else if classes.alphabetic(c) {
        var consumed := AdvanceWhile(classes.IdentChar);
        assert code[from..at] == start[..consumed + 1] && Rest() == start[consumed + 1..];
        r := Ok(Some(Word(code[from..at])));
      } else {
        r := Err(UnknownCharacter(c));
      }
    }
  }

  /** A method's result and what it left unread are what the specification gives. */
  ghost predicate ReadsTo(spec: Result<Option<(Token, string)>, LexError>, r: Result<Option<Token>, LexError>,
                          rest: string) {
    match spec
    case Err(e) => r == Err(e)
    case Ok(None) => r == Ok(None)
    case Ok(Some(p)) => r == Ok(Some(p.0)) && rest == p.1
  }

  method Tokenize(k: Classes, s: string) returns (r: Result<seq<Token>, LexError>)
    ensures r == ReadTokens(k, s)
  {
    hide ReadToken, ReadTokens, Remaining;
    var tokenizer := new Tokenizer(k, s);
    var tokens := [];
    AllRemain(k, s);
    while true
      invariant tokenizer.Valid() && tokenizer.classes == k && fresh(tokenizer)
      invariant Remaining(k, s, tokens, tokenizer.Rest())
      decreases |tokenizer.Rest()|
    {
      ghost var before := tokenizer.Rest();
      var next := tokenizer.ReadNextToken();
      ReadOne(k, s, tokens, before, next, tokenizer.Rest());
      var token :- next;
      if token.None? { break; }
      tokens := tokens + [token.value];
    }
    r := Ok(tokens + [Eof]);
  }

  /** The tokens of `s` are `ts` and then those of `rest`. */
  ghost predicate Remaining(k: Classes, s: string, ts: seq<Token>, rest: string) {
    ReadTokens(k, s) == PrependTokens(ts, ReadTokens(k, rest))
  }

  lemma AllRemain(k: Classes, s: string)
    ensures Remaining(k, s, [], s)
  {
    hide ReadTokens;
    var r := ReadTokens(k, s);
    if r.Ok? { assert [] + r.value == r.value; }
  }

  lemma ReadOne(k: Classes, s: string, ts: seq<Token>, rest: string, next: Result<Option<Token>, LexError>,
                after: string)
    requires Remaining(k, s, ts, rest) && ReadsTo(ReadToken(k, rest), next, after)
    ensures next.Err? ==> ReadTokens(k, s) == Err(next.error)
    ensures next.Ok? && next.value.None? ==> ReadTokens(k, s) == Ok(ts + [Eof])
    ensures next.Ok? && next.value.Some? ==> |after| < |rest| && Remaining(k, s, ts + [next.value.value], after)
  {
    hide ReadToken;
    if next.Ok? && next.value.Some? && ReadTokens(k, after).Ok? {
      var more := ReadTokens(k, after).value;
      assert ts + ([next.value.value] + more) == (ts + [next.value.value]) + more;
    }
  }

  function PrependTokens(ts: seq<Token>, r: Result<seq<Token>, LexError>): Result<seq<Token>, LexError> {
    match r
    case Ok(us) => Ok(ts + us)
    case Err(e) => Err(e)
  }
}
