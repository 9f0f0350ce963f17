/** What texts the tokenizer accepts and what they mean, described without reading: gaps of spaces and
    comments, and spellings of tokens between them. The tokenizer agrees with this description on every
    text, errors included. */
module Lexicon {
  import opened Wrappers
  import opened Tokenizers

  /** What may stand between tokens: a space, a comment up to the end of its line, or a comment between marks. */
  datatype Blank = Space(c: char) | LineComment(text: string) | BlockComment(text: string)

  /** No `*` is followed by a `/`. */
  predicate NoEnd(text: string) {
    forall i :: 0 <= i < |text| - 1 ==> !(text[i] == '*' && text[i + 1] == '/')
  }

  predicate ValidBlank(k: Classes, b: Blank) {
    match b
    case Space(c) => k.space(c)
    case LineComment(text) => '\n' !in text
    case BlockComment(text) => NoEnd(text)
  }

  function ShowBlank(b: Blank): string {
    match b
    case Space(c) => [c]
    case LineComment(text) => "//" + text + "\n"
    case BlockComment(text) => "/*" + text + "*/"
  }

  predicate Gap(k: Classes, bs: seq<Blank>) {
    forall i :: 0 <= i < |bs| ==> ValidBlank(k, bs[i])
  }

  function ShowGap(bs: seq<Blank>): string {
    if bs == [] then "" else ShowBlank(bs[0]) + ShowGap(bs[1..])
  }

  /** Nothing, or a comment that the text ends before. */
  predicate Trailing(s: string) {
    || s == ""
    || (|s| >= 2 && s[..2] == "//" && '\n' !in s[2..])
    || (|s| >= 2 && s[..2] == "/*" && NoEnd(s[2..]))
  }

  /** A character of a string, by itself or after a backslash. */
  datatype Piece = Plain(c: char) | Escaped(c: char)

  predicate ValidPieces(ps: seq<Piece>) {
    forall i :: 0 <= i < |ps| && ps[i].Plain? ==> ps[i].c != '"' && ps[i].c != '\\'
  }

  function RawPiece(p: Piece): string {
    if p.Plain? then [p.c] else ['\\', p.c]
  }

  function Raw(ps: seq<Piece>): string {
    if ps == [] then "" else RawPiece(ps[0]) + Raw(ps[1..])
  }

  /** Only before a quote or another backslash does a backslash not stand for itself. */
  function PieceContent(p: Piece): string {
    if p.Escaped? && p.c != '"' && p.c != '\\' then ['\\', p.c] else [p.c]
  }

  function Content(ps: seq<Piece>): string {
    if ps == [] then "" else PieceContent(ps[0]) + Content(ps[1..])
  }

  predicate Digits(s: string) {
    s != "" && forall i :: 0 <= i < |s| ==> IsDigit(s[i])
  }

  /** The value of a decimal number, its digits taken from the left. */
  function Value(s: string, sofar: nat): nat
    requires forall i :: 0 <= i < |s| ==> IsDigit(s[i])
  {
    if s == "" then sofar
    else
      assert IsDigit(s[0]);
      Value(s[1..], 10 * sofar + (s[0] as int - '0' as int))
  }

  /** A character that a word goes on with. */
  predicate GoesOn(k: Classes, c: char) {
    k.alphabetic(c) || k.numeric(c) || c == '-' || c == '_'
  }

  /** The largest number of 128 bits with a sign. */
  const LARGEST: nat := 0x7FFF_FFFF_FFFF_FFFF_FFFF_FFFF_FFFF_FFFF

  ghost predicate Spells(k: Classes, text: string, t: Token) {
    match t
    case Ident(name) =>
      && text == name != "" && k.alphabetic(name[0]) && (forall i :: 1 <= i < |name| ==> GoesOn(k, name[i]))
      && name !in {"return", "def", "import", "export", "as"}
    case Str(v) => exists ps :: ValidPieces(ps) && text == "\"" + Raw(ps) + "\"" && v == Content(ps)
    case Numeric(n) => Digits(text) && Value(text, 0) == n <= LARGEST
    case OpenParen => text == "("
    case ClosingParen => text == ")"
    case OpenBracket => text == "{"
    case ClosingBracket => text == "}"
    case SemiColon => text == ";"
    case Pipe => text == ">"
    case Comma => text == ","
    case Eq => text == "="
    case Wait => text == "!"
    case Path => text == "::"
    case Return => text == "return"
    case Def => text == "def"
    case Import => text == "import"
    case Export => text == "export"
    case As => text == "as"
    case Eof => false
  }

  predicate IsWord(t: Token) {
    t.Ident? || t.Return? || t.Def? || t.Import? || t.Export? || t.As?
  }

  /** What follows does not go on with the token. */
  predicate EndsAt(k: Classes, t: Token, rest: string) {
    rest == "" || ((IsWord(t) ==> !GoesOn(k, rest[0])) && (t.Numeric? ==> !IsDigit(rest[0])))
  }

  /** The text starts with something that is no token. */
  ghost predicate Wrong(k: Classes, s: string, e: LexError) {
    match e
    case UnknownCharacter(c) =>
      && s != "" && s[0] == c && !k.space(c) && !k.alphabetic(c) && !IsDigit(c) && c != '"'
      && c !in {'(', ')', '{', '}', ';', '>', ',', '=', '!'}
      && (c == ':' ==> |s| == 1 || s[1] != ':') && (c == '/' ==> |s| == 1 || (s[1] != '/' && s[1] != '*'))
    case UnterminatedString =>
      exists ps :: ValidPieces(ps) && (s == "\"" + Raw(ps) || s == "\"" + Raw(ps) + "\\")
    case IntegerOverflow =>
      exists n :: 0 < n <= |s| && Digits(s[..n]) && (n < |s| ==> !IsDigit(s[n])) && Value(s[..n], 0) > LARGEST
  }

  /** What reading from a text that starts with no gap gives. */
  ghost predicate Begins(k: Classes, s: string, r: Result<Option<(Token, string)>, LexError>) {
    match r
    case Ok(None) => Trailing(s)
    case Ok(Some(p)) =>
      exists n :: 0 < n <= |s| && Spells(k, s[..n], p.0) && p.1 == s[n..] && EndsAt(k, p.0, p.1)
    case Err(e) => Wrong(k, s, e)
  }

  /** What reading the next token of a text gives. */
  ghost predicate Lexes(k: Classes, s: string, r: Result<Option<(Token, string)>, LexError>) {
    exists bs, body :: Gap(k, bs) && s == ShowGap(bs) + body && Begins(k, body, r)
  }

  lemma {:induction false} SkipCommentIs(text: string, rest: string)
    requires NoEnd(text)
    ensures SkipComment(text + "*/" + rest) == rest
    ensures SkipComment(text) == ""
    decreases |text|
  {
    var s := text + "*/" + rest;
    if text == "" {
      assert s == "*/" + rest && s[2..] == rest;
    } else {
      assert s[1..] == text[1..] + "*/" + rest;
      if |text| > 1 { assert s[1] == text[1] && !(text[0] == '*' && text[0 + 1] == '/'); }
      SkipCommentIs(text[1..], rest);
    }
  }

  lemma SkipLineIs(text: string, rest: string)
    requires '\n' !in text
    ensures SkipLine(text + "\n" + rest) == "\n" + rest
    ensures SkipLine(text) == ""
  {
    assert text + "\n" + rest == text + ("\n" + rest);
    SpanIs(NotLineEnd, text, "\n" + rest);
    SpanIs(NotLineEnd, text, "");
    assert text + "" == text;
  }

  lemma SkipSpace(k: Classes, c: char, s: string)
    requires k.space(c)
    ensures ReadToken(k, [c] + s) == ReadToken(k, s)
  {
    var t := [c] + s;
    assert t[1..] == s;
    assert Span(k.space, t) == 1 + Span(k.space, s);
    assert t[Span(k.space, t)..] == s[Span(k.space, s)..];
  }

  /** A comment is read past. */
  lemma ReadPastSlash(k: Classes, s: string, rest: string)
    requires Sane(k) && |s| >= 2 && s[0] == '/' && AfterComment(s[1..]) == Some(rest)
    ensures ReadToken(k, s) == ReadToken(k, rest)
  {
    NoSpace(k, s);
    assert Symbol('/') == None;
  }

  /** Spaces and comments before a token make no difference. */
  lemma SkipBlank(k: Classes, b: Blank, s: string)
    requires Sane(k) && ValidBlank(k, b)
    ensures ReadToken(k, ShowBlank(b) + s) == ReadToken(k, s)
  {
    hide ReadToken, Sane, AfterComment;
    var t := ShowBlank(b) + s;
    match b
    case Space(c) => SkipSpace(k, c, s);
    case LineComment(text) =>
      AfterLine(text, s);
      ReadPastSlash(k, t, "\n" + s);
      SkipSpace(k, '\n', s) by { NewlineIsSpace(k); }
    case BlockComment(text) =>
      AfterBlock(text, s);
      ReadPastSlash(k, t, s);
  }

  lemma AfterLine(text: string, s: string)
    requires '\n' !in text
    ensures var t := "//" + text + "\n" + s; t[0] == '/' && AfterComment(t[1..]) == Some("\n" + s)
  {
    hide SkipLine;
    var t := "//" + text + "\n" + s;
    assert t[1..][1..] == text + "\n" + s;
    SkipLineIs(text, s);
  }

  lemma AfterBlock(text: string, s: string)
    requires NoEnd(text)
    ensures var t := "/*" + text + "*/" + s; t[0] == '/' && AfterComment(t[1..]) == Some(s)
  {
    hide SkipComment, NoEnd;
    var t := "/*" + text + "*/" + s;
    assert t[1..][1..] == text + "*/" + s;
    SkipCommentIs(text, s);
  }

  lemma NewlineIsSpace(k: Classes)
    requires Sane(k)
    ensures k.space('\n')
  {
  }

  lemma {:induction false} SkipGap(k: Classes, bs: seq<Blank>, s: string)
    requires Sane(k) && Gap(k, bs)
    ensures ReadToken(k, ShowGap(bs) + s) == ReadToken(k, s)
    decreases |bs|
  {
    hide ReadToken, Sane, ShowBlank, ValidBlank;
    if bs == [] {
      assert ShowGap(bs) + s == s;
    } else {
      assert ShowGap(bs) + s == ShowBlank(bs[0]) + (ShowGap(bs[1..]) + s);
      SkipBlank(k, bs[0], ShowGap(bs[1..]) + s);
      SkipGap(k, bs[1..], s);
    }
  }

  /** Comments and spaces anywhere before a token, or after the last, leave the tokens as they are. */
  lemma GapsDoNotMatter(k: Classes, bs: seq<Blank>, s: string)
    requires Sane(k) && Gap(k, bs)
    ensures ReadTokens(k, ShowGap(bs) + s) == ReadTokens(k, s)
  {
    hide ReadToken, Sane;
    SkipGap(k, bs, s);
  }

  lemma {:induction false} ReadPieces(ps: seq<Piece>, content: string, rest: string)
    requires ValidPieces(ps)
    ensures ReadString(Raw(ps) + "\"" + rest, content) == Ok((content + Content(ps), rest))
    ensures ReadString(Raw(ps), content) == ReadString(Raw(ps) + "\\", content) == Err(UnterminatedString)
    decreases |ps|
  {
    hide ReadString, RawPiece, PieceContent;
    if ps == [] {
      NoPieces(content, rest);
    } else {
      var p, tail := ps[0], Raw(ps[1..]);
      ReadPieces(ps[1..], content + PieceContent(p), rest);
      Regroup(content, PieceContent(p), Content(ps[1..]));
      Regroup(RawPiece(p), tail, "\"");
      Regroup(RawPiece(p), tail + "\"", rest);
      Regroup(RawPiece(p), tail, "\\");
      ReadPiece(p, tail + "\"" + rest, content);
      ReadPiece(p, tail, content);
      ReadPiece(p, tail + "\\", content);
    }
  }

  lemma Regroup(a: string, b: string, c: string)
    ensures a + b + c == a + (b + c)
  {
  }

  lemma NoPieces(content: string, rest: string)
    ensures ReadString("" + "\"" + rest, content) == Ok((content + "", rest))
    ensures ReadString("", content) == ReadString("" + "\\", content) == Err(UnterminatedString)
  {
    assert ("" + "\"" + rest)[1..] == rest && content + "" == content && "" + "\\" == "\\";
  }

  lemma ReadPiece(p: Piece, tail: string, content: string)
    requires ValidPieces([p])
    ensures ReadString(RawPiece(p) + tail, content) == ReadString(tail, content + PieceContent(p))
  {
    assert [p][0] == p && (RawPiece(p) + tail)[|RawPiece(p)|..] == tail;
  }

  /** The opened string goes on with these pieces, then with the closing quote or the end of the text. */
  ghost predicate Splits(s: string, content: string, ps: seq<Piece>) {
    ValidPieces(ps) &&
    match ReadString(s, content)
    case Ok(p) => s == Raw(ps) + "\"" + p.1 && p.0 == content + Content(ps)
    case Err(e) => e == UnterminatedString && (s == Raw(ps) || s == Raw(ps) + "\\")
  }

  lemma {:induction false} SplitPieces(s: string, content: string) returns (ps: seq<Piece>)
    ensures Splits(s, content, ps)
    decreases |s|
  {
    ps := [];
    if s == "" {
    } else if s[0] == '"' {
      assert s == "\"" + s[1..] && content + "" == content && Raw([]) + "\"" == "\"";
    } else if s[0] != '\\' {
      var rest := SplitPieces(s[1..], content + [s[0]]);
      ps := [Plain(s[0])] + rest;
      SplitCons(s, content, Plain(s[0]), s[1..], rest);
    } else if |s| == 1 {
      assert s == "\\" && Raw([]) + "\\" == "\\";
    } else {
      var more := if s[1] == '\\' || s[1] == '"' then [s[1]] else ['\\', s[1]];
      var rest := SplitPieces(s[2..], content + more);
      ps := [Escaped(s[1])] + rest;
      SplitCons(s, content, Escaped(s[1]), s[2..], rest);
    }
  }

  lemma SplitCons(s: string, content: string, p: Piece, tail: string, rest: seq<Piece>)
    requires Splits(tail, content + PieceContent(p), rest) && s == RawPiece(p) + tail && ValidPieces([p])
    ensures Splits(s, content, [p] + rest)
  {
    hide ReadString, RawPiece, PieceContent, Raw, Content;
    ReadPiece(p, tail, content);
    RawCons(p, rest);
    Regroup(content, PieceContent(p), Content(rest));
    Regroup(RawPiece(p), Raw(rest), "\\");
    Regroup(RawPiece(p), Raw(rest), "\"");
    if ReadString(s, content).Ok? {
      Regroup(RawPiece(p), Raw(rest) + "\"", ReadString(s, content).value.1);
    }
  }

  lemma RawCons(p: Piece, rest: seq<Piece>)
    requires ValidPieces([p]) && ValidPieces(rest)
    ensures ValidPieces([p] + rest)
    ensures Raw([p] + rest) == RawPiece(p) + Raw(rest) && Content([p] + rest) == PieceContent(p) + Content(rest)
  {
    assert ([p] + rest)[0] == [p][0] == p && ([p] + rest)[1..] == rest;
    assert forall i :: 1 <= i < |[p] + rest| ==> ([p] + rest)[i] == rest[i - 1];
  }

  lemma {:induction false} ValueOfLast(s: string, c: char, sofar: nat)
    requires IsDigit(c) && forall i :: 0 <= i < |s| ==> IsDigit(s[i])
    ensures Value(s + [c], sofar) == 10 * Value(s, sofar) + (c as int - '0' as int)
    decreases |s|
  {
    if s == "" {
      assert ("" + [c])[1..] == "";
    } else {
      assert (s + [c])[1..] == s[1..] + [c];
      ValueOfLast(s[1..], c, 10 * sofar + (s[0] as int - '0' as int));
    }
  }

  lemma {:induction false} NumberIsValue(s: string)
    requires forall i :: 0 <= i < |s| ==> IsDigit(s[i])
    ensures Number(s) == Value(s, 0)
    decreases |s|
  {
    if s != "" {
      var last := s[|s| - 1];
      NumberIsValue(s[..|s| - 1]);
      ValueOfLast(s[..|s| - 1], last, 0);
      assert s == s[..|s| - 1] + [last];
    }
  }

  /** A token that is spelled out, and that what follows does not go on with, is read. */
  lemma ReadSpelled(k: Classes, text: string, t: Token, rest: string)
    requires Sane(k) && Spells(k, text, t) && EndsAt(k, t, rest)
    ensures ReadToken(k, text + rest) == Ok(Some((t, rest)))
  {
    hide ReadToken, Sane, Raw, Content, Value;
    match t
    case Ident(name) => ReadsWord(k, name, rest);
    case Str(v) =>
      var ps :| ValidPieces(ps) && text == "\"" + Raw(ps) + "\"" && v == Content(ps);
      ReadsString(k, ps, rest);
    case Numeric(n) => ReadsNumber(k, text, rest);
    case Return => ReadsWord(k, "return", rest) by { Letters(k, "return"); }
    case Def => ReadsWord(k, "def", rest) by { Letters(k, "def"); }
    case Import => ReadsWord(k, "import", rest) by { Letters(k, "import"); }
    case Export => ReadsWord(k, "export", rest) by { Letters(k, "export"); }
    case As => ReadsWord(k, "as", rest) by { Letters(k, "as"); }
    case Path => ReadsColons(k, rest);
    case OpenParen => ReadsSymbol(k, '(', t, rest);
    case ClosingParen => ReadsSymbol(k, ')', t, rest);
    case OpenBracket => ReadsSymbol(k, '{', t, rest);
    case ClosingBracket => ReadsSymbol(k, '}', t, rest);
    case SemiColon => ReadsSymbol(k, ';', t, rest);
    case Pipe => ReadsSymbol(k, '>', t, rest);
    case Comma => ReadsSymbol(k, ',', t, rest);
    case Eq => ReadsSymbol(k, '=', t, rest);
    case Wait => ReadsSymbol(k, '!', t, rest);
  }

  lemma ReadsSymbol(k: Classes, c: char, t: Token, rest: string)
    requires Sane(k) && Symbol(c) == Some(t)
    ensures ReadToken(k, [c] + rest) == Ok(Some((t, rest)))
  {
    NoSpace(k, [c] + rest);
    assert ([c] + rest)[1..] == rest;
  }

  lemma ReadsColons(k: Classes, rest: string)
    requires Sane(k)
    ensures ReadToken(k, "::" + rest) == Ok(Some((Path, rest)))
  {
    var s := "::" + rest;
    NoSpace(k, s);
    assert s[0] == ':' && s[1..][0] == ':' && s[1..][1..] == rest;
  }

  /** The character starts no symbol, string or comment. */
  predicate Wide(k: Classes, c: char) {
    !k.space(c) && Symbol(c).None? && c != ':' && c != '"' && c != '/'
  }

  lemma IsWide(k: Classes, s: string)
    requires s != "" && Wide(k, s[0])
    ensures ReadToken(k, s) == ReadWide(k, s)
  {
    hide Symbol, ReadWide, ReadString, AfterSlash;
    NoSpace(k, s);
  }

  lemma LetterIsWide(k: Classes, c: char)
    requires Sane(k) && k.alphabetic(c)
    ensures Wide(k, c)
  {
  }

  lemma NotDigit(k: Classes, c: char)
    requires Sane(k) && k.alphabetic(c)
    ensures !IsDigit(c)
  {
  }

  lemma ReadsWord(k: Classes, name: string, rest: string)
    requires Sane(k) && name != "" && k.alphabetic(name[0]) && forall i :: 1 <= i < |name| ==> k.IdentChar(name[i])
    requires rest == "" || !k.IdentChar(rest[0])
    ensures ReadToken(k, name + rest) == Ok(Some((Word(name), rest)))
  {
    hide ReadToken, Word, ReadString, AfterSlash;
    var s := name + rest;
    IsWide(k, s) by { LetterIsWide(k, name[0]); }
    NotDigit(k, name[0]);
    assert s[1..] == name[1..] + rest;
    SpanIs(k.IdentChar, name[1..], rest);
    assert s[..|name|] == name && s[|name|..] == rest;
  }

  lemma ReadsNumber(k: Classes, digits: string, rest: string)
    requires Sane(k) && Digits(digits) && (rest == "" || !IsDigit(rest[0]))
    ensures ReadToken(k, digits + rest)
         == if Value(digits, 0) > LARGEST then Err(IntegerOverflow) else Ok(Some((Numeric(Value(digits, 0)), rest)))
  {
    hide Value;
    var s := digits + rest;
    assert IsDigit(digits[0]) && s[0] == digits[0];
    NoSpace(k, s);
    SpanIs(IsDigit, digits, rest);
    assert s[..|digits|] == digits && s[|digits|..] == rest;
    NumberIsValue(digits);
  }

  lemma ReadsString(k: Classes, ps: seq<Piece>, rest: string)
    requires Sane(k) && ValidPieces(ps)
    ensures ReadToken(k, "\"" + Raw(ps) + "\"" + rest) == Ok(Some((Str(Content(ps)), rest)))
    ensures ReadToken(k, "\"" + Raw(ps)) == ReadToken(k, "\"" + Raw(ps) + "\\") == Err(UnterminatedString)
  {
    hide Raw, Content, ReadString;
    ReadPieces(ps, "", rest);
    OpenedString(k, Raw(ps) + "\"" + rest);
    OpenedString(k, Raw(ps));
    OpenedString(k, Raw(ps) + "\\");
    assert "\"" + (Raw(ps) + "\"" + rest) == "\"" + Raw(ps) + "\"" + rest;
    assert "\"" + (Raw(ps) + "\\") == "\"" + Raw(ps) + "\\";
    assert "" + Content(ps) == Content(ps);
  }

  lemma OpenedString(k: Classes, s: string)
    requires Sane(k)
    ensures ReadToken(k, "\"" + s) == match ReadString(s, "")
                                      case Ok(p) => Ok(Some((Str(p.0), p.1)))
                                      case Err(e) => Err(e)
  {
    NoSpace(k, "\"" + s);
    assert ("\"" + s)[1..] == s;
  }

  lemma ReadsTrailing(k: Classes, s: string)
    requires Sane(k) && Trailing(s)
    ensures ReadToken(k, s) == Ok(None)
  {
    hide Sane;
    if s != "" {
      var text := s[2..];
      assert ReadToken(k, "") == Ok(None);
      if s[1] == '/' {
        assert s[1..] == "/" + text && s[1..][1..] == text;
        SkipLineIs(text, "");
      } else {
        assert s[1..] == "*" + text && s[1..][1..] == text;
        SkipCommentIs(text, "");
      }
      ReadPastSlash(k, s, "");
    }
  }

  lemma ReadsWrong(k: Classes, s: string, e: LexError)
    requires Sane(k) && Wrong(k, s, e)
    ensures ReadToken(k, s) == Err(e)
  {
    hide Raw, Content, Value;
    match e
    case UnknownCharacter(c) => NoSpace(k, s);
    case UnterminatedString =>
      var ps :| ValidPieces(ps) && (s == "\"" + Raw(ps) || s == "\"" + Raw(ps) + "\\");
      ReadsString(k, ps, "");
    case IntegerOverflow =>
      var n :| 0 < n <= |s| && Digits(s[..n]) && (n < |s| ==> !IsDigit(s[n])) && Value(s[..n], 0) > LARGEST;
      ReadsNumber(k, s[..n], s[n..]);
      assert s == s[..n] + s[n..];
  }

  lemma ReadsBeginning(k: Classes, s: string, r: Result<Option<(Token, string)>, LexError>)
    requires Sane(k) && Begins(k, s, r)
    ensures ReadToken(k, s) == r
  {
    hide ReadToken, Sane, Spells, Wrong, Trailing;
    match r
    case Ok(None) => ReadsTrailing(k, s);
    case Ok(Some(p)) =>
      var n :| 0 < n <= |s| && Spells(k, s[..n], p.0) && p.1 == s[n..] && EndsAt(k, p.0, p.1);
      assert s == s[..n] + s[n..];
      ReadSpelled(k, s[..n], p.0, p.1);
    case Err(e) => ReadsWrong(k, s, e);
  }

  lemma GapFirst(k: Classes, b: Blank, rest: string, s: string, r: Result<Option<(Token, string)>, LexError>)
    requires ValidBlank(k, b) && s == ShowBlank(b) + rest && Lexes(k, rest, r)
    ensures Lexes(k, s, r)
  {
    hide Begins, ValidBlank, ShowBlank;
    var bs, body :| Gap(k, bs) && rest == ShowGap(bs) + body && Begins(k, body, r);
    var all := [b] + bs;
    assert all[1..] == bs;
    assert s == ShowGap(all) + body;
    assert Gap(k, all) by { assert forall i :: 0 < i < |all| ==> all[i] == bs[i - 1]; }
  }

  lemma NoGap(k: Classes, s: string, r: Result<Option<(Token, string)>, LexError>)
    requires Begins(k, s, r)
    ensures Lexes(k, s, r)
  {
    hide Begins;
    assert ShowGap([]) + s == s && Gap(k, []);
  }

  /** Where a comment between marks ends, if it does. */
  lemma {:induction false} SplitComment(t: string) returns (end: Option<nat>)
    ensures end.None? ==> NoEnd(t)
    ensures end.Some? ==> end.value + 2 <= |t| && NoEnd(t[..end.value]) && t[end.value..end.value + 2] == "*/"
    decreases |t|
  {
    if |t| < 2 { return None; }
    if t[0] == '*' && t[1] == '/' {
      assert t[0..2] == "*/";
      return Some(0);
    }
    var later := SplitComment(t[1..]);
    if later.None? {
      assert forall i :: 0 < i < |t| ==> t[i] == t[1..][i - 1];
      return None;
    }
    end := Some(later.value + 1);
    assert t[1..][later.value..later.value + 2] == t[end.value..end.value + 2];
    assert forall i :: 0 < i < end.value ==> t[..end.value][i] == t[1..][..later.value][i - 1];
  }

  /** The tokenizer's reading of any text is one that the description allows. */
  lemma {:induction false} TokenLexes(k: Classes, s: string)
    requires Sane(k)
    ensures Lexes(k, s, ReadToken(k, s))
    decreases |s|
  {
    hide ReadToken, Lexes, Begins, Sane;
    if s == "" {
      ReadsTrailing(k, "");
      NoGap(k, s, Ok(None)) by { TrailingBegins(k, s); }
    } else if k.space(s[0]) {
      SkipBlank(k, Space(s[0]), s[1..]);
      TokenLexes(k, s[1..]);
      assert s == ShowBlank(Space(s[0])) + s[1..];
      GapFirst(k, Space(s[0]), s[1..], s, ReadToken(k, s));
    } else if |s| > 1 && s[0] == '/' && s[1] == '/' {
      LineLexes(k, s);
    } else if |s| > 1 && s[0] == '/' && s[1] == '*' {
      BlockLexes(k, s);
    } else {
      BeginningIs(k, s);
      NoGap(k, s, ReadToken(k, s));
    }
  }

  lemma TrailingBegins(k: Classes, s: string)
    requires Trailing(s)
    ensures Begins(k, s, Ok(None))
  {
  }

  lemma {:induction false} LineLexes(k: Classes, s: string)
    requires Sane(k) && |s| > 1 && s[0] == '/' && s[1] == '/'
    ensures Lexes(k, s, ReadToken(k, s))
    decreases |s|, 0
  {
    hide ReadToken, Lexes, Begins, Sane;
    var n := Span(NotLineEnd, s[2..]);
    var text := s[2..][..n];
    assert s[..2] == "//" && s == "//" + s[2..];
    if n == |s| - 2 {
      assert text == s[2..];
      TrailingBegins(k, s);
      ReadsTrailing(k, s);
      NoGap(k, s, Ok(None));
    } else {
      var rest := s[n + 3..];
      assert s[2..] == text + "\n" + rest;
      assert s == ShowBlank(LineComment(text)) + rest;
      SkipBlank(k, LineComment(text), rest);
      TokenLexes(k, rest);
      GapFirst(k, LineComment(text), rest, s, ReadToken(k, s));
    }
  }

  lemma {:induction false} BlockLexes(k: Classes, s: string)
    requires Sane(k) && |s| > 1 && s[0] == '/' && s[1] == '*'
    ensures Lexes(k, s, ReadToken(k, s))
    decreases |s|, 0
  {
    hide ReadToken, Lexes, Begins, Sane;
    var end := SplitComment(s[2..]);
    assert s[..2] == "/*" && s == "/*" + s[2..];
    match end
    case None =>
      TrailingBegins(k, s);
      ReadsTrailing(k, s);
      NoGap(k, s, Ok(None));
    case Some(n) =>
      var text, rest := s[2..][..n], s[2..][n + 2..];
      assert s[2..] == text + "*/" + rest;
      assert s == ShowBlank(BlockComment(text)) + rest;
      SkipBlank(k, BlockComment(text), rest);
      TokenLexes(k, rest);
      GapFirst(k, BlockComment(text), rest, s, ReadToken(k, s));
  }

  /** A text that starts with neither a space nor a comment starts with a token or with something wrong. */
  lemma BeginningIs(k: Classes, s: string)
    requires Sane(k) && s != "" && !k.space(s[0])
    requires |s| > 1 && s[0] == '/' ==> s[1] != '/' && s[1] != '*'
    ensures Begins(k, s, ReadToken(k, s))
  {
    hide ReadToken, ReadString, Raw, Content, Value;
    assert s == [s[0]] + s[1..];
    if Symbol(s[0]).Some? {
      ReadsSymbol(k, s[0], Symbol(s[0]).value, s[1..]);
      assert Spells(k, s[..1], Symbol(s[0]).value);
    } else if |s| > 1 && s[0] == ':' && s[1] == ':' {
      assert s == "::" + s[2..];
      ReadsColons(k, s[2..]);
      assert Spells(k, s[..2], Path);
    } else if s[0] == '"' {
      StringBegins(k, s);
    } else if s[0] == '/' || s[0] == ':' {
      LoneBegins(k, s);
    } else {
      WideBegins(k, s);
    }
  }

  lemma LoneBegins(k: Classes, s: string)
    requires Sane(k) && s != "" && !k.space(s[0]) && (s[0] == '/' || s[0] == ':')
    requires |s| > 1 ==> if s[0] == '/' then s[1] != '/' && s[1] != '*' else s[1] != ':'
    ensures Begins(k, s, ReadToken(k, s))
  {
    hide ReadString;
    NoSpace(k, s);
    assert ReadToken(k, s) == Err(UnknownCharacter(s[0]));
  }

  lemma StringBegins(k: Classes, s: string)
    requires Sane(k) && s != "" && s[0] == '"'
    ensures Begins(k, s, ReadToken(k, s))
  {
    hide ReadToken, ReadString, Raw, Content, Sane;
    var ps := SplitPieces(s[1..], "");
    assert s == "\"" + s[1..];
    OpenedString(k, s[1..]);
    match ReadString(s[1..], "")
    case Ok(p) =>
      var n := |s| - |p.1|;
      assert s == "\"" + Raw(ps) + "\"" + p.1;
      assert s[..n] == "\"" + Raw(ps) + "\"" && s[n..] == p.1;
      assert "" + Content(ps) == Content(ps);
      assert Spells(k, s[..n], Str(p.0));
    case Err(e) =>
      assert s == "\"" + Raw(ps) || s == "\"" + Raw(ps) + "\\" by {
        assert "\"" + (Raw(ps) + "\\") == "\"" + Raw(ps) + "\\";
      }
      assert Wrong(k, s, UnterminatedString);
  }

  lemma NumberBegins(k: Classes, s: string)
    requires s != "" && IsDigit(s[0])
    ensures Begins(k, s, ReadWide(k, s))
  {
    hide Value;
    var n := Span(IsDigit, s);
    NumberIsValue(s[..n]);
    assert Digits(s[..n]);
    if Value(s[..n], 0) > LARGEST {
      assert Wrong(k, s, IntegerOverflow);
    } else {
      assert Spells(k, s[..n], Numeric(Value(s[..n], 0)));
    }
  }

  lemma WideBegins(k: Classes, s: string)
    requires Sane(k) && s != "" && Wide(k, s[0])
    ensures Begins(k, s, ReadToken(k, s))
  {
    hide ReadToken, Value, Sane;
    IsWide(k, s);
    if IsDigit(s[0]) {
      NumberBegins(k, s);
    } else if k.alphabetic(s[0]) {
      var n := 1 + Span(k.IdentChar, s[1..]);
      assert forall i :: 1 <= i < n ==> s[i] == s[1..][i - 1];
      assert n < |s| ==> s[n] == s[1..][n - 1];
      assert Spells(k, s[..n], Word(s[..n]));
    } else {
      assert Wrong(k, s, UnknownCharacter(s[0]));
    }
  }

  /** The tokenizer reads a token, nothing or an error exactly where the description says so. */
  lemma LexesIff(k: Classes, s: string, r: Result<Option<(Token, string)>, LexError>)
    requires Sane(k)
    ensures Lexes(k, s, r) <==> ReadToken(k, s) == r
  {
    hide ReadToken, Begins, Sane;
    TokenLexes(k, s);
    if Lexes(k, s, r) {
      var bs, body :| Gap(k, bs) && s == ShowGap(bs) + body && Begins(k, body, r);
      SkipGap(k, bs, body);
      ReadsBeginning(k, body, r);
    }
  }

  /** The text is these tokens with gaps between them. */
  ghost predicate Written(k: Classes, s: string, ts: seq<Token>)
    decreases |ts|
  {
    if ts == [] then Lexes(k, s, Ok(None))
    else exists rest :: Lexes(k, s, Ok(Some((ts[0], rest)))) && Written(k, rest, ts[1..])
  }

  /** After some tokens with gaps between them comes something wrong. */
  ghost predicate GoesWrong(k: Classes, s: string, ts: seq<Token>, e: LexError)
    decreases |ts|
  {
    if ts == [] then Lexes(k, s, Err(e))
    else exists rest :: Lexes(k, s, Ok(Some((ts[0], rest)))) && GoesWrong(k, rest, ts[1..], e)
  }

  /** A text has these tokens exactly if it can be written as them with gaps between. */
  lemma {:induction false} TokensIff(k: Classes, s: string, ts: seq<Token>)
    requires Sane(k)
    ensures ReadTokens(k, s) == Ok(ts + [Eof]) <==> Written(k, s, ts)
    decreases |ts|
  {
    hide ReadToken, Lexes, Sane;
    var r := ReadToken(k, s);
    LexesIff(k, s, r);
    if ts == [] {
      LexesIff(k, s, Ok(None));
      if r.Ok? && r.value.Some? { NonEmpty(k, r.value.value.1); }
      assert ts + [Eof] == [Eof];
    } else {
      assert (ts + [Eof])[0] == ts[0] && (ts + [Eof])[1..] == ts[1..] + [Eof];
      forall rest ensures Lexes(k, s, Ok(Some((ts[0], rest)))) <==> r == Ok(Some((ts[0], rest))) {
        LexesIff(k, s, Ok(Some((ts[0], rest))));
      }
      if r.Ok? && r.value.Some? {
        var rest := r.value.value.1;
        TokensIff(k, rest, ts[1..]);
        if ReadTokens(k, rest).Ok? {
          var us := ReadTokens(k, rest).value;
          assert ([r.value.value.0] + us)[0] == r.value.value.0 && ([r.value.value.0] + us)[1..] == us;
          assert ts + [Eof] == [ts[0]] + (ts[1..] + [Eof]);
        }
      }
    }
  }

  lemma NonEmpty(k: Classes, s: string)
    ensures ReadTokens(k, s).Ok? ==> ReadTokens(k, s).value != []
  {
    hide ReadToken;
  }

  /** A text is refused with an error exactly if that is what comes after its first tokens. */
  lemma ErrorsIff(k: Classes, s: string, e: LexError)
    requires Sane(k)
    ensures ReadTokens(k, s) == Err(e) <==> exists ts :: GoesWrong(k, s, ts, e)
  {
    hide ReadToken, Lexes, Sane;
    if ReadTokens(k, s) == Err(e) { var ts := FindWrong(k, s, e); }
    forall ts | GoesWrong(k, s, ts, e) ensures ReadTokens(k, s) == Err(e) { WrongFails(k, s, ts, e); }
  }

  lemma {:induction false} FindWrong(k: Classes, s: string, e: LexError) returns (ts: seq<Token>)
    requires Sane(k) && ReadTokens(k, s) == Err(e)
    ensures GoesWrong(k, s, ts, e)
    decreases |s|
  {
    hide ReadToken, Lexes, Sane;
    var r := ReadToken(k, s);
    LexesIff(k, s, r);
    if r.Err? {
      ts := [];
    } else {
      var rest := FindWrong(k, r.value.value.1, e);
      ts := [r.value.value.0] + rest;
      assert ts[1..] == rest;
    }
  }

  lemma {:induction false} WrongFails(k: Classes, s: string, ts: seq<Token>, e: LexError)
    requires Sane(k) && GoesWrong(k, s, ts, e)
    ensures ReadTokens(k, s) == Err(e)
    decreases |ts|
  {
    hide ReadToken, Lexes, Sane;
    if ts == [] {
      LexesIff(k, s, Err(e));
    } else {
      var rest :| Lexes(k, s, Ok(Some((ts[0], rest)))) && GoesWrong(k, rest, ts[1..], e);
      LexesIff(k, s, Ok(Some((ts[0], rest))));
      WrongFails(k, rest, ts[1..], e);
    }
  }

  predicate Keyword(s: string) {
    s == "return" || s == "def" || s == "import" || s == "export" || s == "as"
  }

  /** An identifier that can be written down. */
  predicate ValidIdent(k: Classes, s: string) {
    s != "" && k.alphabetic(s[0]) && (forall i :: 1 <= i < |s| ==> k.IdentChar(s[i])) && !Keyword(s)
  }

  predicate ValidToken(k: Classes, t: Token) {
    match t
    case Ident(name) => ValidIdent(k, name)
    case Numeric(n) => n <= MAX_NUMBER
    case Eof => false
    case _ => true
  }

  function Decimal(n: nat): (s: string)
    ensures s != "" && forall i :: 0 <= i < |s| ==> IsDigit(s[i])
  {
    var last := [('0' as int + n % 10) as char];
    if n < 10 then last else Decimal(n / 10) + last
  }

  function Escape(s: string): string {
    if s == "" then "" else (if s[0] == '\\' || s[0] == '"' then ['\\', s[0]] else [s[0]]) + Escape(s[1..])
  }

  /** A token as text. */
  function Show(t: Token): string {
    match t
    case Ident(name) => name
    case Str(text) => ['"'] + Escape(text) + ['"']
    case Numeric(n) => Decimal(n)
    case OpenParen => "("
    case ClosingParen => ")"
    case OpenBracket => "{"
    case ClosingBracket => "}"
    case SemiColon => ";"
    case Pipe => ">"
    case Comma => ","
    case Eq => "="
    case Wait => "!"
    case Path => "::"
    case Return => "return"
    case Def => "def"
    case Import => "import"
    case Export => "export"
    case As => "as"
    case Eof => ""
  }

  /** Tokens as text, a space after each. */
  function ShowAll(ts: seq<Token>): string {
    if ts == [] then "" else Show(ts[0]) + [' '] + ShowAll(ts[1..])
  }

  function Pieces(s: string): seq<Piece> {
    if s == "" then [] else [if s[0] == '\\' || s[0] == '"' then Escaped(s[0]) else Plain(s[0])] + Pieces(s[1..])
  }

  /** Escaping quotes and backslashes keeps any content. */
  lemma {:induction false} EscapedIsContent(s: string)
    ensures ValidPieces(Pieces(s)) && Raw(Pieces(s)) == Escape(s) && Content(Pieces(s)) == s
    decreases |s|
  {
    if s != "" {
      EscapedIsContent(s[1..]);
      assert Pieces(s)[1..] == Pieces(s[1..]);
    }
  }

  lemma {:induction false} DecimalHasValue(n: nat)
    ensures Value(Decimal(n), 0) == n
    decreases n
  {
    var last := ('0' as int + n % 10) as char;
    if n < 10 {
      assert [last][1..] == "";
    } else {
      DecimalHasValue(n / 10);
      ValueOfLast(Decimal(n / 10), last, 0);
    }
  }

  /** What a token is shown as spells it. */
  lemma ShownSpells(k: Classes, t: Token)
    requires ValidToken(k, t)
    ensures Spells(k, Show(t), t)
  {
    hide Raw, Content, Escape, Value;
    match t
    case Str(text) =>
      EscapedIsContent(text);
      assert Show(t) == "\"" + Raw(Pieces(text)) + "\"";
    case Numeric(n) => DecimalHasValue(n);
    case _ =>
  }

  /** A token that is shown and followed by a space is read back. */
  lemma ReadShown(k: Classes, t: Token, rest: string)
    requires Sane(k) && ValidToken(k, t)
    ensures ReadToken(k, Show(t) + [' '] + rest) == Ok(Some((t, [' '] + rest)))
  {
    hide ReadToken, Show, Spells, ValidToken;
    ShownSpells(k, t);
    assert Show(t) + [' '] + rest == Show(t) + ([' '] + rest);
    ReadSpelled(k, Show(t), t, [' '] + rest);
  }

  /** Tokens that are shown with a space after each are read back, followed by the end. */
  lemma {:induction false} ReadAllShown(k: Classes, ts: seq<Token>)
    requires Sane(k) && forall i :: 0 <= i < |ts| ==> ValidToken(k, ts[i])
    ensures ReadTokens(k, ShowAll(ts)) == Ok(ts + [Eof])
    decreases |ts|
  {
    hide ReadToken, Show, Sane, ValidToken;
    if ts == [] {
      ReadsTrailing(k, "");
      assert ts + [Eof] == [Eof];
    } else {
      assert ShowAll(ts) == Show(ts[0]) + [' '] + ShowAll(ts[1..]);
      ReadShown(k, ts[0], ShowAll(ts[1..]));
      ReadAllShown(k, ts[1..]);
      SpaceDoesNotMatter(k, ShowAll(ts[1..]));
      assert ts + [Eof] == [ts[0]] + (ts[1..] + [Eof]);
    }
  }

  lemma SpaceDoesNotMatter(k: Classes, s: string)
    requires Sane(k)
    ensures ReadTokens(k, [' '] + s) == ReadTokens(k, s)
  {
    hide ReadToken;
    SkipSpace(k, ' ', s);
  }

  /** A comment leaves the tokens as they are, at the start of a text and after a token. */
  lemma CommentsAreSkipped(k: Classes, comment: Blank, t: Token, s: string)
    requires Sane(k) && ValidBlank(k, comment) && ValidToken(k, t)
    ensures ReadTokens(k, ShowBlank(comment) + s) == ReadTokens(k, s)
    ensures ReadTokens(k, Show(t) + [' '] + ShowBlank(comment) + s) == ReadTokens(k, Show(t) + [' '] + s)
  {
    hide ReadToken, Sane, ValidToken, ShowBlank, Show, ValidBlank;
    SkipBlank(k, comment, s);
    assert Show(t) + [' '] + ShowBlank(comment) + s == Show(t) + [' '] + (ShowBlank(comment) + s);
    ReadShown(k, t, ShowBlank(comment) + s);
    ReadShown(k, t, s);
    SpaceDoesNotMatter(k, ShowBlank(comment) + s);
    SpaceDoesNotMatter(k, s);
  }
}
