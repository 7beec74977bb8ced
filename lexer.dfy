/** The hand-written lexer (lexer/src/lexer/mod.rs). The functions at the top state, for a
    source text and a position in it, what each scanning step of the lexer consumes and
    returns; the class `Lexer` below runs the same steps by advancing its cursor one
    character at a time and is proved to agree with them. Offsets are character indexes:
    the source is taken to be ASCII, where they coincide with the UTF-8 byte offsets. */
module Lexing {
  import opened Tokens
  import W = Wrappers

  // ------------------------------------------------------------------------------------
  // Character classes

  /** What `skip_trivia` skips. */
  predicate IsTrivia(c: char) {
    c == ' ' || c == '\t' || c == '\n' || c == '\r'
  }

  predicate IsDigit(c: char) {
    '0' <= c <= '9'
  }

  predicate IsIdentStart(c: char) {
    ('a' <= c <= 'z') || ('A' <= c <= 'Z') || c == '_'
  }

  predicate IsIdentChar(c: char) {
    IsIdentStart(c) || IsDigit(c)
  }

  predicate IsQuote(c: char) {
    c == '"' || c == '\'' || c == '`'
  }

  /** The characters `str::trim` removes (Unicode White_Space). */
  predicate IsWhitespace(c: char) {
    ('\t' <= c <= '\r') || c == ' ' || c == '\U{85}' || c == '\U{A0}' || c == '\U{1680}'
    || ('\U{2000}' <= c <= '\U{200A}') || c == '\U{2028}' || c == '\U{2029}' || c == '\U{202F}'
    || c == '\U{205F}' || c == '\U{3000}'
  }

  /** `str::trim_start`: the result is a suffix, everything dropped is white space, and
      what is left does not start with white space. */
  function TrimStart(x: string): (r: string)
    ensures |r| <= |x| && r == x[|x| - |r|..]
    ensures forall i :: 0 <= i < |x| - |r| ==> IsWhitespace(x[i])
    ensures |r| > 0 ==> !IsWhitespace(r[0])
  {
    if |x| > 0 && IsWhitespace(x[0]) then TrimStart(x[1..]) else x
  }

  /** `str::trim_end`: the result is a prefix, everything dropped is white space, and
      what is left does not end with white space. */
  function TrimEnd(x: string): (r: string)
    ensures |r| <= |x| && r == x[..|r|]
    ensures forall i :: |r| <= i < |x| ==> IsWhitespace(x[i])
    ensures |r| > 0 ==> !IsWhitespace(r[|r| - 1])
  {
    if |x| > 0 && IsWhitespace(x[|x| - 1]) then TrimEnd(x[..|x| - 1]) else x
  }

  /** `str::trim`. */
  function Trim(x: string): string {
    TrimEnd(TrimStart(x))
  }

  // ------------------------------------------------------------------------------------
  // What each scanning step consumes, as functions of the source and the cursor

  /** The character the cursor stands on (`peek`). */
  function PeekAt(s: string, p: nat): W.Option<char> {
    if p < |s| then W.Some(s[p]) else W.None
  }

  /** Where the cursor stands after `next`: one further, or still at the end. */
  function NextAt(s: string, p: nat): nat {
    if p < |s| then p + 1 else p
  }

  /** The kind a step returns and where it leaves the cursor. */
  datatype Scan = Scan(kind: TokenKind, end: nat)

  /** `skip_trivia`: the end of the run of trivia at `p`. */
  function TriviaEnd(s: string, p: nat): (e: nat)
    requires p <= |s|
    ensures p <= e <= |s|
    ensures forall k :: p <= k < e ==> IsTrivia(s[k])
    ensures e == |s| || !IsTrivia(s[e])
    decreases |s| - p
  {
    if p < |s| && IsTrivia(s[p]) then TriviaEnd(s, p + 1) else p
  }

  /** `read_one_more`: the wide kind, consuming `ch`, when `ch` is next; the narrow kind
      otherwise. */
  function OneMore(s: string, p: nat, ch: char, wide: TokenKind, narrow: TokenKind): Scan
    requires p <= |s|
  {
    if PeekAt(s, p) == W.Some(ch) then Scan(wide, p + 1) else Scan(narrow, p)
  }

  /** `read_number`: a run of digits. The source looks one character past a `.`, `e` or
      `E` with `peek_two` before going on; that reads the same character as `peek`, which
      is never a digit there, so those characters always end the number. */
  function NumberEnd(s: string, p: nat): (e: nat)
    requires p <= |s|
    ensures p <= e <= |s|
    ensures forall k :: p <= k < e ==> IsDigit(s[k])
    ensures e == |s| || !IsDigit(s[e])
    decreases |s| - p
  {
    if p < |s| && IsDigit(s[p]) then NumberEnd(s, p + 1) else p
  }

  /** `read_dot`, after the `.` has been consumed. */
  function DotScan(s: string, p: nat): Scan
    requires p <= |s|
  {
    if PeekAt(s, p) == W.Some('.') then Scan(Range, p + 1)
    else if p < |s| && IsDigit(s[p]) then Scan(TokenKind.Number, NumberEnd(s, p))
    else Scan(Dot, p)
  }

  /** `read_comment`: through the first newline, inclusive, or to the end. */
  function CommentEnd(s: string, p: nat): (e: nat)
    requires p <= |s|
    ensures p <= e <= |s|
    ensures e == |s| || (p < e && s[e - 1] == '\n')
    ensures forall k :: p <= k < e && s[k] == '\n' ==> k == e - 1
    decreases |s| - p
  {
    if p == |s| then p
    else if s[p] == '\n' then p + 1
    else CommentEnd(s, p + 1)
  }

  /** `read_string`, after the opening quote `q` has been consumed: a string up to and
      including the first copy of `q` that no backslash skips. */
  function StringScan(s: string, p: nat, q: char): (r: Scan)
    requires p <= |s|
    ensures p <= r.end <= |s|
    ensures r.kind == TokenKind.Str ==> p < r.end && s[r.end - 1] == q
    ensures r.kind != TokenKind.Str ==> r == Scan(Unexpected, |s|)
    decreases |s| - p
  {
    if p == |s| then Scan(Unexpected, p)
    else if s[p] == q then Scan(TokenKind.Str, p + 1)
    else if s[p] == '\\' then StringScan(s, NextAt(s, p + 1), q)
    else StringScan(s, p + 1, q)
  }

  /** `read_identifier`. */
  function IdentEnd(s: string, p: nat): (e: nat)
    requires p <= |s|
    ensures p <= e <= |s|
    ensures forall k :: p <= k < e ==> IsIdentChar(s[k])
    ensures e == |s| || !IsIdentChar(s[e])
    decreases |s| - p
  {
    if p < |s| && IsIdentChar(s[p]) then IdentEnd(s, p + 1) else p
  }

  /** `next_kind`: the kind of the lexeme at `p` and where it ends. At the end of input it
      is `Eof` and consumes nothing; otherwise it consumes at least one character. */
  function KindScan(s: string, p: nat): (r: Scan)
    requires p <= |s|
    ensures p <= r.end <= |s|
    ensures r.kind == Eof <==> p == |s|
    ensures r.kind == Eof ==> r.end == p
    ensures r.kind != Eof ==> p < r.end
    ensures r.kind == TokenKind.Str ==> IsQuote(s[p]) && p + 2 <= r.end && s[r.end - 1] == s[p]
    ensures r.kind == Comment ==> s[p] == '#'
    ensures Scanned(s, p, r)
  {
    if p == |s| then Scan(Eof, p)
    else
      var c, q := s[p], p + 1;
      if c == '+' then OneMore(s, q, '=', PlusAssign, Plus)
      else if c == '-' then OneMore(s, q, '=', MinusAssign, Minus)
      else if c == '*' then OneMore(s, q, '=', MultiplyAssign, Multiply)
      else if c == '/' then OneMore(s, q, '=', DivideAssign, Divide)
      else if c == '^' then OneMore(s, q, '=', PowerAssign, Power)
      else if c == '%' then OneMore(s, q, '=', ModuloAssign, Modulo)
      else if c == '<' then OneMore(s, q, '=', LessEqual, Less)
      else if c == '>' then OneMore(s, q, '=', GreaterEqual, Greater)
      else if c == '!' then OneMore(s, q, '=', NotEqual, Not)
      else if c == '(' then Scan(LParen, q)
      else if c == ')' then Scan(RParen, q)
      else if c == '{' then Scan(LBrace, q)
      else if c == '}' then Scan(RBrace, q)
      else if c == '[' then Scan(LBracket, q)
      else if c == ']' then Scan(RBracket, q)
      else if c == ';' then Scan(Semicolon, q)
      else if c == ',' then Scan(Comma, q)
      else if c == ':' then OneMore(s, q, '=', FormulaAssign, Colon)
      else if c == '.' then DotScan(s, q)
      else if c == '=' then OneMore(s, q, '=', Equal, Assign)
      else if IsDigit(c) then Scan(TokenKind.Number, NumberEnd(s, q))
      else if IsIdentStart(c) then Scan(Identifier, IdentEnd(s, q))
      else if IsQuote(c) then StringScan(s, q, c)
      else if c == '#' then Scan(Comment, CommentEnd(s, q))
      else Scan(Unexpected, q)
  }

  /** `match_keyword`: identifiers of length 1 or over 10 skip the table. */
  function MatchKeyword(ident: string): (k: TokenKind)
    ensures k != Eof && k != Unexpected
  {
    if |ident| == 1 || |ident| > 10 then Identifier
    else if ident == "if" then If
    else if ident == "else" then Else
    else if ident == "while" then While
    else if ident == "loop" then Loop
    else if ident == "for" then For
    else if ident == "let" then Let
    else if ident == "fn" then Function
    else if ident == "return" then Return
    else if ident == "break" then Break
    else if ident == "continue" then Continue
    else if ident == "in" then In
    else if ident == "true" then True
    else if ident == "false" then False
    else Identifier
  }

  lemma TrimKeepsSolidEnds(x: string)
    requires |x| > 0 && !IsWhitespace(x[0]) && !IsWhitespace(x[|x| - 1])
    ensures Trim(x) == x
  {
  }

  lemma TrimKeepsSolidHead(x: string)
    requires |x| > 0 && !IsWhitespace(x[0])
    ensures Trim(x) == [x[0]] + TrimEnd(x[1..])
    decreases |x|
  {
    if |x| > 1 && IsWhitespace(x[|x| - 1]) {
      TrimKeepsSolidHead(x[..|x| - 1]);
      assert x[..|x| - 1][1..] == x[1..][..|x| - 2];
    }
  }

  /** A quoted lexeme is left as it is by trimming: it starts and ends with a quote. */
  lemma QuotedTextKept(s: string, start: nat, end: nat)
    requires start + 2 <= end <= |s| && IsQuote(s[start]) && s[end - 1] == s[start]
    ensures Trim(s[start..end]) == s[start..end] && |s[start..end]| >= 2
  {
    var x := s[start..end];
    assert x[0] == s[start] && x[|x| - 1] == s[end - 1];
    TrimKeepsSolidEnds(x);
  }

  /** What `next_kind` guarantees of the lexeme `s[start..sc.end]` it scanned. */
  predicate Scanned(s: string, start: nat, sc: Scan) {
    start <= sc.end <= |s|
    && (sc.kind == TokenKind.Str ==> start + 2 <= sc.end && IsQuote(s[start]) && s[sc.end - 1] == s[start])
    && (sc.kind == Comment ==> start < sc.end && s[start] == '#')
    && (sc.kind == Identifier ==> start < |s| && IsIdentStart(s[start]) && sc.end == IdentEnd(s, start + 1))
  }

  /** The token `next_token` produces and where it leaves the cursor. */
  datatype Lexed = Lexed(token: Token, pos: nat)

  /** The token `next_token` builds from the lexeme `s[start..end]` that `next_kind`
      scanned: the text is trimmed; a number keeps its text; an identifier is looked up in
      the keyword table and keeps its text unless it is `if`, `while` or `for`; a string
      keeps what lies between its quotes (trimming leaves a quoted lexeme as it is, so the
      untrimmed lexeme is sliced) and a comment what follows its `#`. */
  function Decode(s: string, start: nat, sc: Scan): (t: Token)
    requires Scanned(s, start, sc)
    ensures t.start == start && t.end == sc.end
    ensures t.kind == Eof <==> sc.kind == Eof
  {
    var text := Trim(s[start..sc.end]);
    var v: (TokenKind, TokenValue) :=
      if sc.kind == TokenKind.Number then (sc.kind, TokenValue.Number(text))
      else if sc.kind == Identifier then
        var kind := MatchKeyword(text);
        if kind == If || kind == While || kind == For then (kind, TokenValue.None)
        else (kind, TokenValue.Str(text))
      else if sc.kind == TokenKind.Str then
        (sc.kind, TokenValue.Str(s[start + 1..sc.end - 1]))
      else if sc.kind == Comment then
        TrimKeepsSolidHead(s[start..sc.end]);
        (sc.kind, TokenValue.Str(text[1..]))
      else (sc.kind, TokenValue.None);
    Token(v.0, start, sc.end, v.1)
  }

  /** `next_token`: skip trivia, scan one lexeme, decode its value. An unexpected
      character or an unterminated string is reported with its span. */
  function NextTokenAt(s: string, p: nat): (r: W.Result<Lexed>)
    requires p <= |s|
    ensures r.Ok? ==> var t := r.value.token;
      p <= t.start <= t.end == r.value.pos <= |s| && (t.kind == Eof <==> t.start == |s|)
      && (t.kind != Eof ==> t.start < t.end && !IsTrivia(s[t.start]))
      && (forall k :: p <= k < t.start ==> IsTrivia(s[k]))
    ensures r.Err? ==> var f := r.error;
      f.Report? && f.message == "Unexpected token" && p <= f.start < f.end <= |s|
  {
    var start := TriviaEnd(s, p);
    var sc := KindScan(s, start);
    if sc.kind == Unexpected then W.Err(W.Report("Unexpected token", start, sc.end))
    else W.Ok(Lexed(Decode(s, start, sc), sc.end))
  }

  /** Proof helper: the one-step unfolding of `NextTokenAt`, the decoded lexeme after the
      trivia, for lemmas that must not unfold the whole lexer. */
  lemma NextTokenDecodes(s: string, p: nat)
    requires p <= |s|
    ensures var start := TriviaEnd(s, p); var sc := KindScan(s, start);
      NextTokenAt(s, p) == if sc.kind == Unexpected then W.Err(W.Report("Unexpected token", start, sc.end))
        else W.Ok(Lexed(Decode(s, start, sc), sc.end))
  {
  }

  /** `tokenize`: the tokens up to, not including, the first `Eof`. */
  function TokenizeFrom(s: string, p: nat): W.Result<seq<Token>>
    requires p <= |s|
    decreases |s| - p
  {
    match NextTokenAt(s, p)
    case Err(f) => W.Err(f)
    case Ok(l) =>
      if l.token.kind == Eof then W.Ok([])
      else Prepend(l.token, TokenizeFrom(s, l.pos))
  }

  function Prepend(t: Token, r: W.Result<seq<Token>>): W.Result<seq<Token>> {
    match r
    case Ok(ts) => W.Ok([t] + ts)
    case Err(f) => W.Err(f)
  }

  // ------------------------------------------------------------------------------------
  // The lexer proper

  class Lexer {
    /** Source text. */
    const source: string

    /** The remaining characters are `source[pos..]`. */
    var pos: nat

    ghost predicate Valid()
      reads this
    {
      pos <= |source|
    }

    constructor (source: string)
      ensures Valid() && this.source == source && pos == 0
    {
      this.source := source;
      pos := 0;
    }

    /** The offset of the cursor into the source. */
    function Offset(): (o: nat)
      reads this
      requires Valid()
      ensures o <= |source|
    {
      pos
    }

    function Peek(): W.Option<char>
      reads this
      requires Valid()
    {
      if pos < |source| then W.Some(source[pos]) else W.None
    }

    /** Meant as a look-ahead of two; it builds a fresh iterator over the remaining text
        and reads its first character, so it sees the same character as `Peek`. */
    function PeekTwo(): (c: W.Option<char>)
      reads this
      requires Valid()
      ensures c == Peek()
      ensures c == PeekAt(source, pos)
    {
      var remaining := source[pos..];
      if |remaining| > 0 then W.Some(remaining[0]) else W.None
    }

    method Next() returns (c: W.Option<char>)
      requires Valid()
      modifies this`pos
      ensures Valid() && c == old(Peek()) && pos == NextAt(source, old(pos))
    {
      c := Peek();
      if pos < |source| {
        pos := pos + 1;
      }
    }

    method SkipTrivia()
      requires Valid()
      modifies this`pos
      ensures Valid() && pos == TriviaEnd(source, old(pos))
    {
      while Peek().Some? && IsTrivia(Peek().value)
        invariant Valid() && TriviaEnd(source, pos) == TriviaEnd(source, old(pos))
        decreases |source| - pos
      {
        var _ := Next();
      }
    }

    method ReadOneMore(ch: char, kindExpected: TokenKind, kindUnexpected: TokenKind)
      returns (kind: TokenKind)
      requires Valid()
      modifies this`pos
      ensures Valid() && Scan(kind, pos) == OneMore(source, old(pos), ch, kindExpected, kindUnexpected)
    {
      if Peek() == W.Some(ch) {
        var _ := Next();
        return kindExpected;
      }
      return kindUnexpected;
    }

    method ReadDot() returns (kind: TokenKind)
      requires Valid()
      modifies this`pos
      ensures Valid() && Scan(kind, pos) == DotScan(source, old(pos))
    {
      if Peek() == W.Some('.') {
        var _ := Next();
        return Range;
      } else if Peek().Some? && IsDigit(Peek().value) {
        kind := ReadNumber();
        return;
      }
      return Dot;
    }

    method ReadNumber() returns (kind: TokenKind)
      requires Valid()
      modifies this`pos
      ensures Valid() && kind == TokenKind.Number && pos == NumberEnd(source, old(pos))
    {
      while Peek().Some?
        invariant Valid() && NumberEnd(source, pos) == NumberEnd(source, old(pos))
        decreases |source| - pos
      {
        var c := Peek().value;
        if IsDigit(c) {
          var _ := Next();
        } else if c == '.' || c == 'e' || c == 'E' {
          var d := PeekTwo();
          if d.Some? && IsDigit(d.value) {
            // the source calls `next()` twice here (mod.rs:113-114); `d` is `c`, so never
            assert false;
          }
          break;
        } else {
          break;
        }
      }
      return TokenKind.Number;
    }

    method ReadComment() returns (kind: TokenKind)
      requires Valid()
      modifies this`pos
      ensures Valid() && kind == Comment && pos == CommentEnd(source, old(pos))
    {
      while Peek().Some?
        invariant Valid() && CommentEnd(source, pos) == CommentEnd(source, old(pos))
        decreases |source| - pos
      {
        var c := Peek().value;
        if c == '\n' {
          var _ := Next();
          break;
        } else {
          var _ := Next();
        }
      }
      return Comment;
    }

    method ReadString(initChar: char) returns (kind: TokenKind)
      requires Valid()
      modifies this`pos
      ensures Valid() && Scan(kind, pos) == StringScan(source, old(pos), initChar)
    {
      while Peek().Some?
        invariant Valid() && StringScan(source, pos, initChar) == StringScan(source, old(pos), initChar)
        decreases |source| - pos
      {
        var c := Peek().value;
        if c == initChar {
          var _ := Next();
          return TokenKind.Str;
        } else if c == '\\' {
          var _ := Next();
          var _ := Next();
        } else {
          var _ := Next();
        }
      }
      return Unexpected;
    }

    method ReadIdentifier() returns (kind: TokenKind)
      requires Valid()
      modifies this`pos
      ensures Valid() && kind == Identifier && pos == IdentEnd(source, old(pos))
    {
      while Peek().Some? && IsIdentChar(Peek().value)
        invariant Valid() && IdentEnd(source, pos) == IdentEnd(source, old(pos))
        decreases |source| - pos
      {
        var _ := Next();
      }
      return Identifier;
    }

    /** `next_kind`. Every arm of the source's loop returns, so it reads one character. */
    method NextKind() returns (kind: TokenKind)
      requires Valid()
      modifies this`pos
      ensures Valid() && Scan(kind, pos) == KindScan(source, old(pos))
    {
      var next := Next();
      if next.None? {
        return Eof;
      }
      var c := next.value;
      if c == '+' { kind := ReadOneMore('=', PlusAssign, Plus); }
      else if c == '-' { kind := ReadOneMore('=', MinusAssign, Minus); }
      else if c == '*' { kind := ReadOneMore('=', MultiplyAssign, Multiply); }
      else if c == '/' { kind := ReadOneMore('=', DivideAssign, Divide); }
      else if c == '^' { kind := ReadOneMore('=', PowerAssign, Power); }
      else if c == '%' { kind := ReadOneMore('=', ModuloAssign, Modulo); }
      else if c == '<' { kind := ReadOneMore('=', LessEqual, Less); }
      else if c == '>' { kind := ReadOneMore('=', GreaterEqual, Greater); }
      else if c == '!' { kind := ReadOneMore('=', NotEqual, Not); }
      else if c == '(' { kind := LParen; }
      else if c == ')' { kind := RParen; }
      else if c == '{' { kind := LBrace; }
      else if c == '}' { kind := RBrace; }
      else if c == '[' { kind := LBracket; }
      else if c == ']' { kind := RBracket; }
      else if c == ';' { kind := Semicolon; }
      else if c == ',' { kind := Comma; }
      else if c == ':' { kind := ReadOneMore('=', FormulaAssign, Colon); }
      else if c == '.' { kind := ReadDot(); }
      else if c == '=' { kind := ReadOneMore('=', Equal, Assign); }
      else if IsDigit(c) { kind := ReadNumber(); }
      else if IsIdentStart(c) { kind := ReadIdentifier(); }
      else if IsQuote(c) { kind := ReadString(c); }
      else if c == '#' { kind := ReadComment(); }
      else { kind := Unexpected; }
    }

    method NextToken() returns (r: W.Result<Token>)
      requires Valid()
      modifies this`pos
      ensures Valid()
      ensures NextTokenAt(source, old(pos)) == match r
        case Ok(t) => W.Ok(Lexed(t, pos))
        case Err(f) => W.Err(f)
    {
      SkipTrivia();
      var start := Offset();
      var kind := NextKind();
      var end := Offset();
      if kind == Unexpected {
        return W.Err(W.Report("Unexpected token", start, end));
      }
      return W.Ok(Decode(source, start, Scan(kind, end)));
    }

    method Tokenize() returns (r: W.Result<seq<Token>>)
      requires Valid()
      modifies this`pos
      ensures Valid() && r == TokenizeFrom(source, old(pos))
    {
      var tokens: seq<Token> := [];
      PrependAllNil(TokenizeFrom(source, pos));
      while true
        invariant Valid()
        invariant TokenizeFrom(source, old(pos)) == PrependAll(tokens, TokenizeFrom(source, pos))
        decreases |source| - pos
      {
        ghost var before := pos;
        var next := NextToken();
        TokenizeStep(source, before);
        if next.Err? {
          return W.Err(next.error);
        }
        var token := next.value;
        if token.kind == Eof {
          assert tokens + [] == tokens;
          break;
        }
        PrependAllStep(tokens, token, TokenizeFrom(source, pos));
        tokens := tokens + [token];
      }
      return W.Ok(tokens);
    }
  }

  function PrependAll(ts: seq<Token>, r: W.Result<seq<Token>>): W.Result<seq<Token>> {
    match r
    case Ok(rest) => W.Ok(ts + rest)
    case Err(f) => W.Err(f)
  }

  /** One step of `tokenize`: an error ends it, `Eof` ends it with no further tokens, any
      other token is followed by the tokens after it. */
  lemma TokenizeStep(s: string, p: nat)
    requires p <= |s|
    ensures match NextTokenAt(s, p)
      case Err(f) => TokenizeFrom(s, p) == W.Err(f)
      case Ok(l) =>
        l.pos <= |s| &&
        TokenizeFrom(s, p) == (if l.token.kind == Eof then W.Ok([]) else Prepend(l.token, TokenizeFrom(s, l.pos)))
  {
  }

  lemma PrependAllNil(r: W.Result<seq<Token>>)
    ensures PrependAll([], r) == r
  {
    match r
    case Ok(rest) => assert [] + rest == rest;
    case Err(f) =>
  }

  lemma PrependAllStep(ts: seq<Token>, t: Token, r: W.Result<seq<Token>>)
    ensures PrependAll(ts, Prepend(t, r)) == PrependAll(ts + [t], r)
  {
    match r
    case Ok(rest) => assert ts + ([t] + rest) == (ts + [t]) + rest;
    case Err(f) =>
  }
}
