/** Properties of the lexer model: what `tokenize` returns, where tokens lie in the source,
    and what each kind of lexeme scans and carries as its value. */
module LexerProps {
  import opened Tokens
  import opened Lexing
  import W = Wrappers

  // ------------------------------------------------------------------------------------
  // tokenize

  /** `ts` is what successive `next_token` calls from `p` return before the first `Eof`,
      with no error on the way. */
  ghost predicate Chain(s: string, p: nat, ts: seq<Token>)
    requires p <= |s|
    decreases |ts|
  {
    match NextTokenAt(s, p)
    case Err(_) => false
    case Ok(l) =>
      if ts == [] then l.token.kind == Eof
      else l.token == ts[0] && ts[0].kind != Eof && Chain(s, l.pos, ts[1..])
  }

  /** `tokenize` returns exactly the tokens `next_token` yields before the first `Eof`. */
  lemma {:induction false} TokenizeIsChain(s: string, p: nat, ts: seq<Token>)
    requires p <= |s|
    ensures TokenizeFrom(s, p) == W.Ok(ts) <==> Chain(s, p, ts)
    decreases |s| - p
  {
    TokenizeStep(s, p);
    var next := NextTokenAt(s, p);
    if next.Ok? && next.value.token.kind != Eof {
      PrependOk(next.value.token, TokenizeFrom(s, next.value.pos), ts);
      if ts != [] {
        TokenizeIsChain(s, next.value.pos, ts[1..]);
      }
    }
  }

  /** One token in front of a result is `ts` exactly when it heads `ts` and the result
      is the rest. */
  lemma PrependOk(t: Token, r: W.Result<seq<Token>>, ts: seq<Token>)
    ensures Prepend(t, r) == W.Ok(ts) <==> ts != [] && ts[0] == t && r == W.Ok(ts[1..])
  {
    if r.Ok? && ts != [] && ts[0] == t && r.value == ts[1..] {
      assert [t] + ts[1..] == ts;
    }
  }

  /** A lexing error is the report of an unexpected character or unterminated string,
      with a span inside the source. */
  lemma {:induction false} TokenizeError(s: string, p: nat)
    requires p <= |s| && TokenizeFrom(s, p).Err?
    ensures var f := TokenizeFrom(s, p).error;
      f.Report? && f.message == "Unexpected token" && p <= f.start < f.end <= |s|
    decreases |s| - p
  {
    TokenizeStep(s, p);
    match NextTokenAt(s, p)
    case Err(_) =>
    case Ok(l) =>
      TokenizeError(s, l.pos);
  }

  /** Some token of `ts` spans offset `k`. */
  ghost predicate Covered(ts: seq<Token>, k: nat) {
    exists i :: 0 <= i < |ts| && ts[i].start <= k < ts[i].end
  }

  /** The first link of a chain: a token after trivia from `p`, and a chain from its end. */
  lemma ChainHead(s: string, p: nat, ts: seq<Token>)
    requires p <= |s| && Chain(s, p, ts) && |ts| > 0
    ensures var t := ts[0];
      t.kind != Eof && p <= t.start < t.end <= |s| && (forall k :: p <= k < t.start ==> IsTrivia(s[k]))
      && Chain(s, t.end, ts[1..])
  {
  }

  /** The end of a chain: only trivia is left. */
  lemma ChainEnd(s: string, p: nat)
    requires p <= |s| && Chain(s, p, [])
    ensures forall k :: p <= k < |s| ==> IsTrivia(s[k])
  {
    var t := NextTokenAt(s, p).value.token;
    assert t.start == |s|;
  }

  /** No returned token is `Eof`, every token is a non-empty span of the source, and
      tokens appear in source order without overlapping. */
  lemma {:induction false} ChainOrdered(s: string, p: nat, ts: seq<Token>)
    requires p <= |s| && Chain(s, p, ts)
    ensures forall i :: 0 <= i < |ts| ==> ts[i].kind != Eof
    ensures forall i :: 0 <= i < |ts| ==> p <= ts[i].start < ts[i].end <= |s|
    ensures forall i, j :: 0 <= i < j < |ts| ==> ts[i].end <= ts[j].start
    decreases |ts|
  {
    if ts != [] {
      ChainHead(s, p, ts);
      ChainOrdered(s, ts[0].end, ts[1..]);
      OrderedCons(s, p, ts);
    }
  }

  /** A first token inside `[p, |s|)` before tokens in order from its end: all in order. */
  lemma OrderedCons(s: string, p: nat, ts: seq<Token>)
    requires |ts| > 0 && ts[0].kind != Eof && p <= ts[0].start < ts[0].end <= |s|
    requires var rest := ts[1..];
      (forall i :: 0 <= i < |rest| ==> rest[i].kind != Eof)
      && (forall i :: 0 <= i < |rest| ==> ts[0].end <= rest[i].start < rest[i].end <= |s|)
      && (forall i, j :: 0 <= i < j < |rest| ==> rest[i].end <= rest[j].start)
    ensures forall i :: 0 <= i < |ts| ==> ts[i].kind != Eof
    ensures forall i :: 0 <= i < |ts| ==> p <= ts[i].start < ts[i].end <= |s|
    ensures forall i, j :: 0 <= i < j < |ts| ==> ts[i].end <= ts[j].start
  {
    var rest := ts[1..];
    forall i | 0 < i < |ts| ensures ts[i] == rest[i - 1] {
    }
  }

  /** Every character that no token spans is trivia: what `skip_trivia` skipped. */
  lemma {:induction false} ChainGaps(s: string, p: nat, ts: seq<Token>)
    requires p <= |s| && Chain(s, p, ts)
    ensures forall k :: p <= k < |s| && !Covered(ts, k) ==> IsTrivia(s[k])
    decreases |ts|
  {
    if ts == [] {
      ChainEnd(s, p);
    } else {
      ChainHead(s, p, ts);
      var rest := ts[1..];
      ChainGaps(s, ts[0].end, rest);
      forall k | Covered(rest, k) ensures Covered(ts, k) {
        CoveredTail(ts, k);
      }
      forall k | p <= k < |s| && !Covered(ts, k) ensures IsTrivia(s[k]) {
        assert k < ts[0].start || (ts[0].end <= k && !Covered(rest, k));
      }
    }
  }

  /** Proof helper: a position covered by a later token is covered by the sequence. */
  lemma CoveredTail(ts: seq<Token>, k: nat)
    requires |ts| > 0 && Covered(ts[1..], k)
    ensures Covered(ts, k)
  {
    var i :| 0 <= i < |ts[1..]| && ts[1..][i].start <= k < ts[1..][i].end;
    assert ts[i + 1] == ts[1..][i];
  }

  /** What `tokenize` returns: no `Eof`, non-empty spans in source order, and only
      trivia outside them. */
  lemma TokenizeSpans(s: string, ts: seq<Token>)
    requires TokenizeFrom(s, 0) == W.Ok(ts)
    ensures forall i :: 0 <= i < |ts| ==> ts[i].kind != Eof && ts[i].start < ts[i].end <= |s|
    ensures forall i, j :: 0 <= i < j < |ts| ==> ts[i].end <= ts[j].start
    ensures forall k :: 0 <= k < |s| && !Covered(ts, k) ==> IsTrivia(s[k])
  {
    TokenizeIsChain(s, 0, ts);
    ChainOrdered(s, 0, ts);
    ChainGaps(s, 0, ts);
  }

  // ------------------------------------------------------------------------------------
  // Operators and dots

  /** The operators scanned by `read_one_more`: the character, the kind with a following
      `=` and the kind without. */
  function OneMoreOperator(c: char): W.Option<(TokenKind, TokenKind)> {
    match c
    case '+' => W.Some((PlusAssign, Plus))
    case '-' => W.Some((MinusAssign, Minus))
    case '*' => W.Some((MultiplyAssign, Multiply))
    case '/' => W.Some((DivideAssign, Divide))
    case '^' => W.Some((PowerAssign, Power))
    case '%' => W.Some((ModuloAssign, Modulo))
    case '<' => W.Some((LessEqual, Less))
    case '>' => W.Some((GreaterEqual, Greater))
    case '!' => W.Some((NotEqual, Not))
    case ':' => W.Some((FormulaAssign, Colon))
    case '=' => W.Some((Equal, Assign))
    case _ => W.None
  }

  /** An operator character takes a following `=` into the wide kind and otherwise
      stands alone as the narrow kind; `+=`, `:=` and a lone `=` are instances. */
  lemma OneMoreRule(s: string, p: nat)
    requires p < |s| && OneMoreOperator(s[p]).Some?
    ensures var (wide, narrow) := OneMoreOperator(s[p]).value;
      KindScan(s, p) == if p + 1 < |s| && s[p + 1] == '=' then Scan(wide, p + 2) else Scan(narrow, p + 1)
  {
  }

  /** `3..4` is scanned as a number, a range and a number. */
  lemma RangeBetweenNumbers()
    ensures var s := "3..4";
      KindScan(s, 0) == Scan(TokenKind.Number, 1) && KindScan(s, 1) == Scan(Range, 3)
      && KindScan(s, 3) == Scan(TokenKind.Number, 4) && KindScan(s, 4).kind == Eof
  {
  }

  /** A `Number` lexeme is a run of digits, or a `.` followed by a non-empty run of
      digits, and the run is as long as it can be. */
  lemma NumberLexeme(s: string, p: nat)
    requires p <= |s| && KindScan(s, p).kind == TokenKind.Number
    ensures var e := KindScan(s, p).end;
      ((forall k :: p <= k < e ==> IsDigit(s[k]))
       || (s[p] == '.' && p + 1 < e && forall k :: p < k < e ==> IsDigit(s[k])))
      && (e == |s| || !IsDigit(s[e]))
  {
  }

  /** The dot rule: `..` is a range, a dot before a digit starts a number, any other dot
      is a plain dot. */
  lemma DotCases(s: string, p: nat)
    requires p < |s| && s[p] == '.'
    ensures var r := KindScan(s, p);
      (p + 1 < |s| && s[p + 1] == '.' ==> r == Scan(Range, p + 2))
      && (p + 1 < |s| && IsDigit(s[p + 1]) ==> r.kind == TokenKind.Number && p + 2 <= r.end)
      && (p + 1 == |s| || (s[p + 1] != '.' && !IsDigit(s[p + 1])) ==> r == Scan(Dot, p + 1))
  {
  }

  // ------------------------------------------------------------------------------------
  // Numbers: the look-ahead of two that looks at the same character

  /** What `read_number` was evidently meant to scan: digits, where a `.`, `e` or `E`
      directly followed by a digit continues the number. */
  function IntendedNumberEnd(s: string, p: nat): (e: nat)
    requires p <= |s|
    ensures p <= e <= |s|
    ensures e == |s| || !IsDigit(s[e])
    decreases |s| - p
  {
    if p < |s| && IsDigit(s[p]) then IntendedNumberEnd(s, p + 1)
    else if p + 1 < |s| && (s[p] == '.' || s[p] == 'e' || s[p] == 'E') && IsDigit(s[p + 1])
    then IntendedNumberEnd(s, p + 2)
    else p
  }

  predicate AllDigits(x: string) {
    forall k :: 0 <= k < |x| ==> IsDigit(x[k])
  }

  lemma {:induction false} DigitRunEnd(s: string, p: nat, e: nat)
    requires p <= e <= |s| && (forall k :: p <= k < e ==> IsDigit(s[k])) && (e == |s| || !IsDigit(s[e]))
    ensures IntendedNumberEnd(s, p) == IntendedNumberEnd(s, e)
    decreases e - p
  {
    if p < e {
      DigitRunEnd(s, p + 1, e);
    }
  }

  /** As written, a decimal `a.b` is scanned as two numbers, `a` and `.b`. */
  lemma DecimalSplitsAsWritten(a: string, b: string)
    requires |a| > 0 && |b| > 0 && AllDigits(a) && AllDigits(b)
    ensures var s := a + "." + b;
      KindScan(s, 0) == Scan(TokenKind.Number, |a|) && KindScan(s, |a|) == Scan(TokenKind.Number, |s|)
  {
    var s := a + "." + b;
    var m := |a|;
    assert forall k :: 0 <= k < m ==> s[k] == a[k];
    assert forall k :: m < k < |s| ==> s[k] == b[k - m - 1];
    assert s[m] == '.';
    DigitsAt(s, 0, m);
    NumberRun(s, m + 1, |s|);
  }

  /** A maximal run of digits at `p` is one number lexeme. */
  lemma DigitsAt(s: string, p: nat, e: nat)
    requires p < e <= |s| && (forall k :: p <= k < e ==> IsDigit(s[k])) && (e == |s| || !IsDigit(s[e]))
    ensures KindScan(s, p) == Scan(TokenKind.Number, e)
  {
    NumberRun(s, p + 1, e);
    assert IsDigit(s[p]);
  }

  lemma {:induction false} NumberRun(s: string, p: nat, e: nat)
    requires p <= e <= |s| && (forall k :: p <= k < e ==> IsDigit(s[k]))
    ensures NumberEnd(s, p) == NumberEnd(s, e)
    decreases e - p
  {
    if p < e {
      NumberRun(s, p + 1, e);
    }
  }

  /** Corrected, a decimal `a.b` is one number. */
  lemma DecimalWholeIntended(a: string, b: string)
    requires |a| > 0 && |b| > 0 && AllDigits(a) && AllDigits(b)
    ensures IntendedNumberEnd(a + "." + b, 0) == |a| + |b| + 1
  {
    var s := a + "." + b;
    assert forall k :: 0 <= k < |a| ==> s[k] == a[k];
    assert forall k :: |a| < k < |s| ==> s[k] == b[k - |a| - 1];
    DigitRunEnd(s, 0, |a|);
    DigitRunEnd(s, |a| + 1, |s|);
  }

  /** The concrete case: `3.14` is scanned as two numbers, `3` and `.14`; corrected, it
      is one. */
  lemma ThreePointOneFour()
    ensures var s := "3.14";
      KindScan(s, 0) == Scan(TokenKind.Number, 1) && KindScan(s, 1) == Scan(TokenKind.Number, 4)
      && IntendedNumberEnd(s, 0) == 4
  {
    DecimalSplitsAsWritten("3", "14");
    DecimalWholeIntended("3", "14");
    assert "3" + "." + "14" == "3.14";
  }

  // ------------------------------------------------------------------------------------
  // Keywords and identifier values

  /** The keyword table, as a map. */
  const Keywords: map<string, TokenKind> := map[
    "if" := If, "else" := Else, "while" := While, "loop" := Loop, "for" := For,
    "let" := Let, "fn" := Function, "return" := Return, "break" := Break,
    "continue" := Continue, "in" := In, "true" := True, "false" := False]

  /** `match_keyword` is the table lookup; the length guard never hides a keyword, and
      identifiers of length 1 or over 10 are never keywords. */
  lemma KeywordTable(ident: string)
    ensures MatchKeyword(ident) == if ident in Keywords then Keywords[ident] else Identifier
    ensures |ident| == 1 || |ident| > 10 ==> MatchKeyword(ident) == Identifier
  {
    if ident in Keywords {
      KeywordLengths(ident);
    }
    KeywordKeys(ident);
  }

  lemma KeywordKeys(ident: string)
    ensures ident in Keywords <==>
      ident == "if" || ident == "else" || ident == "while" || ident == "loop" || ident == "for"
      || ident == "let" || ident == "fn" || ident == "return" || ident == "break"
      || ident == "continue" || ident == "in" || ident == "true" || ident == "false"
  {
  }

  lemma KeywordLengths(ident: string)
    requires ident in Keywords
    ensures 2 <= |ident| <= 8
  {
  }

  /** An identifier lexeme: its kind is the table lookup of its text; `if`, `while` and
      `for` carry no value and every other one carries its text, so that every such token
      displays as its own source text. */
  lemma IdentifierToken(s: string, start: nat, sc: Scan)
    requires Scanned(s, start, sc) && sc.kind == Identifier
    ensures var t := Decode(s, start, sc); var text := s[t.start..t.end];
      t.kind == MatchKeyword(text)
      && (t.value == TokenValue.None <==> t.kind == If || t.kind == While || t.kind == For)
      && (t.value != TokenValue.None ==> t.value == TokenValue.Str(text))
      && TokenText(t) == text
  {
    var x := s[start..sc.end];
    DecodeIdentifier(s, start, sc);
    IdentifierText(Decode(s, start, sc), x);
  }

  lemma DecodeIdentifier(s: string, start: nat, sc: Scan)
    requires Scanned(s, start, sc) && sc.kind == Identifier
    ensures var x := s[start..sc.end]; var k := MatchKeyword(x);
      Decode(s, start, sc) == Token(k, start, sc.end, if k == If || k == While || k == For then TokenValue.None else TokenValue.Str(x))
  {
    IdentifierUntrimmed(s, start, sc);
  }

  /** An identifier lexeme starts and ends with identifier characters, so trimming keeps it. */
  lemma IdentifierUntrimmed(s: string, start: nat, sc: Scan)
    requires Scanned(s, start, sc) && sc.kind == Identifier
    ensures Trim(s[start..sc.end]) == s[start..sc.end]
  {
    var x := s[start..sc.end];
    assert IsIdentChar(s[sc.end - 1]) by {
      if sc.end - 1 > start {
        assert start + 1 <= sc.end - 1 < IdentEnd(s, start + 1);
      }
    }
    assert x[0] == s[start] && x[|x| - 1] == s[sc.end - 1];
    TrimKeepsSolidEnds(x);
  }

  lemma IdentifierText(t: Token, x: string)
    requires t.kind == MatchKeyword(x)
    requires t.value == if t.kind == If || t.kind == While || t.kind == For then TokenValue.None else TokenValue.Str(x)
    ensures TokenText(t) == x
  {
    BareKeywordTexts(x);
  }

  /** The keywords that carry no value display as their own spelling. */
  lemma BareKeywordTexts(x: string)
    ensures var k := MatchKeyword(x); k == If || k == While || k == For ==> KindText(k) == x
  {
  }

  // ------------------------------------------------------------------------------------
  // Strings

  /** `body` is a string body for quote `q`: no unskipped `q`, and every backslash skips
      the character after it. */
  predicate Escaped(body: string, q: char)
    decreases |body|
  {
    if body == [] then true
    else if body[0] == '\\' then |body| >= 2 && Escaped(body[2..], q)
    else body[0] != q && Escaped(body[1..], q)
  }

  /** A string scanned from `p` (after the opening quote `q`) is closed by the quote at
      `c` exactly when what lies between is a string body. */
  lemma {:induction false} StringScanIff(s: string, p: nat, q: char, c: nat)
    requires p <= |s| && IsQuote(q)
    ensures StringScan(s, p, q) == Scan(TokenKind.Str, c + 1)
      <==> p <= c < |s| && s[c] == q && Escaped(s[p..c], q)
    decreases |s| - p
  {
    if p == |s| || c < p || c >= |s| {
    } else if s[p] == q {
      if c > p {
        assert s[p..c][0] == q;
      }
    } else if s[p] == '\\' {
      if p + 1 < |s| {
        assert StringScan(s, p, q) == StringScan(s, p + 2, q);
        if c >= p + 2 {
          StringScanIff(s, p + 2, q, c);
          assert s[p..c][2..] == s[p + 2..c];
        }
      }
    } else {
      if c > p {
        StringScanIff(s, p + 1, q, c);
        assert s[p..c][1..] == s[p + 1..c];
      }
    }
  }

  /** Reaching the end of input before a closing quote gives `Unexpected`, with the whole
      rest of the source consumed. */
  lemma UnterminatedString(s: string, p: nat, q: char)
    requires p <= |s| && IsQuote(q)
    requires forall c :: p <= c < |s| && s[c] == q ==> !Escaped(s[p..c], q)
    ensures StringScan(s, p, q) == Scan(Unexpected, |s|)
  {
    var r := StringScan(s, p, q);
    if r.kind == TokenKind.Str {
      StringScanIff(s, p, q, r.end - 1);
    }
  }

  /** A string token's value is the text strictly between its quotes (every scan
      `KindScan` returns is `Scanned`; `QuotedTextKept` shows that trimming leaves the
      quoted lexeme as it is). */
  lemma StringTokenValue(s: string, start: nat, sc: Scan)
    requires Scanned(s, start, sc) && sc.kind == TokenKind.Str
    ensures var t := Decode(s, start, sc);
      t.kind == TokenKind.Str && t.start + 2 <= t.end && IsQuote(s[t.start]) && s[t.end - 1] == s[t.start]
      && t.value == TokenValue.Str(s[t.start + 1..t.end - 1])
  {
  }

  // ------------------------------------------------------------------------------------
  // Comments

  /** A comment runs from `#` through the first newline, inclusive, or to the end of the
      input. */
  lemma CommentSpan(s: string, start: nat)
    requires start <= |s| && KindScan(s, start).kind == Comment
    ensures var e := KindScan(s, start).end;
      s[start] == '#'
      && (e == |s| || (start + 1 < e && s[e - 1] == '\n'))
      && (forall k :: start < k < e - 1 ==> s[k] != '\n')
  {
  }

  /** A comment's value is the text after `#` with trailing white space removed. */
  lemma CommentValue(s: string, start: nat)
    requires start <= |s| && KindScan(s, start).kind == Comment
    ensures var sc := KindScan(s, start);
      Decode(s, start, sc) == Token(Comment, start, sc.end, TokenValue.Str(TrimEnd(s[start + 1..sc.end])))
  {
    var sc := KindScan(s, start);
    var x := s[start..sc.end];
    var body := s[start + 1..sc.end];
    assert Trim(x)[1..] == TrimEnd(body) by {
      TrimKeepsSolidHead(x);
      assert x[1..] == body;
      assert ([x[0]] + TrimEnd(body))[1..] == TrimEnd(body);
    }
  }

  // ------------------------------------------------------------------------------------
  // Numbers and punctuation

  /** A number token carries its own text. */
  lemma NumberValue(s: string, start: nat)
    requires start <= |s| && KindScan(s, start).kind == TokenKind.Number
    ensures var sc := KindScan(s, start);
      Decode(s, start, sc) == Token(TokenKind.Number, start, sc.end, TokenValue.Number(s[start..sc.end]))
  {
    var sc := KindScan(s, start);
    var x := s[start..sc.end];
    NumberLexeme(s, start);
    assert forall k :: 0 <= k < |x| ==> x[k] == '.' || IsDigit(x[k]);
    TrimKeepsSolidEnds(x);
  }

  /** Operators and delimiters carry no value. */
  lemma PlainValue(s: string, start: nat)
    requires start <= |s|
    requires var k := KindScan(s, start).kind;
      k != TokenKind.Number && k != Identifier && k != TokenKind.Str && k != Comment
    ensures var sc := KindScan(s, start);
      Decode(s, start, sc) == Token(sc.kind, start, sc.end, TokenValue.None)
  {
  }
}
