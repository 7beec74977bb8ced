/** Properties of `ternary`, the statement parsers that check a closing delimiter
    (`block_stmt`, `while_stmt`, `if_stmt`, `for_stmt`, the body of `fn_decl`) and the
    non-empty parameter list of `parse_params` (parser/src/parser/mod.rs), stated over the
    parsing functions of `ParserSpec`. Each delimiter check fails fast: the first missing
    closer is reported from the opening delimiter, or from the start of the expression it
    closes, to the end of the token found instead. */
module StatementProps {
  import opened Tokens
  import W = Wrappers
  import A = Ast
  import opened ParserSpec
  import PP = ParserProps

  /** Proof helper: the kind texts of the delimiters checked here, proved away from any
      parsing context. */
  lemma DelimiterTexts()
    ensures KindText(Colon) == ":" && KindText(Semicolon) == ";"
    ensures KindText(LParen) == "(" && KindText(RParen) == ")" && KindText(RBrace) == "}"
  {
  }

  // ------------------------------------------------------------------------------------
  // ternary

  /** With no `?` after the first range, `ternary` is that range. */
  lemma TernaryPlain(s: Stream, p: nat, test: A.Expression, q: nat)
    requires p <= |s.toks| && LeftTier(RangeTier, s, p) == W.Ok((test, q))
    requires Cur(s, q).kind != Question
    ensures Ternary(s, p) == W.Ok((test, q))
  {
  }

  /** `test ? consequent : alternate` is one conditional node from the test's start, and
      the alternate is a whole expression; the loop does not run again, because an
      expression never stops on a `?`. */
  lemma TernaryConditional(s: Stream, p: nat, test: A.Expression, q: nat,
                           consequent: A.Expression, q1: nat, alternate: A.Expression, q2: nat)
    requires p <= |s.toks| && LeftTier(RangeTier, s, p) == W.Ok((test, q))
    requires Cur(s, q).kind == Question
    requires LeftTier(RangeTier, s, Advance(s, q)) == W.Ok((consequent, q1))
    requires Cur(s, q1).kind == Colon && Expr(s, q1 + 1) == W.Ok((alternate, q2))
    ensures Ternary(s, p)
         == W.Ok((A.ConditionalExpression(Cur(s, p).start, Cur(s, q2).end, test, consequent, alternate), q2))
  {
    var node := ConditionalNode(s, q2, Cur(s, p).start, test, consequent, alternate);
    assert TernaryLoop(s, q2, Cur(s, p).start, node) == W.Ok((node, q2));
  }

  /** A `?` without its `:` is reported at the token found instead. */
  lemma TernaryMissingColon(s: Stream, p: nat, test: A.Expression, q: nat,
                            consequent: A.Expression, q1: nat)
    requires p <= |s.toks| && LeftTier(RangeTier, s, p) == W.Ok((test, q))
    requires Cur(s, q).kind == Question
    requires LeftTier(RangeTier, s, Advance(s, q)) == W.Ok((consequent, q1))
    requires Cur(s, q1).kind != Colon
    ensures Ternary(s, p)
         == W.Err(W.Report(ExpectedMessage(":", GotText(Cur(s, q1))), Cur(s, q1).start, Cur(s, q1).end))
  {
    DelimiterTexts();
  }

  /** Every successful `ternary` is the first range alone, when no `?` follows it, or one
      conditional node over that range, the range after the `?` and the expression after
      the `:`. */
  lemma TernaryCases(s: Stream, p: nat)
    requires p <= |s.toks| && Ternary(s, p).Ok?
    ensures LeftTier(RangeTier, s, p).Ok?
    ensures var test := LeftTier(RangeTier, s, p).value;
            var r := Ternary(s, p).value;
            if Cur(s, test.1).kind != Question then r == test
            else
              LeftTier(RangeTier, s, Advance(s, test.1)).Ok?
              && var consequent := LeftTier(RangeTier, s, Advance(s, test.1)).value;
                 Cur(s, consequent.1).kind == Colon
                 && Expr(s, consequent.1 + 1).Ok?
                 && var alternate := Expr(s, consequent.1 + 1).value;
                    r == (A.ConditionalExpression(Cur(s, p).start, Cur(s, alternate.1).end,
                                                  test.0, consequent.0, alternate.0), alternate.1)
  {
    var test := LeftTier(RangeTier, s, p).value;
    if Cur(s, test.1).kind == Question {
      var consequent := LeftTier(RangeTier, s, Advance(s, test.1)).value;
      assert Cur(s, consequent.1).kind == Colon;
      var alternate := Expr(s, consequent.1 + 1).value;
      TernaryConditional(s, p, test.0, test.1, consequent.0, consequent.1, alternate.0, alternate.1);
    }
  }

  // ------------------------------------------------------------------------------------
  // block_stmt and braced bodies

  /** `{ body }`: the statements of `body`, one token past the `}`; a missing `}` is
      reported from the `{` (mod.rs:103-106). */
  lemma BracedBodyCloses(s: Stream, p: nat, b: seq<A.Statement>, q: nat)
    requires p <= |s.toks| && Cur(s, p).kind == LBrace && Body(s, p + 1) == W.Ok((b, q))
    ensures BracedBody(s, p)
         == if Cur(s, q).kind == RBrace then W.Ok((b, q + 1))
            else W.Err(W.Report(ExpectedMessage("}", GotText(Cur(s, q))), Cur(s, p).start, Cur(s, q).end))
  {
    BracedBodyShape(s, p, b, q);
    DelimiterTexts();
    PP.Closing(s, q, RBrace, "}", Cur(s, p).start);
  }

  /** Proof helper: `BracedBody` before its closing check. */
  lemma BracedBodyShape(s: Stream, p: nat, b: seq<A.Statement>, q: nat)
    requires p <= |s.toks| && Cur(s, p).kind == LBrace && Body(s, p + 1) == W.Ok((b, q))
    ensures var closed := EatWithStart(s, q, RBrace, Cur(s, p).start);
            BracedBody(s, p) == if closed.Ok? then W.Ok((b, closed.value.1)) else W.Err(closed.error)
  {
  }

  /** Proof helper: the failing case of `BracedBodyCloses` on its own. */
  lemma BracedBodyUnclosed(s: Stream, p: nat, b: seq<A.Statement>, q: nat)
    requires p <= |s.toks| && Cur(s, p).kind == LBrace && Body(s, p + 1) == W.Ok((b, q))
    requires Cur(s, q).kind != RBrace
    ensures BracedBody(s, p)
         == W.Err(W.Report(ExpectedMessage("}", GotText(Cur(s, q))), Cur(s, p).start, Cur(s, q).end))
  {
    BracedBodyCloses(s, p, b, q);
  }

  /** `block_stmt` on `{` is the braced body. */
  lemma BlockStmtBraced(s: Stream, p: nat, b: seq<A.Statement>, q: nat)
    requires p <= |s.toks| && Cur(s, p).kind == LBrace && Body(s, p + 1) == W.Ok((b, q))
    ensures BlockStmt(s, p)
         == if Cur(s, q).kind == RBrace then W.Ok((b, q + 1))
            else W.Err(W.Report(ExpectedMessage("}", GotText(Cur(s, q))), Cur(s, p).start, Cur(s, q).end))
  {
    BracedBodyCloses(s, p, b, q);
  }

  /** `block_stmt` on any other token is the one statement found there. */
  lemma BlockStmtSingle(s: Stream, p: nat, statement: A.Statement, q: nat)
    requires p <= |s.toks| && Cur(s, p).kind != LBrace && Statement(s, p) == W.Ok((statement, q))
    ensures BlockStmt(s, p) == W.Ok(([statement], q))
  {
  }

  /** `{ }` is the empty block, two tokens on. */
  lemma EmptyBlock(s: Stream, p: nat)
    requires p <= |s.toks| && Cur(s, p).kind == LBrace && Cur(s, p + 1).kind == RBrace
    ensures BlockStmt(s, p) == W.Ok(([], p + 2))
  {
    assert Body(s, p + 1) == W.Ok(([], p + 1));
    BlockStmtBraced(s, p, [], p + 1);
  }

  // ------------------------------------------------------------------------------------
  // Conditions and closed expressions

  /** `( e )` is `e`, one token past the `)`; a missing `)` is reported from the `(`
      (mod.rs:177-180 and 231-234). */
  lemma ConditionCloses(s: Stream, p: nat, e: A.Expression, q: nat)
    requires p <= |s.toks| && Cur(s, p).kind == LParen && Expr(s, p + 1) == W.Ok((e, q))
    ensures Condition(s, p)
         == if Cur(s, q).kind == RParen then W.Ok((e, q + 1))
            else W.Err(W.Report(ExpectedMessage(")", GotText(Cur(s, q))), Cur(s, p).start, Cur(s, q).end))
  {
    ConditionShape(s, p, e, q);
    DelimiterTexts();
    PP.Closing(s, q, RParen, ")", Cur(s, p).start);
  }

  /** Proof helper: `Condition` before its closing check. */
  lemma ConditionShape(s: Stream, p: nat, e: A.Expression, q: nat)
    requires p <= |s.toks| && Cur(s, p).kind == LParen && Expr(s, p + 1) == W.Ok((e, q))
    ensures var closed := EatWithStart(s, q, RParen, Cur(s, p).start);
            Condition(s, p) == if closed.Ok? then W.Ok((e, closed.value.1)) else W.Err(closed.error)
  {
  }

  /** Without its `(`, a condition is reported at the token found instead. */
  lemma ConditionOpens(s: Stream, p: nat)
    requires p <= |s.toks| && Cur(s, p).kind != LParen
    ensures Condition(s, p)
         == W.Err(W.Report(ExpectedMessage("(", GotText(Cur(s, p))), Cur(s, p).start, Cur(s, p).end))
  {
    DelimiterTexts();
  }

  /** An expression closed by `kind`: the expression, one token past the closer; a missing
      closer is reported from where the expression started (mod.rs:199-209). */
  lemma ClosedExprCloses(s: Stream, p: nat, kind: TokenKind, text: string, e: A.Expression, q: nat)
    requires p <= |s.toks| && KindText(kind) == text && kind != Eof && Expr(s, p) == W.Ok((e, q))
    ensures ClosedExpr(s, p, kind)
         == if Cur(s, q).kind == kind then W.Ok((e, q + 1))
            else W.Err(W.Report(ExpectedMessage(text, GotText(Cur(s, q))), Cur(s, p).start, Cur(s, q).end))
  {
    PP.Closing(s, q, kind, text, Cur(s, p).start);
  }

  // ------------------------------------------------------------------------------------
  // while, if, for

  /** `while ( test ) body` is one while node from the keyword's start. */
  lemma WhileShape(s: Stream, p: nat, test: A.Expression, q1: nat, body: seq<A.Statement>, q2: nat)
    requires p <= |s.toks| && Cur(s, p).kind == While
    requires Condition(s, p + 1) == W.Ok((test, q1)) && BlockStmt(s, q1) == W.Ok((body, q2))
    ensures WhileStmt(s, p) == W.Ok((A.WhileStatement(Cur(s, p).start, Cur(s, q2).end, test, body), q2))
  {
    WhileAfterKeyword(s, p);
  }

  /** Proof helper: `while` once its keyword is matched. */
  lemma WhileAfterKeyword(s: Stream, p: nat)
    requires p <= |s.toks| && Cur(s, p).kind == While
    ensures WhileStmt(s, p)
         == (var test :- Condition(s, p + 1);
             var body :- BlockStmt(s, test.1);
             W.Ok((A.WhileStatement(Cur(s, p).start, Cur(s, body.1).end, test.0, body.0), body.1)))
  {
    assert Eat(s, p, While) == W.Ok((true, p + 1));
  }

  /** A `while` condition without its `)` is reported from the `(`. */
  lemma WhileUnclosed(s: Stream, p: nat, e: A.Expression, q: nat)
    requires p <= |s.toks| && Cur(s, p).kind == While && Cur(s, p + 1).kind == LParen
    requires Expr(s, p + 2) == W.Ok((e, q)) && Cur(s, q).kind != RParen
    ensures WhileStmt(s, p)
         == W.Err(W.Report(ExpectedMessage(")", GotText(Cur(s, q))), Cur(s, p + 1).start, Cur(s, q).end))
  {
    ConditionCloses(s, p + 1, e, q);
    WhileAfterKeyword(s, p);
  }

  /** With no `else` after the consequent, the alternate is empty and the node ends with
      the consequent. */
  lemma IfWithoutElse(s: Stream, p: nat, test: A.Expression, q1: nat,
                      consequent: seq<A.Statement>, q2: nat)
    requires p <= |s.toks| && Cur(s, p).kind == If
    requires Condition(s, p + 1) == W.Ok((test, q1)) && BlockStmt(s, q1) == W.Ok((consequent, q2))
    requires Cur(s, q2).kind != Else
    ensures IfStmt(s, p) == W.Ok((A.IfStatement(Cur(s, p).start, Cur(s, q2).end, test, consequent, []), q2))
  {
    IfAfterKeyword(s, p);
  }

  /** With an `else`, the alternate is the block or statement after it. */
  lemma IfWithElse(s: Stream, p: nat, test: A.Expression, q1: nat, consequent: seq<A.Statement>,
                   q2: nat, alternate: seq<A.Statement>, q3: nat)
    requires p <= |s.toks| && Cur(s, p).kind == If
    requires Condition(s, p + 1) == W.Ok((test, q1)) && BlockStmt(s, q1) == W.Ok((consequent, q2))
    requires Cur(s, q2).kind == Else && BlockStmt(s, q2 + 1) == W.Ok((alternate, q3))
    ensures IfStmt(s, p)
         == W.Ok((A.IfStatement(Cur(s, p).start, Cur(s, q3).end, test, consequent, alternate), q3))
  {
    IfAfterKeyword(s, p);
  }

  /** Proof helper: `if` once its keyword is matched. */
  lemma IfAfterKeyword(s: Stream, p: nat)
    requires p <= |s.toks| && Cur(s, p).kind == If
    ensures IfStmt(s, p)
         == (var test :- Condition(s, p + 1);
             var consequent :- BlockStmt(s, test.1);
             if Cur(s, consequent.1).kind == Else then
               var alternate :- BlockStmt(s, Advance(s, consequent.1));
               W.Ok((A.IfStatement(Cur(s, p).start, Cur(s, alternate.1).end, test.0, consequent.0, alternate.0),
                     alternate.1))
             else
               W.Ok((A.IfStatement(Cur(s, p).start, Cur(s, consequent.1).end, test.0, consequent.0, []),
                     consequent.1)))
  {
    assert Eat(s, p, If) == W.Ok((true, p + 1));
  }

  /** An `if` condition without its `)` is reported from the `(`. */
  lemma IfUnclosed(s: Stream, p: nat, e: A.Expression, q: nat)
    requires p <= |s.toks| && Cur(s, p).kind == If && Cur(s, p + 1).kind == LParen
    requires Expr(s, p + 2) == W.Ok((e, q)) && Cur(s, q).kind != RParen
    ensures IfStmt(s, p)
         == W.Err(W.Report(ExpectedMessage(")", GotText(Cur(s, q))), Cur(s, p + 1).start, Cur(s, q).end))
  {
    ConditionCloses(s, p + 1, e, q);
    IfAfterKeyword(s, p);
  }

  /** `for ( setup test ; update ) body` is one for node from the keyword's start. */
  lemma ForShape(s: Stream, p: nat, setup: A.Statement, q1: nat, test: A.Expression, q2: nat,
                 update: A.Expression, q3: nat, body: seq<A.Statement>, q4: nat)
    requires p <= |s.toks| && Cur(s, p).kind == For && Cur(s, p + 1).kind == LParen
    requires VarDecl(s, p + 2, true) == W.Ok((setup, q1))
    requires ClosedExpr(s, q1, Semicolon) == W.Ok((test, q2))
    requires ClosedExpr(s, q2, RParen) == W.Ok((update, q3))
    requires BlockStmt(s, q3) == W.Ok((body, q4))
    ensures ForStmt(s, p)
         == W.Ok((A.ForStatement(Cur(s, p).start, Cur(s, q4).end, setup, test, update, body), q4))
  {
    ForAfterSetup(s, p, setup, q1);
  }

  /** A `for` test without its `;` is reported from the test's start. */
  lemma ForTestUnclosed(s: Stream, p: nat, setup: A.Statement, q1: nat, e: A.Expression, q2: nat)
    requires p <= |s.toks| && Cur(s, p).kind == For && Cur(s, p + 1).kind == LParen
    requires VarDecl(s, p + 2, true) == W.Ok((setup, q1))
    requires Expr(s, q1) == W.Ok((e, q2)) && Cur(s, q2).kind != Semicolon
    ensures ForStmt(s, p)
         == W.Err(W.Report(ExpectedMessage(";", GotText(Cur(s, q2))), Cur(s, q1).start, Cur(s, q2).end))
  {
    DelimiterTexts();
    ClosedExprCloses(s, q1, Semicolon, ";", e, q2);
    ForFailsAtTest(s, p, setup, q1);
  }

  /** Proof helper: a failing test is the failure of the whole `for`. */
  lemma ForFailsAtTest(s: Stream, p: nat, setup: A.Statement, q1: nat)
    requires p <= |s.toks| && Cur(s, p).kind == For && Cur(s, p + 1).kind == LParen
    requires VarDecl(s, p + 2, true) == W.Ok((setup, q1)) && ClosedExpr(s, q1, Semicolon).Err?
    ensures ForStmt(s, p) == W.Err(ClosedExpr(s, q1, Semicolon).error)
  {
    ForAfterSetup(s, p, setup, q1);
  }

  /** A `for` update without its `)` is reported from the update's start. */
  lemma ForUpdateUnclosed(s: Stream, p: nat, setup: A.Statement, q1: nat, test: A.Expression,
                          q2: nat, e: A.Expression, q3: nat)
    requires p <= |s.toks| && Cur(s, p).kind == For && Cur(s, p + 1).kind == LParen
    requires VarDecl(s, p + 2, true) == W.Ok((setup, q1))
    requires ClosedExpr(s, q1, Semicolon) == W.Ok((test, q2))
    requires Expr(s, q2) == W.Ok((e, q3)) && Cur(s, q3).kind != RParen
    ensures ForStmt(s, p)
         == W.Err(W.Report(ExpectedMessage(")", GotText(Cur(s, q3))), Cur(s, q2).start, Cur(s, q3).end))
  {
    DelimiterTexts();
    ClosedExprCloses(s, q2, RParen, ")", e, q3);
    ForFailsAtUpdate(s, p, setup, q1, test, q2);
  }

  /** Proof helper: a failing update is the failure of the whole `for`. */
  lemma ForFailsAtUpdate(s: Stream, p: nat, setup: A.Statement, q1: nat, test: A.Expression, q2: nat)
    requires p <= |s.toks| && Cur(s, p).kind == For && Cur(s, p + 1).kind == LParen
    requires VarDecl(s, p + 2, true) == W.Ok((setup, q1))
    requires ClosedExpr(s, q1, Semicolon) == W.Ok((test, q2)) && ClosedExpr(s, q2, RParen).Err?
    ensures ForStmt(s, p) == W.Err(ClosedExpr(s, q2, RParen).error)
  {
    ForAfterSetup(s, p, setup, q1);
  }

  /** Proof helper: `for` once its setup is parsed. */
  lemma ForAfterSetup(s: Stream, p: nat, setup: A.Statement, q1: nat)
    requires p <= |s.toks| && Cur(s, p).kind == For && Cur(s, p + 1).kind == LParen
    requires VarDecl(s, p + 2, true) == W.Ok((setup, q1))
    ensures ForStmt(s, p)
         == (var test :- ClosedExpr(s, q1, Semicolon);
             var update :- ClosedExpr(s, test.1, RParen);
             var body :- BlockStmt(s, update.1);
             W.Ok((A.ForStatement(Cur(s, p).start, Cur(s, body.1).end, setup, test.0, update.0, body.0), body.1)))
  {
    ForAfterParen(s, p);
  }

  /** Proof helper: `for` once its keyword and `(` are matched. */
  lemma ForAfterParen(s: Stream, p: nat)
    requires p <= |s.toks| && Cur(s, p).kind == For && Cur(s, p + 1).kind == LParen
    ensures ForStmt(s, p)
         == (var setup :- VarDecl(s, p + 2, true);
             var test :- ClosedExpr(s, setup.1, Semicolon);
             var update :- ClosedExpr(s, test.1, RParen);
             var body :- BlockStmt(s, update.1);
             W.Ok((A.ForStatement(Cur(s, p).start, Cur(s, body.1).end, setup.0, test.0, update.0, body.0), body.1)))
  {
    assert Eat(s, p, For) == W.Ok((true, p + 1));
    assert Eat(s, p + 1, LParen) == W.Ok((true, p + 2));
  }

  /** The body of `fn f[params]` without its `}` is reported from the `{` (mod.rs:317-320). */
  lemma FnBodyUnclosed(s: Stream, p: nat, params: seq<Token>, q1: nat, b: seq<A.Statement>, q2: nat)
    requires p <= |s.toks| && Cur(s, p).kind == Function && Cur(s, p + 1).kind == Identifier
    requires ParamList(s, p + 2) == W.Ok((params, q1))
    requires Cur(s, q1).kind == LBrace && Body(s, q1 + 1) == W.Ok((b, q2)) && Cur(s, q2).kind != RBrace
    ensures FnDecl(s, p)
         == W.Err(W.Report(ExpectedMessage("}", GotText(Cur(s, q2))), Cur(s, q1).start, Cur(s, q2).end))
  {
    BracedBodyUnclosed(s, q1, b, q2);
    FnFailsAtBody(s, p, params, q1);
  }

  /** Proof helper: a failing body is the failure of the whole declaration. */
  lemma FnFailsAtBody(s: Stream, p: nat, params: seq<Token>, q1: nat)
    requires p <= |s.toks| && Cur(s, p).kind == Function && Cur(s, p + 1).kind == Identifier
    requires ParamList(s, p + 2) == W.Ok((params, q1)) && BracedBody(s, q1).Err?
    ensures FnDecl(s, p) == W.Err(BracedBody(s, q1).error)
  {
    FnAfterName(s, p);
  }

  /** Proof helper: `fn name` once the name is matched. */
  lemma FnAfterName(s: Stream, p: nat)
    requires p <= |s.toks| && Cur(s, p).kind == Function && Cur(s, p + 1).kind == Identifier
    ensures FnDecl(s, p)
         == (var params :- ParamList(s, p + 2);
             var body :- BracedBody(s, params.1);
             W.Ok((A.FunctionDeclaration(Cur(s, p).start, Cur(s, body.1).end, Cur(s, p + 1),
                                         params.0, body.0, false), body.1)))
  {
    assert Cur(s, p).kind != Async && Advance(s, p) == p + 1;
    assert Eat(s, p + 1, Identifier) == W.Ok((true, p + 2));
  }

  // ------------------------------------------------------------------------------------
  // parse_params on a non-empty list

  /** `names` is what the `, identifier` loop reads from `p`, stopping at `q`, on a token
      that is not a comma. */
  ghost predicate ParamsRun(s: Stream, p: nat, names: seq<Token>, q: nat)
    requires p <= |s.toks|
    decreases |names|
  {
    if names == [] then
      q == p && Cur(s, p).kind != TokenKind.Comma
    else
      Cur(s, p).kind == TokenKind.Comma && Cur(s, p + 1) == names[0] && names[0].kind == Identifier
      && ParamsRun(s, p + 2, names[1..], q)
  }

  /** Proof helper: one `, identifier` round of the loop. */
  lemma ParamsStep(s: Stream, p: nat, params: seq<Token>)
    requires p <= |s.toks| && Cur(s, p).kind == TokenKind.Comma && Cur(s, p + 1).kind == Identifier
    ensures ParamsLoop(s, p, params) == ParamsLoop(s, p + 2, params + [Cur(s, p + 1)])
  {
    assert Eat(s, p + 1, Identifier) == W.Ok((true, p + 2));
  }

  /** The loop appends exactly the identifiers of the run, in order. */
  lemma {:induction false} ParamsLoopOfRun(s: Stream, p: nat, params: seq<Token>, names: seq<Token>, q: nat)
    requires p <= |s.toks| && ParamsRun(s, p, names, q)
    ensures ParamsLoop(s, p, params) == W.Ok((params + names, q))
    decreases |names|
  {
    if names != [] {
      ParamsStep(s, p, params);
      ParamsLoopOfRun(s, p + 2, params + [names[0]], names[1..], q);
      assert params + [names[0]] + names[1..] == params + names;
    } else {
      assert params + names == params;
    }
  }

  /** And every successful loop is such a run. */
  lemma {:induction false} RunOfParamsLoop(s: Stream, p: nat, params: seq<Token>) returns (names: seq<Token>)
    requires p <= |s.toks| && ParamsLoop(s, p, params).Ok?
    ensures ParamsRun(s, p, names, ParamsLoop(s, p, params).value.1)
    ensures ParamsLoop(s, p, params).value.0 == params + names
    decreases |s.toks| - p
  {
    if Cur(s, p).kind == TokenKind.Comma {
      var param := Cur(s, p + 1);
      ParamsStep(s, p, params);
      var rest := RunOfParamsLoop(s, p + 2, params + [param]);
      names := [param] + rest;
      assert names[1..] == rest;
    } else {
      names := [];
    }
  }

  /** A non-empty list is its first identifier and the identifiers after each comma, in
      order, and stops on the first token after them that is not a comma. */
  lemma ParseParamsNonEmpty(s: Stream, p: nat, names: seq<Token>, q: nat)
    requires p <= |s.toks| && Cur(s, p).kind == Identifier && ParamsRun(s, p + 1, names, q)
    ensures ParseParams(s, p) == W.Ok(([Cur(s, p)] + names, q))
  {
    ParamsLoopOfRun(s, p + 1, [Cur(s, p)], names, q);
  }

  /** A comma not followed by an identifier is reported at the token found instead. */
  lemma ParamsMissingName(s: Stream, p: nat, params: seq<Token>)
    requires p <= |s.toks| && Cur(s, p).kind == TokenKind.Comma && Cur(s, p + 1).kind != Identifier
    ensures ParamsLoop(s, p, params)
         == W.Err(W.Report(ExpectedMessage(KindText(Identifier), GotText(Cur(s, p + 1))),
                           Cur(s, p + 1).start, Cur(s, p + 1).end))
  {
  }
}
