/** Properties of the recursive-descent parser (parser/src/parser/mod.rs), stated over the
    parsing functions of `ParserSpec`; the class `Parsing.Parser` is proved to agree with
    them. Loops are characterised by "runs": the sequence of sub-parses a loop performs
    from a cursor until it stops, with the cursor after each. */
module ParserProps {
  import opened Tokens
  import W = Wrappers
  import A = Ast
  import opened ParserSpec
  import P = Precedence

  /** The values of a run, in order. */
  function Firsts<T>(xs: seq<(T, nat)>): seq<T>
    decreases |xs|
  {
    if xs == [] then [] else [xs[0].0] + Firsts(xs[1..])
  }

  lemma FirstsStep<T>(xs: seq<(T, nat)>, before: seq<T>)
    requires xs != []
    ensures before + Firsts(xs) == (before + [xs[0].0]) + Firsts(xs[1..])
  {
  }

  // ------------------------------------------------------------------------------------
  // body

  const Terminators: set<TokenKind> := {Eof, RBrace}

  /** The statements `body` reads from `p`, stopping at `q`. */
  ghost predicate StatementRun(s: Stream, p: nat, run: seq<(A.Statement, nat)>, q: nat)
    requires p <= |s.toks|
    decreases |run|
  {
    if run == [] then q == p && Cur(s, p).kind in Terminators
    else
      Cur(s, p).kind !in Terminators && Statement(s, p) == W.Ok(run[0])
      && StatementRun(s, run[0].1, run[1..], q)
  }

  /** Reading the statements of a run gives them in order, with the cursor on the
      terminator: `body` never consumes its `Eof` or `}`. */
  lemma {:induction false} BodyOfRun(s: Stream, p: nat, before: seq<A.Statement>,
                                     run: seq<(A.Statement, nat)>, q: nat)
    requires p <= |s.toks| && StatementRun(s, p, run, q)
    ensures BodyLoop(s, p, before) == W.Ok((before + Firsts(run), q))
    ensures Cur(s, q).kind in Terminators
    decreases |run|
  {
    if run != [] {
      FirstsStep(run, before);
      BodyOfRun(s, run[0].1, before + [run[0].0], run[1..], q);
      assert BodyLoop(s, p, before) == BodyLoop(s, run[0].1, before + [run[0].0]);
    } else {
      assert before + Firsts(run) == before;
    }
  }

  /** And every successful `body` is such a run. */
  lemma {:induction false} RunOfBody(s: Stream, p: nat, before: seq<A.Statement>)
    returns (run: seq<(A.Statement, nat)>)
    requires p <= |s.toks| && BodyLoop(s, p, before).Ok?
    ensures StatementRun(s, p, run, BodyLoop(s, p, before).value.1)
    ensures BodyLoop(s, p, before).value.0 == before + Firsts(run)
    decreases |s.toks| - p
  {
    if Cur(s, p).kind in Terminators {
      run := [];
    } else {
      var st := Statement(s, p).value;
      var rest := RunOfBody(s, st.1, before + [st.0]);
      run := [st] + rest;
      assert run[1..] == rest;
      FirstsStep(run, before);
    }
  }

  /** `body` returns the statements it reads up to its terminator, which stays current. */
  lemma BodyStops(s: Stream, p: nat)
    requires p <= |s.toks| && Body(s, p).Ok?
    ensures Cur(s, Body(s, p).value.1).kind in Terminators
  {
    var run := RunOfBody(s, p, []);
    BodyOfRun(s, p, [], run, Body(s, p).value.1);
  }

  // ------------------------------------------------------------------------------------
  // comma

  /** The `, assign` items `comma` reads from `p`, stopping at `q`. */
  ghost predicate CommaRun(s: Stream, p: nat, run: seq<(A.Expression, nat)>, q: nat)
    requires p <= |s.toks|
    decreases |run|
  {
    if run == [] then q == p && Cur(s, p).kind != TokenKind.Comma
    else
      Cur(s, p).kind == TokenKind.Comma && ParserSpec.Assign(s, Advance(s, p)) == W.Ok(run[0])
      && CommaRun(s, run[0].1, run[1..], q)
  }

  lemma {:induction false} CommaLoopOfRun(s: Stream, p: nat, items: seq<A.Expression>,
                                          run: seq<(A.Expression, nat)>, q: nat)
    requires p <= |s.toks| && CommaRun(s, p, run, q)
    ensures CommaLoop(s, p, items) == W.Ok((items + Firsts(run), q))
    decreases |run|
  {
    if run != [] {
      FirstsStep(run, items);
      CommaLoopOfRun(s, run[0].1, items + [run[0].0], run[1..], q);
      assert CommaLoop(s, p, items) == CommaLoop(s, run[0].1, items + [run[0].0]);
    } else {
      assert items + Firsts(run) == items;
    }
  }

  lemma {:induction false} RunOfCommaLoop(s: Stream, p: nat, items: seq<A.Expression>)
    returns (run: seq<(A.Expression, nat)>)
    requires p <= |s.toks| && CommaLoop(s, p, items).Ok?
    ensures CommaRun(s, p, run, CommaLoop(s, p, items).value.1)
    ensures CommaLoop(s, p, items).value.0 == items + Firsts(run)
    decreases |s.toks| - p
  {
    if Cur(s, p).kind == TokenKind.Comma {
      var next := ParserSpec.Assign(s, Advance(s, p)).value;
      var rest := RunOfCommaLoop(s, next.1, items + [next.0]);
      run := [next] + rest;
      assert run[1..] == rest;
      FirstsStep(run, items);
    } else {
      run := [];
    }
  }

  /** What `comma` builds from its items: one item bare unless a sequence is asked for,
      otherwise a sequence node of all of them, in order, from the first item's start. */
  function CommaNode(s: Stream, p: nat, onlySequence: bool, first: A.Expression,
                     run: seq<(A.Expression, nat)>, q: nat): A.Expression
  {
    if !onlySequence && run == [] then first
    else A.SequenceExpression(Cur(s, p).start, Cur(s, q).end, [first] + Firsts(run))
  }

  /** The items read determine `comma`'s result ... */
  lemma CommaOfRun(s: Stream, p: nat, onlySequence: bool, first: A.Expression, q1: nat,
                   run: seq<(A.Expression, nat)>, q: nat)
    requires p <= |s.toks| && ParserSpec.Assign(s, p) == W.Ok((first, q1)) && CommaRun(s, q1, run, q)
    ensures ParserSpec.Comma(s, p, onlySequence) == W.Ok((CommaNode(s, p, onlySequence, first, run, q), q))
  {
    CommaLoopOfRun(s, q1, [first], run, q);
    assert |[first] + Firsts(run)| == 1 <==> run == [] by {
      if run != [] {
        assert |[first] + Firsts(run)| >= 2;
      }
    }
  }

  /** ... and every `comma` result is made that way. */
  lemma RunOfComma(s: Stream, p: nat, onlySequence: bool)
    returns (first: A.Expression, q1: nat, run: seq<(A.Expression, nat)>)
    requires p <= |s.toks| && ParserSpec.Comma(s, p, onlySequence).Ok?
    ensures ParserSpec.Assign(s, p) == W.Ok((first, q1))
    ensures CommaRun(s, q1, run, ParserSpec.Comma(s, p, onlySequence).value.1)
    ensures ParserSpec.Comma(s, p, onlySequence).value.0
         == CommaNode(s, p, onlySequence, first, run, ParserSpec.Comma(s, p, onlySequence).value.1)
  {
    first := ParserSpec.Assign(s, p).value.0;
    q1 := ParserSpec.Assign(s, p).value.1;
    run := RunOfCommaLoop(s, q1, [first]);
    CommaOfRun(s, p, onlySequence, first, q1, run, CommaLoop(s, q1, [first]).value.1);
  }

  /** `comma(true)` always wraps its items in a sequence node. */
  lemma CommaWraps(s: Stream, p: nat)
    requires p <= |s.toks| && ParserSpec.Comma(s, p, true).Ok?
    ensures ParserSpec.Comma(s, p, true).value.0.SequenceExpression?
    ensures ParserSpec.Comma(s, p, true).value.0.start == Cur(s, p).start
    ensures |ParserSpec.Comma(s, p, true).value.0.expressions| >= 1
  {
    var first, q1, run := RunOfComma(s, p, true);
  }

  // ------------------------------------------------------------------------------------
  // term

  /** The juxtaposed operands `term` reads from `p`, stopping at `q`: each one starts with
      the current token, which is not consumed as an operator. */
  ghost predicate JuxtRun(s: Stream, p: nat, run: seq<(A.Expression, nat)>, q: nat)
    requires p <= |s.toks|
    decreases |run|
  {
    if run == [] then q == p && Cur(s, p).kind !in JuxtaposedKinds
    else
      Cur(s, p).kind in JuxtaposedKinds && LeftTier(PowerTier, s, p) == W.Ok(run[0])
      && JuxtRun(s, run[0].1, run[1..], q)
  }

  /** The explicit `* / %` rounds `term` reads from `p`, stopping at `q`. */
  ghost predicate MulRun(s: Stream, p: nat, run: seq<P.Step>, q: nat)
    requires p <= |s.toks|
    decreases |run|
  {
    if run == [] then q == p && Cur(s, p).kind !in MultiplicativeKinds
    else
      Cur(s, p).kind == run[0].kind && run[0].kind in MultiplicativeKinds
      && LeftTier(PowerTier, s, Advance(s, p)) == W.Ok((run[0].operand, run[0].end))
      && MulRun(s, run[0].end, run[1..], q)
  }

  ghost predicate Multiplicative(run: seq<P.Step>) {
    forall i :: 0 <= i < |run| ==> run[i].kind in MultiplicativeKinds
  }

  lemma MulRunKinds(s: Stream, p: nat, run: seq<P.Step>, q: nat)
    requires p <= |s.toks| && MulRun(s, p, run, q)
    ensures Multiplicative(run)
    decreases |run|
  {
    if run != [] {
      MulRunKinds(s, run[0].end, run[1..], q);
    }
  }

  /** Juxtaposed operands multiplied in from the left. */
  function JuxtFold(s: Stream, start: nat, node: A.Expression, run: seq<(A.Expression, nat)>)
    : A.Expression
    decreases |run|
  {
    if run == [] then node
    else JuxtFold(s, start, A.BinaryExpression(start, Cur(s, run[0].1).end, node, A.Operator.Multiply, run[0].0),
                  run[1..])
  }

  /** The operator of a multiplicative kind. */
  function MulOp(kind: TokenKind): A.Operator
    requires kind in MultiplicativeKinds
  {
    KindToOp(kind).value
  }

  /** Explicit `* / %` rounds applied from the left. */
  function MulFold(s: Stream, start: nat, node: A.Expression, run: seq<P.Step>): A.Expression
    requires Multiplicative(run)
    decreases |run|
  {
    if run == [] then node
    else MulFold(s, start, A.BinaryExpression(start, Cur(s, run[0].end).end, node, MulOp(run[0].kind),
                                              run[0].operand),
                 run[1..])
  }

  lemma {:induction false} MulLoopOfRun(s: Stream, p: nat, start: nat, node: A.Expression,
                                        run: seq<P.Step>, q: nat)
    requires p <= |s.toks| && MulRun(s, p, run, q)
    ensures Multiplicative(run)
    ensures MulLoop(s, p, start, node) == W.Ok((MulFold(s, start, node, run), q))
    decreases |run|
  {
    MulRunKinds(s, p, run, q);
    if run != [] {
      var built := A.BinaryExpression(start, Cur(s, run[0].end).end, node, MulOp(run[0].kind), run[0].operand);
      assert BinaryNode(s, run[0].end, start, node, run[0].operand, run[0].kind) == W.Ok(built);
      MulLoopOfRun(s, run[0].end, start, built, run[1..], q);
    }
  }

  lemma {:induction false} RunOfMulLoop(s: Stream, p: nat, start: nat, node: A.Expression)
    returns (run: seq<P.Step>)
    requires p <= |s.toks| && MulLoop(s, p, start, node).Ok?
    ensures MulRun(s, p, run, MulLoop(s, p, start, node).value.1) && Multiplicative(run)
    ensures MulLoop(s, p, start, node).value.0 == MulFold(s, start, node, run)
    decreases |s.toks| - p
  {
    if Cur(s, p).kind in MultiplicativeKinds {
      var kind := Cur(s, p).kind;
      var right := LeftTier(PowerTier, s, Advance(s, p)).value;
      var built := A.BinaryExpression(start, Cur(s, right.1).end, node, MulOp(kind), right.0);
      var rest := RunOfMulLoop(s, right.1, start, built);
      run := [P.Step(kind, right.0, right.1)] + rest;
      assert run[1..] == rest;
    } else {
      run := [];
    }
  }

  lemma {:induction false} JuxtLoopOfRuns(s: Stream, p: nat, start: nat, node: A.Expression,
                                          juxt: seq<(A.Expression, nat)>, q1: nat, muls: seq<P.Step>, q: nat)
    requires p <= |s.toks| && q1 <= |s.toks| && JuxtRun(s, p, juxt, q1) && MulRun(s, q1, muls, q)
    ensures Multiplicative(muls)
    ensures JuxtLoop(s, p, start, node) == W.Ok((MulFold(s, start, JuxtFold(s, start, node, juxt), muls), q))
    decreases |juxt|
  {
    MulRunKinds(s, q1, muls, q);
    if juxt == [] {
      MulLoopOfRun(s, p, start, node, muls, q);
    } else {
      var built := A.BinaryExpression(start, Cur(s, juxt[0].1).end, node, A.Operator.Multiply, juxt[0].0);
      JuxtLoopOfRuns(s, juxt[0].1, start, built, juxt[1..], q1, muls, q);
    }
  }

  lemma {:induction false} RunsOfJuxtLoop(s: Stream, p: nat, start: nat, node: A.Expression)
    returns (juxt: seq<(A.Expression, nat)>, q1: nat, muls: seq<P.Step>)
    requires p <= |s.toks| && JuxtLoop(s, p, start, node).Ok?
    ensures q1 <= |s.toks| && JuxtRun(s, p, juxt, q1)
    ensures MulRun(s, q1, muls, JuxtLoop(s, p, start, node).value.1) && Multiplicative(muls)
    ensures JuxtLoop(s, p, start, node).value.0 == MulFold(s, start, JuxtFold(s, start, node, juxt), muls)
    decreases |s.toks| - p
  {
    if Cur(s, p).kind in JuxtaposedKinds {
      var right := LeftTier(PowerTier, s, p).value;
      var built := A.BinaryExpression(start, Cur(s, right.1).end, node, A.Operator.Multiply, right.0);
      var rest;
      rest, q1, muls := RunsOfJuxtLoop(s, right.1, start, built);
      juxt := [right] + rest;
      assert juxt[1..] == rest;
    } else {
      juxt, q1 := [], p;
      muls := RunOfMulLoop(s, p, start, node);
    }
  }

  /** `term` reads a power, then every juxtaposed operand (multiplied in without consuming
      a token), then the explicit `* / %` rounds, and nests them all to the left from the
      first operand's start; ... */
  lemma TermOfRuns(s: Stream, p: nat, first: A.Expression, q0: nat,
                   juxt: seq<(A.Expression, nat)>, q1: nat, muls: seq<P.Step>, q: nat)
    requires p <= |s.toks| && LeftTier(PowerTier, s, p) == W.Ok((first, q0))
    requires q1 <= |s.toks| && JuxtRun(s, q0, juxt, q1) && MulRun(s, q1, muls, q)
    ensures Multiplicative(muls)
    ensures Term(s, p) == W.Ok((MulFold(s, Cur(s, p).start, JuxtFold(s, Cur(s, p).start, first, juxt), muls), q))
  {
    JuxtLoopOfRuns(s, q0, Cur(s, p).start, first, juxt, q1, muls, q);
  }

  /** ... and every `term` result has that shape, so no juxtaposition follows an explicit
      operator within one `term`. */
  lemma RunsOfTerm(s: Stream, p: nat)
    returns (first: A.Expression, q0: nat, juxt: seq<(A.Expression, nat)>, q1: nat, muls: seq<P.Step>)
    requires p <= |s.toks| && Term(s, p).Ok?
    ensures LeftTier(PowerTier, s, p) == W.Ok((first, q0))
    ensures q1 <= |s.toks| && JuxtRun(s, q0, juxt, q1)
    ensures MulRun(s, q1, muls, Term(s, p).value.1) && Multiplicative(muls)
    ensures Term(s, p).value.0 == MulFold(s, Cur(s, p).start, JuxtFold(s, Cur(s, p).start, first, juxt), muls)
  {
    first, q0 := LeftTier(PowerTier, s, p).value.0, LeftTier(PowerTier, s, p).value.1;
    juxt, q1, muls := RunsOfJuxtLoop(s, q0, Cur(s, p).start, first);
  }

  /** `2x`: an operand that starts right after an operand is multiplied in, and the token
      that starts it is not taken as an operator. */
  lemma Juxtaposition(s: Stream, p: nat, a: A.Expression, q1: nat, b: A.Expression, q2: nat)
    requires p <= |s.toks| && LeftTier(PowerTier, s, p) == W.Ok((a, q1))
    requires Cur(s, q1).kind in JuxtaposedKinds && LeftTier(PowerTier, s, q1) == W.Ok((b, q2))
    requires Cur(s, q2).kind !in JuxtaposedKinds && Cur(s, q2).kind !in MultiplicativeKinds
    ensures Term(s, p) == W.Ok((A.BinaryExpression(Cur(s, p).start, Cur(s, q2).end, a, A.Operator.Multiply, b), q2))
  {
    var juxt := [(b, q2)];
    assert JuxtRun(s, q2, juxt[1..], q2);
    assert MulRun(s, q2, [], q2);
    TermOfRuns(s, p, a, q1, juxt, q2, [], q2);
  }

  // ------------------------------------------------------------------------------------
  // factor and kind_to_op

  /** The kinds `kind_to_op` has an arm for. */
  const OperatorKinds: set<TokenKind> :=
    {Plus, Minus, Multiply, Divide, Power, Range, Modulo, And, Or, Xor, BitAnd, BitOr, BitXor,
     BitLeftShift, BitRightShift, TokenKind.Assign, FormulaAssign, PlusAssign, MinusAssign,
     MultiplyAssign, DivideAssign, PowerAssign, ModuloAssign, Equal, NotEqual, Less, LessEqual,
     Greater, GreaterEqual}

  /** `kind_to_op` is defined exactly on the binary, assignment and comparison kinds, and
      panics on every other kind. */
  lemma KindToOpDomain(kind: TokenKind)
    ensures KindToOp(kind).Ok? <==> kind in OperatorKinds
    ensures KindToOp(kind).Err? ==> KindToOp(kind) == W.Err(W.Panic(UnreachableOperator))
  {
    if kind in OperatorKinds {
      OperatorKindsDefined(kind);
    } else {
      OtherKindsPanic(kind);
    }
  }

  lemma OperatorKindsDefined(kind: TokenKind)
    requires kind in OperatorKinds
    ensures KindToOp(kind).Ok?
  {
  }

  lemma OtherKindsPanic(kind: TokenKind)
    requires kind !in OperatorKinds
    ensures KindToOp(kind) == W.Err(W.Panic(UnreachableOperator))
  {
  }

  /** Of the prefix operators only `-` and `+` have a binary operator. */
  lemma PrefixOperators()
    ensures PrefixKinds * OperatorKinds == {Minus, Plus}
  {
  }

  /** `Number`, `Str`, `True` and `False` are literals of their token. */
  lemma FactorLiteral(s: Stream, p: nat)
    requires p <= |s.toks| && Cur(s, p).kind in LiteralKinds
    ensures Factor(s, p) == W.Ok((A.Literal(Cur(s, p)), p + 1))
  {
  }

  /** A parenthesised expression is the expression itself; a missing `)` is reported from
      the `(` to the end of the token found instead. */
  lemma FactorParens(s: Stream, p: nat, e: A.Expression, q: nat)
    requires p <= |s.toks| && Cur(s, p).kind == LParen && Expr(s, Advance(s, p)) == W.Ok((e, q))
    ensures Factor(s, p) == if Cur(s, q).kind == RParen then W.Ok((e, q + 1))
                            else W.Err(W.Report(ExpectedMessage(")", GotText(Cur(s, q))), Cur(s, p).start, Cur(s, q).end))
  {
    FactorParensShape(s, p, e, q);
    assert KindText(RParen) == ")";
    Closing(s, q, RParen, ")", Cur(s, p).start);
  }

  lemma FactorParensShape(s: Stream, p: nat, e: A.Expression, q: nat)
    requires p <= |s.toks| && Cur(s, p).kind == LParen && Expr(s, Advance(s, p)) == W.Ok((e, q))
    ensures var closed := EatWithStart(s, q, RParen, Cur(s, p).start);
            Factor(s, p) == if closed.Ok? then W.Ok((e, closed.value.1)) else W.Err(closed.error)
  {
  }

  /** Eating the closing token `kind`, whose text is `text`: one token on, or the "Expected"
      failure from `start` to the end of the token found. */
  lemma Closing(s: Stream, q: nat, kind: TokenKind, text: string, start: nat)
    requires q <= |s.toks| && KindText(kind) == text && kind != Eof
    ensures EatWithStart(s, q, kind, start)
         == if Cur(s, q).kind == kind then W.Ok((true, q + 1))
            else W.Err(W.Report(ExpectedMessage(text, GotText(Cur(s, q))), start, Cur(s, q).end))
  {
  }

  /** `-` and `+` take a factor and build a unary node from the operator's start; applied
      again on that factor, they nest to the right. */
  lemma FactorUnary(s: Stream, p: nat, e: A.Expression, q: nat)
    requires p <= |s.toks| && Cur(s, p).kind in {Minus, Plus}
    requires Factor(s, Advance(s, p)) == W.Ok((e, q))
    ensures Factor(s, p) == W.Ok((A.UnaryExpression(Cur(s, p).start, Cur(s, q).end,
                                  if Cur(s, p).kind == Minus then A.Operator.Minus else A.Operator.Plus, e), q))
  {
  }

  /** `!`, `++`, `--` and `~` reach `kind_to_op` with a kind it has no arm for: if their
      operand parses, the parse panics; otherwise the operand's failure stands. */
  lemma FactorPrefixPanics(s: Stream, p: nat)
    requires p <= |s.toks| && Cur(s, p).kind in {Not, PlusPlus, MinusMinus, BitNot}
    ensures Factor(s, p).Err?
    ensures Factor(s, Advance(s, p)).Ok? ==> Factor(s, p) == W.Err(W.Panic(UnreachableOperator))
    ensures Factor(s, Advance(s, p)).Err? ==> Factor(s, p) == Factor(s, Advance(s, p))
  {
    var k := Cur(s, p).kind;
    assert k !in LiteralKinds && k != LParen && k != LBracket && k in PrefixKinds;
    OtherKindsPanic(k);
  }

  // ------------------------------------------------------------------------------------
  // var_decl

  /** `let x = e;` and `let x := e;`: the initialiser, whether it is a formula, and a node
      that ends with the token after the `;`. */
  lemma VarDeclWithInit(s: Stream, p: nat, onlyWithInit: bool, e: A.Expression, q: nat)
    requires p < |s.toks| && Cur(s, p + 1).kind == Identifier
    requires Cur(s, p + 2).kind in {TokenKind.Assign, FormulaAssign}
    requires Expr(s, Advance(s, p + 2)) == W.Ok((e, q)) && Cur(s, q).kind == Semicolon
    ensures VarDecl(s, p, onlyWithInit)
         == W.Ok((A.VariableDeclaration(Cur(s, p).start, Cur(s, q + 1).end, Cur(s, p + 1), e,
                                        Cur(s, p + 2).kind == FormulaAssign), q + 1))
  {
  }

  /** `let x;` declares `x` with no initialiser unless one is demanded, and then it is the
      "Expected Assign or FormulaAssign" failure at the token found. */
  lemma VarDeclWithoutInit(s: Stream, p: nat)
    requires p < |s.toks| && Cur(s, p + 1).kind == Identifier && Cur(s, p + 2).kind == Semicolon
    ensures VarDecl(s, p, false)
         == W.Ok((A.VariableDeclaration(Cur(s, p).start, Cur(s, p + 3).end, Cur(s, p + 1),
                                        A.Expression.None, false), p + 3))
    ensures VarDecl(s, p, true)
         == W.Err(W.Report(ExpectedMessage(AssignOrFormula, KindText(Semicolon)), Cur(s, p + 2).start, Cur(s, p + 2).end))
  {
  }

  /** When an initialiser is demanded, any other token after the name is that failure. */
  lemma VarDeclNeedsInit(s: Stream, p: nat)
    requires p < |s.toks| && Cur(s, p + 1).kind == Identifier
    requires Cur(s, p + 2).kind !in {TokenKind.Assign, FormulaAssign}
    ensures VarDecl(s, p, true)
         == W.Err(W.Report(ExpectedMessage(AssignOrFormula, KindText(Cur(s, p + 2).kind)),
                           Cur(s, p + 2).start, Cur(s, p + 2).end))
  {
  }

  /** `for` demands an initialiser in its setup: `for (let i; ...` fails at the `;`. */
  lemma ForNeedsInit(s: Stream, p: nat)
    requires p < |s.toks| && Cur(s, p).kind == For && Cur(s, p + 1).kind == LParen
    requires Cur(s, p + 3).kind == Identifier && Cur(s, p + 4).kind !in {TokenKind.Assign, FormulaAssign}
    ensures ForStmt(s, p)
         == W.Err(W.Report(ExpectedMessage(AssignOrFormula, KindText(Cur(s, p + 4).kind)),
                           Cur(s, p + 4).start, Cur(s, p + 4).end))
  {
    VarDeclNeedsInit(s, p + 2);
  }

  // ------------------------------------------------------------------------------------
  // read_seq_expr

  /** A bracket literal is always a sequence node from the `[`. */
  lemma ReadSeqIsSequence(s: Stream, p: nat)
    requires p <= |s.toks| && Cur(s, p).kind == LBracket && ReadSeqExpr(s, p).Ok?
    ensures ReadSeqExpr(s, p).value.0.SequenceExpression?
    ensures ReadSeqExpr(s, p).value.0.start == Cur(s, p).start
  {
  }

  /** `[]` is the empty sequence. */
  lemma ReadSeqEmpty(s: Stream, p: nat)
    requires p <= |s.toks| && Cur(s, p).kind == LBracket && Cur(s, p + 1).kind == RBracket
    ensures ReadSeqExpr(s, p) == W.Ok((A.SequenceExpression(Cur(s, p).start, Cur(s, p + 2).end, []), p + 2))
  {
  }

  /** `[a, b, ...]` holds exactly the comma-separated items, even just one; a missing `]` is
      reported from the `[`. */
  lemma ReadSeqItems(s: Stream, p: nat, first: A.Expression, q1: nat, run: seq<(A.Expression, nat)>, q: nat)
    requires p <= |s.toks| && Cur(s, p).kind == LBracket && Cur(s, p + 1).kind != RBracket
    requires ParserSpec.Assign(s, p + 1) == W.Ok((first, q1)) && CommaRun(s, q1, run, q)
    ensures ReadSeqExpr(s, p)
         == if Cur(s, q).kind == RBracket
            then W.Ok((A.SequenceExpression(Cur(s, p).start, Cur(s, q + 1).end, [first] + Firsts(run)), q + 1))
            else W.Err(W.Report(ExpectedMessage("]", GotText(Cur(s, q))), Cur(s, p).start, Cur(s, q).end))
  {
    CommaOfRun(s, p + 1, true, first, q1, run, q);
    var node := CommaNode(s, p + 1, true, first, run, q);
    assert Items(node) == [first] + Firsts(run);
    ReadSeqClosed(s, p, node, q);
  }

  /** `read_seq_expr` after the items: the closing `]`, or the failure reported from `[`. */
  lemma ReadSeqClosed(s: Stream, p: nat, e: A.Expression, q: nat)
    requires p <= |s.toks| && Cur(s, p).kind == LBracket && Cur(s, p + 1).kind != RBracket
    requires ParserSpec.Comma(s, p + 1, true) == W.Ok((e, q))
    ensures ReadSeqExpr(s, p)
         == if Cur(s, q).kind == RBracket
            then W.Ok((A.SequenceExpression(Cur(s, p).start, Cur(s, q + 1).end, Items(e)), q + 1))
            else W.Err(W.Report(ExpectedMessage("]", GotText(Cur(s, q))), Cur(s, p).start, Cur(s, q).end))
  {
    ReadSeqShape(s, p, e, q);
    assert KindText(RBracket) == "]";
    Closing(s, q, RBracket, "]", Cur(s, p).start);
  }

  lemma ReadSeqShape(s: Stream, p: nat, e: A.Expression, q: nat)
    requires p <= |s.toks| && Cur(s, p).kind == LBracket && Cur(s, p + 1).kind != RBracket
    requires ParserSpec.Comma(s, p + 1, true) == W.Ok((e, q))
    ensures var closed := EatWithStart(s, q, RBracket, Cur(s, p).start);
            ReadSeqExpr(s, p)
            == if closed.Ok? then W.Ok((A.SequenceExpression(Cur(s, p).start, Cur(s, closed.value.1).end, Items(e)), closed.value.1))
               else W.Err(closed.error)
  {
  }

  // ------------------------------------------------------------------------------------
  // call

  /** A bare identifier, with no brackets read. */
  lemma CallBare(s: Stream, p: nat)
    requires p <= |s.toks| && Cur(s, p).kind == Identifier && Cur(s, p + 1).kind != LBracket
    ensures Call(s, p) == W.Ok(((A.Identifier(Cur(s, p)), false), p + 1))
  {
  }

  /** `f[args]`: a call of the identifier on a sequence of the argument items, starting at
      the `[`; the call node starts at the identifier, and a missing `]` is reported from
      there too. */
  lemma CallArguments(s: Stream, p: nat, e: A.Expression, q: nat)
    requires p <= |s.toks| && Cur(s, p).kind == Identifier && Cur(s, p + 1).kind == LBracket
    requires Cur(s, p + 2).kind != RBracket && Expr(s, p + 2) == W.Ok((e, q))
    ensures Call(s, p)
         == if Cur(s, q).kind == RBracket
            then W.Ok(((A.CallExpression(Cur(s, p).start, Cur(s, q + 1).end, A.Identifier(Cur(s, p)),
                                         A.SequenceExpression(Cur(s, p + 1).start, Cur(s, q + 1).end, Items(e))),
                        true), q + 1))
            else W.Err(W.Report(ExpectedMessage("]", GotText(Cur(s, q))), Cur(s, p).start, Cur(s, q).end))
  {
    CallArgumentsShape(s, p, e, q);
    assert KindText(RBracket) == "]";
  }

  /** `Call` on `f[args]` is the argument expression followed by the closing `]`. */
  lemma CallArgumentsShape(s: Stream, p: nat, e: A.Expression, q: nat)
    requires p <= |s.toks| && Cur(s, p).kind == Identifier && Cur(s, p + 1).kind == LBracket
    requires Cur(s, p + 2).kind != RBracket && Expr(s, p + 2) == W.Ok((e, q))
    ensures var closed := EatWithStart(s, q, RBracket, Cur(s, p).start);
            Call(s, p)
            == if closed.Ok?
               then W.Ok(((A.CallExpression(Cur(s, p).start, Cur(s, closed.value.1).end, A.Identifier(Cur(s, p)),
                                            A.SequenceExpression(Cur(s, p + 1).start, Cur(s, closed.value.1).end, Items(e))),
                           true), closed.value.1))
               else W.Err(closed.error)
  {
    assert Advance(s, p) == p + 1 && Advance(s, p + 1) == p + 2;
  }

  /** `[e]` is `e` itself, with brackets read. */
  lemma CallBracketed(s: Stream, p: nat, e: A.Expression, q: nat)
    requires p <= |s.toks| && Cur(s, p).kind == LBracket && Expr(s, p + 1) == W.Ok((e, q))
    ensures Call(s, p)
         == if Cur(s, q).kind == RBracket then W.Ok(((e, true), q + 1))
            else W.Err(W.Report(ExpectedMessage("]", GotText(Cur(s, q))), Cur(s, p).start, Cur(s, q).end))
  {
    CallBracketedShape(s, p, e, q);
    assert KindText(RBracket) == "]";
    Closing(s, q, RBracket, "]", Cur(s, p).start);
  }

  lemma CallBracketedShape(s: Stream, p: nat, e: A.Expression, q: nat)
    requires p <= |s.toks| && Cur(s, p).kind == LBracket && Expr(s, p + 1) == W.Ok((e, q))
    ensures var closed := EatWithStart(s, q, RBracket, Cur(s, p).start);
            Call(s, p) == if closed.Ok? then W.Ok(((e, true), closed.value.1)) else W.Err(closed.error)
  {
  }

  /** Anything else is the "Identifier or [" failure at that token. */
  lemma CallOther(s: Stream, p: nat)
    requires p <= |s.toks| && Cur(s, p).kind != Identifier && Cur(s, p).kind != LBracket
    ensures Call(s, p)
         == W.Err(W.Report(ExpectedMessage(IdentifierOrBracket, KindText(Cur(s, p).kind)), Cur(s, p).start, Cur(s, p).end))
  {
  }

  /** As written, `f[]` builds a call node that starts at the `[` rather than at `f`, unlike
      every other call. */
  lemma EmptyCallStartsAtBracket(s: Stream, p: nat)
    requires p <= |s.toks| && Cur(s, p).kind == Identifier && Cur(s, p + 1).kind == LBracket
    requires Cur(s, p + 2).kind == RBracket
    ensures Call(s, p)
         == W.Ok(((A.CallExpression(Cur(s, p + 1).start, Cur(s, p + 3).end, A.Identifier(Cur(s, p)),
                                    A.SequenceExpression(Cur(s, p + 1).start, Cur(s, p + 3).end, [])),
                   true), p + 3))
    ensures Cur(s, p).start < Cur(s, p + 1).start ==> Call(s, p).value.0.0.start != Cur(s, p).start
  {
  }

  /** `call` with the empty-argument call node starting at the identifier. */
  function CallIntended(s: Stream, p: nat): (r: Parsed<(A.Expression, bool)>)
    requires p <= |s.toks|
  {
    if Cur(s, p).kind == Identifier && Cur(s, p + 1).kind == LBracket && Cur(s, p + 2).kind == RBracket then
      var arguments := SequenceNode(s, p + 3, Cur(s, p + 1).start, []);
      W.Ok(((CallNode(s, p + 3, Cur(s, p).start, A.Identifier(Cur(s, p)), arguments), true), p + 3))
    else
      Call(s, p)
  }

  /** With the correction, every call the identifier starts is a node that starts at the
      identifier, with or without arguments. */
  lemma CallIntendedStart(s: Stream, p: nat)
    requires p <= |s.toks| && Cur(s, p).kind == Identifier && CallIntended(s, p).Ok?
    ensures CallIntended(s, p).value.0.1 <==> CallIntended(s, p).value.0.0.CallExpression?
    ensures CallIntended(s, p).value.0.1 ==> CallIntended(s, p).value.0.0.start == Cur(s, p).start
    ensures CallIntended(s, p).value.0.0.CallExpression?
         || CallIntended(s, p).value.0.0 == A.Identifier(Cur(s, p))
  {
  }

  // ------------------------------------------------------------------------------------
  // fn_decl and parse_params

  /** As written, `fn f[] {...}` fails: `parse_params` consumes the `]` of the empty list and
      `fn_decl` then demands another, reporting the `{` it finds, from the `[`. */
  lemma EmptyParamsRejected(s: Stream, p: nat)
    requires p <= |s.toks| && Cur(s, p).kind == Function && Cur(s, p + 1).kind == Identifier
    requires Cur(s, p + 2).kind == LBracket && Cur(s, p + 3).kind == RBracket
    requires Cur(s, p + 4).kind != RBracket
    ensures FnDecl(s, p)
         == W.Err(W.Report(ExpectedMessage("]", GotText(Cur(s, p + 4))), Cur(s, p + 2).start, Cur(s, p + 4).end))
  {
    assert ParseParams(s, p + 3) == W.Ok(([], p + 4));
    assert KindText(RBracket) == "]";
    assert ParamList(s, p + 2)
        == W.Err(W.Report(ExpectedMessage("]", GotText(Cur(s, p + 4))), Cur(s, p + 2).start, Cur(s, p + 4).end));
  }

  /** `parse_params` leaving the `]` of an empty list for `fn_decl` to eat. */
  function ParseParamsIntended(s: Stream, p: nat): (r: Parsed<seq<Token>>)
    requires p <= |s.toks|
    ensures Moved(s, p, r)
  {
    if Cur(s, p).kind == RBracket then
      W.Ok(([], p))
    else
      ParseParams(s, p)
  }

  function ParamListIntended(s: Stream, p: nat): (r: Parsed<seq<Token>>)
    requires p <= |s.toks|
    ensures Consumed(s, p, r)
  {
    var start := Cur(s, p).start;
    var lbracket :- Eat(s, p, LBracket);
    var params :- ParseParamsIntended(s, lbracket.1);
    var closed :- EatWithStart(s, params.1, RBracket, start);
    W.Ok((params.0, closed.1))
  }

  /** `fn_decl` over the corrected parameter list. */
  function FnDeclIntended(s: Stream, p: nat): (r: Parsed<A.Statement>)
    requires p <= |s.toks|
    ensures Consumed(s, p, r)
  {
    var start := Cur(s, p).start;
    var isAsync := Cur(s, p).kind == Async;
    var p1 := if isAsync then Advance(s, p) else p;
    var p2 := Advance(s, p1);
    var id := Cur(s, p2);
    var named :- Eat(s, p2, Identifier);
    var params :- ParamListIntended(s, named.1);
    var body :- BracedBody(s, params.1);
    W.Ok((A.FunctionDeclaration(start, Cur(s, body.1).end, id, params.0, body.0, isAsync), body.1))
  }

  /** Corrected, `fn f[] {...}` declares `f` with no parameters ... */
  lemma EmptyParamsIntended(s: Stream, p: nat, body: seq<A.Statement>, q: nat)
    requires p <= |s.toks| && Cur(s, p).kind == Function && Cur(s, p + 1).kind == Identifier
    requires Cur(s, p + 2).kind == LBracket && Cur(s, p + 3).kind == RBracket
    requires BracedBody(s, p + 4) == W.Ok((body, q))
    ensures FnDeclIntended(s, p)
         == W.Ok((A.FunctionDeclaration(Cur(s, p).start, Cur(s, q).end, Cur(s, p + 1), [], body, false), q))
  {
    assert Advance(s, p) == p + 1;
    assert Eat(s, p + 1, Identifier) == W.Ok((true, p + 2));
    assert ParamListIntended(s, p + 2) == W.Ok(([], p + 4)) by {
      assert Eat(s, p + 2, LBracket) == W.Ok((true, p + 3));
      assert ParseParamsIntended(s, p + 3) == W.Ok(([], p + 3));
      assert EatWithStart(s, p + 3, RBracket, Cur(s, p + 2).start) == W.Ok((true, p + 4));
    }
  }

  /** ... and it agrees with `fn_decl` whenever the parameter list is not empty. */
  lemma NonEmptyParamsAgree(s: Stream, p: nat)
    requires p <= |s.toks| && Cur(s, p).kind == Function && Cur(s, p + 1).kind == Identifier
    requires Cur(s, p + 3).kind != RBracket
    ensures FnDeclIntended(s, p) == FnDecl(s, p)
  {
    assert Advance(s, p) == p + 1 && Advance(s, p + 1) == p + 2;
    assert Eat(s, p + 1, Identifier) == W.Ok((true, p + 2));
    ParamListAgree(s, p + 2);
  }

  lemma ParamListAgree(s: Stream, p: nat)
    requires p <= |s.toks| && Cur(s, Advance(s, p)).kind != RBracket
    ensures ParamListIntended(s, p) == ParamList(s, p)
  {
    if Cur(s, p).kind == LBracket {
      assert ParseParamsIntended(s, Advance(s, p)) == ParseParams(s, Advance(s, p));
    }
  }
}
