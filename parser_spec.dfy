/** What the recursive-descent parser (parser/src/parser/mod.rs) returns, as functions of a
    token stream and a cursor into it. Each parsing function yields the node it builds and
    the cursor after it, or the failure that ends the run: the diagnostic the source hands
    to `report_error` (which aborts the process) or the panic of an `unreachable!`.
    The class `Parser` (parser.dfy) runs the same steps on a mutable cursor. */
module ParserSpec {
  import opened Tokens
  import W = Wrappers
  import A = Ast

  // ------------------------------------------------------------------------------------
  // The token stream

  /** The tokens the lexer hands over, and the length of the source they came from. */
  datatype Stream = Stream(toks: seq<Token>, sourceLen: nat)

  /** The current token. Past the last token the lexer keeps answering `Eof` at the end
      of the source. */
  function Cur(s: Stream, p: nat): Token {
    if p < |s.toks| then s.toks[p] else Token(Eof, s.sourceLen, s.sourceLen, TokenValue.None)
  }

  /** `advance`: the cursor moves on, and stays put once everything is read. */
  function Advance(s: Stream, p: nat): nat {
    if p < |s.toks| then p + 1 else p
  }

  /** A parsed value with the cursor after it, or the failure that stopped the parse. */
  type Parsed<T> = W.Result<(T, nat)>

  /** A successful parse read at least one token and left the cursor in the stream. */
  predicate Consumed<T>(s: Stream, p: nat, r: Parsed<T>) {
    r.Ok? ==> p < r.value.1 <= |s.toks|
  }

  /** A successful parse left the cursor at or after where it was, in the stream. */
  predicate Moved<T>(s: Stream, p: nat, r: Parsed<T>) {
    r.Ok? ==> p <= r.value.1 <= |s.toks|
  }

  // ------------------------------------------------------------------------------------
  // Diagnostics, eating, and the node builders

  /** The text of `report_expected`. */
  function ExpectedMessage(expected: string, got: string): string {
    "Expected " + expected + " but got " + got
  }

  /** How `eat_with_start` shows the token it did not expect: its kind, a space and its
      value (a value-less token shows as the empty string). */
  function GotText(t: Token): string {
    KindText(t.kind) + " " + ValueText(t.value)
  }

  /** `eat_with_start`: consume a token of `kind`, or report the mismatch from `start` (the
      opening delimiter) to the end of the current token. */
  function EatWithStart(s: Stream, p: nat, kind: TokenKind, start: nat): (r: Parsed<bool>)
    requires p <= |s.toks|
    ensures r.Ok? <==> Cur(s, p).kind == kind
    ensures r.Ok? ==> r.value == (true, Advance(s, p))
    ensures r.Ok? && kind != Eof ==> r.value.1 == p + 1
    ensures r.Err? ==> r.error == W.Report(ExpectedMessage(KindText(kind), GotText(Cur(s, p))),
                                           start, Cur(s, p).end)
  {
    if Cur(s, p).kind == kind then W.Ok((true, Advance(s, p)))
    else W.Err(W.Report(ExpectedMessage(KindText(kind), GotText(Cur(s, p))), start, Cur(s, p).end))
  }

  /** `eat`: `eat_with_start` anchored at the current token. */
  function Eat(s: Stream, p: nat, kind: TokenKind): (r: Parsed<bool>)
    requires p <= |s.toks|
    ensures r.Ok? <==> Cur(s, p).kind == kind
    ensures r.Ok? && kind != Eof ==> r.value == (true, p + 1)
  {
    EatWithStart(s, p, kind, Cur(s, p).start)
  }

  const UnreachableOperator := "This function can't be called for other tokens"

  /** `kind_to_op`: the operator of a binary, assignment or comparison kind. Any other kind
      hits the `unreachable!` arm. */
  function KindToOp(kind: TokenKind): W.Result<A.Operator> {
    match kind
    case Plus => W.Ok(A.Operator.Plus)
    case Minus => W.Ok(A.Operator.Minus)
    case Multiply => W.Ok(A.Operator.Multiply)
    case Divide => W.Ok(A.Operator.Divide)
    case Power => W.Ok(A.Operator.Power)
    case Range => W.Ok(A.Operator.Range)
    case Modulo => W.Ok(A.Operator.Modulo)
    case And => W.Ok(A.Operator.And)
    case Or => W.Ok(A.Operator.Or)
    case Xor => W.Ok(A.Operator.Xor)
    case BitAnd => W.Ok(A.Operator.BitAnd)
    case BitOr => W.Ok(A.Operator.BitOr)
    case BitXor => W.Ok(A.Operator.BitXor)
    case BitLeftShift => W.Ok(A.Operator.BitLeftShift)
    case BitRightShift => W.Ok(A.Operator.BitRightShift)
    case Assign => W.Ok(A.Operator.Assign)
    case FormulaAssign => W.Ok(A.Operator.FormulaAssign)
    case PlusAssign => W.Ok(A.Operator.PlusAssign)
    case MinusAssign => W.Ok(A.Operator.MinusAssign)
    case MultiplyAssign => W.Ok(A.Operator.MultiplyAssign)
    case DivideAssign => W.Ok(A.Operator.DivideAssign)
    case PowerAssign => W.Ok(A.Operator.PowerAssign)
    case ModuloAssign => W.Ok(A.Operator.ModuloAssign)
    case Equal => W.Ok(A.Operator.Equal)
    case NotEqual => W.Ok(A.Operator.NotEqual)
    case Less => W.Ok(A.Operator.Less)
    case LessEqual => W.Ok(A.Operator.LessEqual)
    case Greater => W.Ok(A.Operator.Greater)
    case GreaterEqual => W.Ok(A.Operator.GreaterEqual)
    case _ => W.Err(W.Panic(UnreachableOperator))
  }

  /** `binary_expression`: the node ends where the current token ends. */
  function BinaryNode(s: Stream, q: nat, start: nat, left: A.Expression, right: A.Expression,
                      kind: TokenKind): W.Result<A.Expression>
  {
    var op :- KindToOp(kind);
    W.Ok(A.BinaryExpression(start, Cur(s, q).end, left, op, right))
  }

  /** `unary_expression`. */
  function UnaryNode(s: Stream, q: nat, start: nat, kind: TokenKind, right: A.Expression)
    : W.Result<A.Expression>
  {
    var op :- KindToOp(kind);
    W.Ok(A.UnaryExpression(start, Cur(s, q).end, op, right))
  }

  /** `sequence_expression`. */
  function SequenceNode(s: Stream, q: nat, start: nat, items: seq<A.Expression>): A.Expression {
    A.SequenceExpression(start, Cur(s, q).end, items)
  }

  /** `call_expression`. */
  function CallNode(s: Stream, q: nat, start: nat, callee: A.Expression, arguments: A.Expression)
    : A.Expression
  {
    A.CallExpression(start, Cur(s, q).end, callee, arguments)
  }

  /** `member_expression`. */
  function MemberNode(s: Stream, q: nat, start: nat, base: A.Expression, property: A.Expression,
                      isExpr: bool): A.Expression
  {
    A.MemberExpression(start, Cur(s, q).end, base, property, isExpr)
  }

  /** `conditional_expression`. */
  function ConditionalNode(s: Stream, q: nat, start: nat, test: A.Expression,
                           consequent: A.Expression, alternate: A.Expression): A.Expression
  {
    A.ConditionalExpression(start, Cur(s, q).end, test, consequent, alternate)
  }

  /** The items of an argument or bracket list: the items of a sequence, or the one node. */
  function Items(node: A.Expression): seq<A.Expression> {
    if node.SequenceExpression? then node.expressions else [node]
  }

  // ------------------------------------------------------------------------------------
  // Precedence tiers

  /** The left-associative tiers, from the loosest binding to the tightest. */
  datatype Tier =
    | RangeTier | OrTier | AndTier | CmpTier | BitOrTier | BitXorTier | BitAndTier
    | ShiftTier | AddSubTier | PowerTier

  /** The operator kinds each tier loops on (mod.rs:463-550). */
  function Kinds(t: Tier): (k: set<TokenKind>)
    ensures Eof !in k
  {
    match t
    case RangeTier => {Range}
    case OrTier => {Or}
    case AndTier => {And}
    case CmpTier => {Less, LessEqual, Greater, GreaterEqual, Equal, NotEqual}
    case BitOrTier => {BitOr}
    case BitXorTier => {BitXor}
    case BitAndTier => {BitAnd}
    case ShiftTier => {BitRightShift, BitLeftShift}
    case AddSubTier => {Plus, Minus}
    case PowerTier => {Power}
  }

  /** The position of a tier in the chain; its operand function ranks just below it. */
  function Level(t: Tier): nat {
    match t
    case RangeTier => 15
    case OrTier => 14
    case AndTier => 13
    case CmpTier => 12
    case BitOrTier => 11
    case BitXorTier => 10
    case BitAndTier => 9
    case ShiftTier => 8
    case AddSubTier => 7
    case PowerTier => 4
  }

  /** The tier each tier takes its operands from; `add_sub` takes them from `term` and
      `power` from `factor` instead. */
  function Next(t: Tier): Tier
    requires t != AddSubTier && t != PowerTier
  {
    match t
    case RangeTier => OrTier
    case OrTier => AndTier
    case AndTier => CmpTier
    case CmpTier => BitOrTier
    case BitOrTier => BitXorTier
    case BitXorTier => BitAndTier
    case BitAndTier => ShiftTier
    case ShiftTier => AddSubTier
  }

  /** The assignment kinds, on which `assign` nests to the right (mod.rs:427-442). */
  const AssignKinds: set<TokenKind> :=
    {TokenKind.Assign, FormulaAssign, PlusAssign, MinusAssign, MultiplyAssign, DivideAssign, PowerAssign,
     ModuloAssign}

  /** The prefix-keyword tiers `await_expr`, `delete_expr` and `new_expr`. */
  datatype WordTier = AwaitTier | DeleteTier | NewTier

  function Keyword(w: WordTier): (k: TokenKind)
    ensures k in {Await, Delete, New}
  {
    match w
    case AwaitTier => Await
    case DeleteTier => Delete
    case NewTier => New
  }

  function WordRank(w: WordTier): nat {
    match w
    case AwaitTier => 5
    case DeleteTier => 4
    case NewTier => 3
  }

  /** The kinds that start an operand `term` multiplies by juxtaposition (mod.rs:527). */
  const JuxtaposedKinds: set<TokenKind> := {Identifier, LParen, TokenKind.Number}

  /** The explicit multiplicative kinds of `term` (mod.rs:534). */
  const MultiplicativeKinds: set<TokenKind> := {Multiply, Divide, Modulo}

  /** The kinds `factor` reads a literal from, and the prefix operators it recurses on. */
  const LiteralKinds: set<TokenKind> := {TokenKind.Number, TokenKind.Str, True, False}
  const PrefixKinds: set<TokenKind> := {Not, PlusPlus, MinusMinus, BitNot, Minus, Plus}

  // ------------------------------------------------------------------------------------
  // Expressions. Every function decreases on the tokens left, then on a rank that falls
  // along the calls made without consuming a token.

  /** `expr`. */
  function Expr(s: Stream, p: nat): (r: Parsed<A.Expression>)
    requires p <= |s.toks|
    ensures Consumed(s, p, r)
    ensures r.Ok? ==> Cur(s, r.value.1).kind != Question
    decreases |s.toks| - p, 35
  {
    Comma(s, p, false)
  }

  /** `comma`: assignments separated by commas. One item is returned bare unless
      `onlySequence` asks for a sequence node. */
  function Comma(s: Stream, p: nat, onlySequence: bool): (r: Parsed<A.Expression>)
    requires p <= |s.toks|
    ensures Consumed(s, p, r)
    ensures r.Ok? ==> Cur(s, r.value.1).kind != Question
    decreases |s.toks| - p, 34
  {
    var first :- Assign(s, p);
    var items :- CommaLoop(s, first.1, [first.0]);
    if !onlySequence && |items.0| == 1 then W.Ok((items.0[0], items.1))
    else W.Ok((SequenceNode(s, items.1, Cur(s, p).start, items.0), items.1))
  }

  /** The `while` loop of `comma`: `items` holds what was read so far. */
  function CommaLoop(s: Stream, p: nat, items: seq<A.Expression>): (r: Parsed<seq<A.Expression>>)
    requires p <= |s.toks|
    ensures Moved(s, p, r)
    ensures r.Ok? ==> |r.value.0| >= |items| && Cur(s, r.value.1).kind != TokenKind.Comma
    ensures r.Ok? && Cur(s, p).kind != Question ==> Cur(s, r.value.1).kind != Question
    decreases |s.toks| - p, 0
  {
    if Cur(s, p).kind == TokenKind.Comma then
      var next :- Assign(s, Advance(s, p));
      CommaLoop(s, next.1, items + [next.0])
    else
      W.Ok((items, p))
  }

  /** `assign`: a ternary, then an assignment operator and a right operand that nests to
      the right. */
  function Assign(s: Stream, p: nat): (r: Parsed<A.Expression>)
    requires p <= |s.toks|
    ensures Consumed(s, p, r)
    ensures r.Ok? ==> Cur(s, r.value.1).kind != Question
    decreases |s.toks| - p, 33
  {
    var left :- Ternary(s, p);
    if Cur(s, left.1).kind in AssignKinds then
      var kind := Cur(s, left.1).kind;
      // `eat` of the kind just seen: it moves on
      var right :- Assign(s, Advance(s, left.1));
      var node :- BinaryNode(s, right.1, Cur(s, p).start, left.0, right.0, kind);
      W.Ok((node, right.1))
    else
      W.Ok(left)
  }

  /** `ternary`: a range, then any number of `? range : expr` tails. The alternate is a
      whole `expr`, as the code parses it, not the `range` the grammar comment of
      mod.rs:444 names: `c ? a : b, d` takes `b, d` as the alternate. Since an `expr`
      never stops on a `?`, the loop runs at most once (`StatementProps.TernaryCases`). */
  function Ternary(s: Stream, p: nat): (r: Parsed<A.Expression>)
    requires p <= |s.toks|
    ensures Consumed(s, p, r)
    ensures r.Ok? ==> Cur(s, r.value.1).kind != Question
    decreases |s.toks| - p, 32
  {
    var test :- LeftTier(RangeTier, s, p);
    TernaryLoop(s, test.1, Cur(s, p).start, test.0)
  }

  /** The `while` of `ternary`: on `?`, the consequent is a `range` and the alternate is
      `self.expr()` (mod.rs:454), so the alternate takes everything up to the next token no
      expression continues over, commas included. */
  function TernaryLoop(s: Stream, p: nat, start: nat, node: A.Expression): (r: Parsed<A.Expression>)
    requires p <= |s.toks|
    ensures Moved(s, p, r)
    ensures r.Ok? ==> Cur(s, r.value.1).kind != Question
    decreases |s.toks| - p, 0
  {
    if Cur(s, p).kind == Question then
      var consequent :- LeftTier(RangeTier, s, Advance(s, p));
      var colon :- Eat(s, consequent.1, Colon);
      var alternate :- Expr(s, colon.1);
      TernaryLoop(s, alternate.1, start,
                  ConditionalNode(s, alternate.1, start, node, consequent.0, alternate.0))
    else
      W.Ok((node, p))
  }

  /** A left-associative tier: the operand, then the loop of the first arm of the
      `parser!` macro. */
  function LeftTier(t: Tier, s: Stream, p: nat): (r: Parsed<A.Expression>)
    requires p <= |s.toks|
    ensures Consumed(s, p, r)
    decreases |s.toks| - p, 2 * Level(t) + 1
  {
    var first :- SubOp(t, s, p);
    LeftLoop(t, s, first.1, Cur(s, p).start, first.0)
  }

  /** The operand of a tier. */
  function SubOp(t: Tier, s: Stream, p: nat): (r: Parsed<A.Expression>)
    requires p <= |s.toks|
    ensures Consumed(s, p, r)
    decreases |s.toks| - p, 2 * Level(t)
  {
    match t
    case PowerTier => Factor(s, p)
    case AddSubTier => Term(s, p)
    case _ => LeftTier(Next(t), s, p)
  }

  /** The loop of the first arm of `parser!` (macro_utils.rs:7-14): while the current kind
      is one of the tier's, eat it, parse an operand, and nest what was built so far on the
      left of a binary node that starts where the whole expansion started. */
  function LeftLoop(t: Tier, s: Stream, p: nat, start: nat, node: A.Expression)
    : (r: Parsed<A.Expression>)
    requires p <= |s.toks|
    ensures Moved(s, p, r)
    decreases |s.toks| - p, 0
  {
    if Cur(s, p).kind in Kinds(t) then
      var current := Cur(s, p);
      // `eat(current_token.kind)` cannot fail: it moves on
      var right :- SubOp(t, s, Advance(s, p));
      var built :- BinaryNode(s, right.1, start, node, right.0, current.kind);
      LeftLoop(t, s, right.1, start, built)
    else
      W.Ok((node, p))
  }

  /** `term`: a power, then juxtaposed operands multiplied in, then explicit `* / %`. */
  function Term(s: Stream, p: nat): (r: Parsed<A.Expression>)
    requires p <= |s.toks|
    ensures Consumed(s, p, r)
    decreases |s.toks| - p, 12
  {
    var first :- LeftTier(PowerTier, s, p);
    JuxtLoop(s, first.1, Cur(s, p).start, first.0)
  }

  /** The first loop of `term`: an operand-starting token right after an operand means a
      multiplication; no operator token is consumed. */
  function JuxtLoop(s: Stream, p: nat, start: nat, node: A.Expression): (r: Parsed<A.Expression>)
    requires p <= |s.toks|
    ensures Moved(s, p, r)
    decreases |s.toks| - p, 11
  {
    if Cur(s, p).kind in JuxtaposedKinds then
      var right :- LeftTier(PowerTier, s, p);
      var built :- BinaryNode(s, right.1, start, node, right.0, Multiply);
      JuxtLoop(s, right.1, start, built)
    else
      MulLoop(s, p, start, node)
  }

  /** The second loop of `term`: the operator kind is read before it is consumed. */
  function MulLoop(s: Stream, p: nat, start: nat, node: A.Expression): (r: Parsed<A.Expression>)
    requires p <= |s.toks|
    ensures Moved(s, p, r)
    decreases |s.toks| - p, 10
  {
    if Cur(s, p).kind in MultiplicativeKinds then
      var operator := Cur(s, p).kind;
      var right :- LeftTier(PowerTier, s, Advance(s, p));
      var built :- BinaryNode(s, right.1, start, node, right.0, operator);
      MulLoop(s, right.1, start, built)
    else
      W.Ok((node, p))
  }

  /** `factor`: literals, parentheses, bracket sequences, prefix operators, or the prefix
      keyword chain. */
  function Factor(s: Stream, p: nat): (r: Parsed<A.Expression>)
    requires p <= |s.toks|
    ensures Consumed(s, p, r)
    decreases |s.toks| - p, 7
  {
    var token := Cur(s, p);
    if token.kind in LiteralKinds then
      W.Ok((A.Literal(token), Advance(s, p)))
    else if token.kind == LParen then
      var node :- Expr(s, Advance(s, p));
      var closed :- EatWithStart(s, node.1, RParen, token.start);
      W.Ok((node.0, closed.1))
    else if token.kind == LBracket then
      ReadSeqExpr(s, p)
    else if token.kind in PrefixKinds then
      var right :- Factor(s, Advance(s, p));
      var node :- UnaryNode(s, right.1, token.start, token.kind, right.0);
      W.Ok((node, right.1))
    else
      WordExpr(AwaitTier, s, p)
  }

  /** `read_seq_expr`, called on the opening `[`: always a sequence node. */
  function ReadSeqExpr(s: Stream, p: nat): (r: Parsed<A.Expression>)
    requires p <= |s.toks| && Cur(s, p).kind == LBracket
    ensures Consumed(s, p, r)
    decreases |s.toks| - p, 6
  {
    var token := Cur(s, p);
    var p1 := Advance(s, p);
    if Cur(s, p1).kind == RBracket then
      var p2 := Advance(s, p1);
      W.Ok((SequenceNode(s, p2, token.start, []), p2))
    else
      var node :- Comma(s, p1, true);
      var closed :- EatWithStart(s, node.1, RBracket, token.start);
      W.Ok((SequenceNode(s, closed.1, token.start, Items(node.0)), closed.1))
  }

  /** `await_expr`, `delete_expr`, `new_expr`: the keyword nests to the right over its own
      tier, or the next tier down is parsed. */
  function WordExpr(w: WordTier, s: Stream, p: nat): (r: Parsed<A.Expression>)
    requires p <= |s.toks|
    ensures Consumed(s, p, r)
    decreases |s.toks| - p, WordRank(w)
  {
    if Cur(s, p).kind == Keyword(w) then
      var argument :- WordExpr(w, s, Advance(s, p));
      W.Ok((A.WordExpression(Cur(s, p).start, Cur(s, argument.1).end, Keyword(w), argument.0),
            argument.1))
    else
      match w
      case AwaitTier => WordExpr(DeleteTier, s, p)
      case DeleteTier => WordExpr(NewTier, s, p)
      case NewTier => Dot(s, p)
  }

  /** `dot`: calls joined by `.` into member nodes. */
  function Dot(s: Stream, p: nat): (r: Parsed<A.Expression>)
    requires p <= |s.toks|
    ensures Consumed(s, p, r)
    decreases |s.toks| - p, 2
  {
    var first :- Call(s, p);
    DotLoop(s, first.1, Cur(s, p).start, first.0.0)
  }

  function DotLoop(s: Stream, p: nat, start: nat, node: A.Expression): (r: Parsed<A.Expression>)
    requires p <= |s.toks|
    ensures Moved(s, p, r)
    decreases |s.toks| - p, 0
  {
    if Cur(s, p).kind == TokenKind.Dot then
      var property :- Call(s, Advance(s, p));
      DotLoop(s, property.1, start,
              MemberNode(s, property.1, start, node, property.0.0, property.0.1))
    else
      W.Ok((node, p))
  }

  const IdentifierOrBracket := "Identifier or ["

  /** `call`: an identifier, possibly applied to a bracketed argument list, or a bracketed
      expression; the flag says whether brackets were read. */
  function Call(s: Stream, p: nat): (r: Parsed<(A.Expression, bool)>)
    requires p <= |s.toks|
    ensures Consumed(s, p, r)
    decreases |s.toks| - p, 1
  {
    var token := Cur(s, p);
    if token.kind == Identifier then
      var p1 := Advance(s, p);
      if Cur(s, p1).kind == LBracket then
        var sequenceStart := Cur(s, p1).start;
        var p2 := Advance(s, p1);
        if Cur(s, p2).kind == RBracket then
          var p3 := Advance(s, p2);
          var arguments := SequenceNode(s, p3, sequenceStart, []);
          W.Ok(((CallNode(s, p3, sequenceStart, A.Identifier(token), arguments), true), p3))
        else
          var node :- Expr(s, p2);
          var closed :- EatWithStart(s, node.1, RBracket, token.start);
          var arguments := SequenceNode(s, closed.1, sequenceStart, Items(node.0));
          W.Ok(((CallNode(s, closed.1, token.start, A.Identifier(token), arguments), true), closed.1))
      else
        W.Ok(((A.Identifier(token), false), p1))
    else if token.kind == LBracket then
      var node :- Expr(s, Advance(s, p));
      var closed :- EatWithStart(s, node.1, RBracket, token.start);
      W.Ok(((node.0, true), closed.1))
    else
      W.Err(W.Report(ExpectedMessage(IdentifierOrBracket, KindText(token.kind)), token.start, token.end))
  }

  // ------------------------------------------------------------------------------------
  // Statements

  /** `program`: the body, spanning the whole source. `parse` starts it on the first token
      (its `eat(Start)` steps over the placeholder the parser starts with). */
  function Program(s: Stream, p: nat): W.Result<A.Program>
    requires p <= |s.toks|
  {
    var body :- Body(s, p);
    W.Ok(A.Program(0, s.sourceLen, body.0))
  }

  /** How the result of a parsing method and the cursor it leaves agree with a parsing
      function: the same node and cursor, or the same failure. */
  predicate Agrees<T(==)>(spec: Parsed<T>, r: W.Result<T>, q: nat) {
    match spec
    case Ok(v) => r == W.Ok(v.0) && q == v.1
    case Err(f) => r == W.Err(f)
  }

  /** `body`: statements up to, and not including, an `Eof` or `}`. */
  function Body(s: Stream, p: nat): (r: Parsed<seq<A.Statement>>)
    requires p <= |s.toks|
    ensures Moved(s, p, r)
    decreases |s.toks| - p, 42
  {
    BodyLoop(s, p, [])
  }

  function BodyLoop(s: Stream, p: nat, body: seq<A.Statement>): (r: Parsed<seq<A.Statement>>)
    requires p <= |s.toks|
    ensures Moved(s, p, r)
    decreases |s.toks| - p, 41
  {
    if Cur(s, p).kind == Eof || Cur(s, p).kind == RBrace then
      W.Ok((body, p))
    else
      var statement :- Statement(s, p);
      BodyLoop(s, statement.1, body + [statement.0])
  }

  /** `statement`: dispatch on the current kind. */
  function Statement(s: Stream, p: nat): (r: Parsed<A.Statement>)
    requires p <= |s.toks|
    ensures Consumed(s, p, r)
    decreases |s.toks| - p, 39
  {
    var kind := Cur(s, p).kind;
    if kind == Let then VarDecl(s, p, false)
    else if kind == Function || kind == Async then FnDecl(s, p)
    else if kind == Scope then ScopeDecl(s, p)
    else if kind == If then IfStmt(s, p)
    else if kind == For then ForStmt(s, p)
    else if kind == While then WhileStmt(s, p)
    else if kind == Loop then LoopStmt(s, p)
    else if kind == Continue || kind == Break then JumpStmt(s, p, kind)
    else if kind == Try then TryStmt(s, p)
    else if kind == Throw || kind == Return || kind == Yield then WordStmt(s, p, kind)
    else if kind == Block then BlockDecl(s, p)
    else if kind == LBrace then
      var body :- BlockStmt(s, p);
      W.Ok((A.BlockStatement(body.0), body.1))
    else ExprStmt(s, p)
  }

  /** `block_stmt`: a braced body, or a single statement. */
  function BlockStmt(s: Stream, p: nat): (r: Parsed<seq<A.Statement>>)
    requires p <= |s.toks|
    ensures Consumed(s, p, r)
    decreases |s.toks| - p, if Cur(s, p).kind == LBrace then 38 else 40
  {
    if Cur(s, p).kind == LBrace then
      BracedBody(s, p)
    else
      var statement :- Statement(s, p);
      W.Ok(([statement.0], statement.1))
  }

  /** A braced body; a missing `}` is reported from the `{`. */
  function BracedBody(s: Stream, p: nat): (r: Parsed<seq<A.Statement>>)
    requires p <= |s.toks|
    ensures Consumed(s, p, r)
    decreases |s.toks| - p, 37
  {
    var start := Cur(s, p).start;
    var lbrace :- Eat(s, p, LBrace);
    var body :- Body(s, lbrace.1);
    var closed :- EatWithStart(s, body.1, RBrace, start);
    W.Ok((body.0, closed.1))
  }

  /** `scope_decl`: `scope name body`. */
  function ScopeDecl(s: Stream, p: nat): (r: Parsed<A.Statement>)
    requires p <= |s.toks|
    ensures Consumed(s, p, r)
    decreases |s.toks| - p, 37
  {
    var start := Cur(s, p).start;
    var keyword :- Eat(s, p, Scope);
    var id := Cur(s, keyword.1);
    var named :- Eat(s, keyword.1, Identifier);
    var body :- BlockStmt(s, named.1);
    W.Ok((A.ScopeDeclaration(start, Cur(s, body.1).end, id, body.0), body.1))
  }

  /** An optional `catch` or `finally` clause of `try_stmt`. */
  function Clause(s: Stream, p: nat, kind: TokenKind): (r: Parsed<seq<A.Statement>>)
    requires p <= |s.toks| && kind in {Catch, Finally}
    ensures Moved(s, p, r)
    decreases |s.toks| - p, 37
  {
    if Cur(s, p).kind == kind then
      BlockStmt(s, Advance(s, p))
    else
      W.Ok(([], p))
  }

  /** `try_stmt`. */
  function TryStmt(s: Stream, p: nat): (r: Parsed<A.Statement>)
    requires p <= |s.toks|
    ensures Consumed(s, p, r)
    decreases |s.toks| - p, 37
  {
    var start := Cur(s, p).start;
    var keyword :- Eat(s, p, Try);
    var body :- BlockStmt(s, keyword.1);
    var handler :- Clause(s, body.1, Catch);
    var finalizer :- Clause(s, handler.1, Finally);
    W.Ok((A.TryStatement(start, Cur(s, finalizer.1).end, body.0, handler.0, finalizer.0),
          finalizer.1))
  }

  /** `loop_stmt`. */
  function LoopStmt(s: Stream, p: nat): (r: Parsed<A.Statement>)
    requires p <= |s.toks|
    ensures Consumed(s, p, r)
    decreases |s.toks| - p, 37
  {
    var start := Cur(s, p).start;
    var keyword :- Eat(s, p, Loop);
    var body :- BlockStmt(s, keyword.1);
    W.Ok((A.LoopStatement(start, Cur(s, body.1).end, body.0), body.1))
  }

  /** A parenthesised condition; a missing `)` is reported from the `(`. */
  function Condition(s: Stream, p: nat): (r: Parsed<A.Expression>)
    requires p <= |s.toks|
    ensures Consumed(s, p, r)
    decreases |s.toks| - p, 37
  {
    var start := Cur(s, p).start;
    var lparen :- Eat(s, p, LParen);
    var test :- Expr(s, lparen.1);
    var closed :- EatWithStart(s, test.1, RParen, start);
    W.Ok((test.0, closed.1))
  }

  /** `while_stmt`. */
  function WhileStmt(s: Stream, p: nat): (r: Parsed<A.Statement>)
    requires p <= |s.toks|
    ensures Consumed(s, p, r)
    decreases |s.toks| - p, 37
  {
    var start := Cur(s, p).start;
    var keyword :- Eat(s, p, While);
    var test :- Condition(s, keyword.1);
    var body :- BlockStmt(s, test.1);
    W.Ok((A.WhileStatement(start, Cur(s, body.1).end, test.0, body.0), body.1))
  }

  /** An expression closed by `kind`; a missing closer is reported from where the
      expression started. */
  function ClosedExpr(s: Stream, p: nat, kind: TokenKind): (r: Parsed<A.Expression>)
    requires p <= |s.toks|
    ensures Consumed(s, p, r)
    decreases |s.toks| - p, 37
  {
    var start := Cur(s, p).start;
    var e :- Expr(s, p);
    var closed :- EatWithStart(s, e.1, kind, start);
    W.Ok((e.0, closed.1))
  }

  /** `for_stmt`: `for ( let-declaration test ; update ) body`. */
  function ForStmt(s: Stream, p: nat): (r: Parsed<A.Statement>)
    requires p <= |s.toks|
    ensures Consumed(s, p, r)
    decreases |s.toks| - p, 37
  {
    var start := Cur(s, p).start;
    var keyword :- Eat(s, p, For);
    var lparen :- Eat(s, keyword.1, LParen);
    var setup :- VarDecl(s, lparen.1, true);
    var test :- ClosedExpr(s, setup.1, Semicolon);
    var update :- ClosedExpr(s, test.1, RParen);
    var body :- BlockStmt(s, update.1);
    W.Ok((A.ForStatement(start, Cur(s, body.1).end, setup.0, test.0, update.0, body.0), body.1))
  }

  /** `if_stmt`: an `else` is skipped by `advance` and takes a block or statement. */
  function IfStmt(s: Stream, p: nat): (r: Parsed<A.Statement>)
    requires p <= |s.toks|
    ensures Consumed(s, p, r)
    decreases |s.toks| - p, 37
  {
    var start := Cur(s, p).start;
    var keyword :- Eat(s, p, If);
    var test :- Condition(s, keyword.1);
    var consequent :- BlockStmt(s, test.1);
    if Cur(s, consequent.1).kind == Else then
      var alternate :- BlockStmt(s, Advance(s, consequent.1));
      W.Ok((A.IfStatement(start, Cur(s, alternate.1).end, test.0, consequent.0, alternate.0),
            alternate.1))
    else
      W.Ok((A.IfStatement(start, Cur(s, consequent.1).end, test.0, consequent.0, []),
            consequent.1))
  }

  /** `return_stmt`, `throw_stmt` and `yield_stmt`: keyword, expression, `;`. */
  function WordStmt(s: Stream, p: nat, kind: TokenKind): (r: Parsed<A.Statement>)
    requires p <= |s.toks| && kind in {Return, Throw, Yield}
    ensures Consumed(s, p, r)
    decreases |s.toks| - p, 37
  {
    var start := Cur(s, p).start;
    var keyword :- Eat(s, p, kind);
    var argument :- Expr(s, keyword.1);
    var semicolon :- Eat(s, argument.1, Semicolon);
    var end := Cur(s, semicolon.1).end;
    var statement :=
      if kind == Return then A.ReturnStatement(start, end, argument.0)
      else if kind == Throw then A.ThrowStatement(start, end, argument.0)
      else A.YieldStatement(start, end, argument.0);
    W.Ok((statement, semicolon.1))
  }

  /** `block_decl`: the `block` keyword is skipped and a block statement follows. */
  function BlockDecl(s: Stream, p: nat): (r: Parsed<A.Statement>)
    requires p <= |s.toks| && Cur(s, p).kind == Block
    ensures Consumed(s, p, r)
    decreases |s.toks| - p, 37
  {
    var body :- BlockStmt(s, Advance(s, p));
    W.Ok((A.BlockStatement(body.0), body.1))
  }

  /** `continue_stmt` and `break_stmt`: the keyword alone; no `;` is read. */
  function JumpStmt(s: Stream, p: nat, kind: TokenKind): (r: Parsed<A.Statement>)
    requires p <= |s.toks| && kind in {Continue, Break}
    ensures Consumed(s, p, r)
    decreases |s.toks| - p, 37
  {
    var start := Cur(s, p).start;
    var keyword :- Eat(s, p, kind);
    var end := Cur(s, keyword.1).end;
    W.Ok((if kind == Continue then A.ContinueStatement(start, end) else A.BreakStatement(start, end),
          keyword.1))
  }

  /** `fn_decl`: optional `async`, a skipped keyword, the name, a bracketed parameter list
      and a braced body. */
  function FnDecl(s: Stream, p: nat): (r: Parsed<A.Statement>)
    requires p <= |s.toks|
    ensures Consumed(s, p, r)
    decreases |s.toks| - p, 37
  {
    var start := Cur(s, p).start;
    var isAsync := Cur(s, p).kind == Async;
    var p1 := if isAsync then Advance(s, p) else p;
    var p2 := Advance(s, p1);
    var id := Cur(s, p2);
    var named :- Eat(s, p2, Identifier);
    var params :- ParamList(s, named.1);
    var body :- BracedBody(s, params.1);
    W.Ok((A.FunctionDeclaration(start, Cur(s, body.1).end, id, params.0, body.0, isAsync), body.1))
  }

  /** The bracketed parameter list of `fn_decl`; a missing `]` is reported from the `[`. */
  function ParamList(s: Stream, p: nat): (r: Parsed<seq<Token>>)
    requires p <= |s.toks|
    ensures Consumed(s, p, r)
    decreases |s.toks| - p, 0
  {
    var start := Cur(s, p).start;
    var lbracket :- Eat(s, p, LBracket);
    var params :- ParseParams(s, lbracket.1);
    var closed :- EatWithStart(s, params.1, RBracket, start);
    W.Ok((params.0, closed.1))
  }

  /** `parse_params`: identifiers separated by commas; an empty list consumes its `]`. */
  function ParseParams(s: Stream, p: nat): (r: Parsed<seq<Token>>)
    requires p <= |s.toks|
    ensures Moved(s, p, r)
    decreases |s.toks| - p, 0
  {
    if Cur(s, p).kind == RBracket then
      W.Ok(([], Advance(s, p)))
    else
      var first := Cur(s, p);
      var named :- Eat(s, p, Identifier);
      ParamsLoop(s, named.1, [first])
  }

  function ParamsLoop(s: Stream, p: nat, params: seq<Token>): (r: Parsed<seq<Token>>)
    requires p <= |s.toks|
    ensures Moved(s, p, r)
    decreases |s.toks| - p, 0
  {
    if Cur(s, p).kind == TokenKind.Comma then
      var p1 := Advance(s, p);
      var param := Cur(s, p1);
      var named :- Eat(s, p1, Identifier);
      ParamsLoop(s, named.1, params + [param])
    else
      W.Ok((params, p))
  }

  const AssignOrFormula := "Assign or FormulaAssign"

  /** The initialiser of `var_decl` and whether it is a formula. */
  function VarInit(s: Stream, p: nat, onlyWithInit: bool): (r: Parsed<(A.Expression, bool)>)
    requires p <= |s.toks|
    ensures Moved(s, p, r)
    decreases |s.toks| - p, 36
  {
    var kind := Cur(s, p).kind;
    if kind == TokenKind.Assign || kind == FormulaAssign then
      var init :- Expr(s, Advance(s, p));
      W.Ok(((init.0, kind == FormulaAssign), init.1))
    else if !onlyWithInit then
      W.Ok(((A.Expression.None, false), p))
    else
      W.Err(W.Report(ExpectedMessage(AssignOrFormula, KindText(kind)), Cur(s, p).start, Cur(s, p).end))
  }

  /** `var_decl`: a skipped keyword, the name, the initialiser and `;`. */
  function VarDecl(s: Stream, p: nat, onlyWithInit: bool): (r: Parsed<A.Statement>)
    requires p <= |s.toks|
    ensures Consumed(s, p, r)
    decreases |s.toks| - p, 37
  {
    var start := Cur(s, p).start;
    var p1 := Advance(s, p);
    var id := Cur(s, p1);
    var named :- Eat(s, p1, Identifier);
    var init :- VarInit(s, named.1, onlyWithInit);
    var semicolon :- Eat(s, init.1, Semicolon);
    W.Ok((A.VariableDeclaration(start, Cur(s, semicolon.1).end, id, init.0.0, init.0.1),
          semicolon.1))
  }

  /** `expr_stmt`: an expression and `;`. */
  function ExprStmt(s: Stream, p: nat): (r: Parsed<A.Statement>)
    requires p <= |s.toks|
    ensures Consumed(s, p, r)
    decreases |s.toks| - p, 36
  {
    var e :- Expr(s, p);
    var semicolon :- Eat(s, e.1, Semicolon);
    W.Ok((A.ExpressionStatement(e.0), semicolon.1))
  }
}
