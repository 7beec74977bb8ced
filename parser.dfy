/** The recursive-descent parser (parser/src/parser/mod.rs) as a class: `pos` and `curToken`
    are the cursor `advance` moves, and each method does what the source's method of the
    same name does. Every method is proved to agree with the parsing function of the same
    name in `ParserSpec`: the same node and new cursor, or the same failure. */
module Parsing {
  import opened Tokens
  import W = Wrappers
  import A = Ast
  import S = ParserSpec
  import P = Precedence

  class Parser {
    /** The tokens the lexer produces for the source. */
    const stream: S.Stream

    /** How many tokens have been consumed. */
    var pos: nat

    /** `cur_token`. */
    var curToken: Token

    ghost predicate Valid()
      reads this
    {
      pos <= |stream.toks| && curToken == S.Cur(stream, pos)
    }

    /** `new` followed by the `eat(Start)` of `parse`: the first token is current. */
    constructor (stream: S.Stream)
      ensures Valid() && this.stream == stream && pos == 0
    {
      this.stream := stream;
      pos := 0;
      curToken := S.Cur(stream, 0);
    }

    /** `advance`. */
    method Advance()
      requires Valid()
      modifies this
      ensures Valid() && pos == S.Advance(stream, old(pos))
    {
      if pos < |stream.toks| {
        pos := pos + 1;
      }
      curToken := S.Cur(stream, pos);
    }

    method EatWithStart(kind: TokenKind, start: nat) returns (r: W.Result<bool>)
      requires Valid()
      modifies this
      ensures Valid() && S.Agrees(S.EatWithStart(stream, old(pos), kind, start), r, pos)
    {
      if curToken.kind == kind {
        Advance();
        return W.Ok(true);
      }
      return W.Err(W.Report(S.ExpectedMessage(KindText(kind), S.GotText(curToken)), start, curToken.end));
    }

    method Eat(kind: TokenKind) returns (r: W.Result<bool>)
      requires Valid()
      modifies this
      ensures Valid() && S.Agrees(S.Eat(stream, old(pos), kind), r, pos)
    {
      r := EatWithStart(kind, curToken.start);
    }

    // ----------------------------------------------------------------------------------
    // Statements

    /** `parse`/`program`. */
    method Parse() returns (r: W.Result<A.Program>)
      requires Valid()
      modifies this
      ensures Valid() && r == S.Program(stream, old(pos))
    {
      var body :- Body();
      return W.Ok(A.Program(0, stream.sourceLen, body));
    }

    method Body() returns (r: W.Result<seq<A.Statement>>)
      requires Valid()
      modifies this
      ensures Valid() && S.Agrees(S.Body(stream, old(pos)), r, pos)
      decreases |stream.toks| - pos, 42
    {
      var body: seq<A.Statement> := [];
      while curToken.kind != Eof && curToken.kind != RBrace
        invariant Valid() && old(pos) <= pos
        invariant S.Body(stream, old(pos)) == S.BodyLoop(stream, pos, body)
        decreases |stream.toks| - pos
      {
        var statement :- Statement();
        body := body + [statement];
      }
      return W.Ok(body);
    }

    method Statement() returns (r: W.Result<A.Statement>)
      requires Valid()
      modifies this
      ensures Valid() && S.Agrees(S.Statement(stream, old(pos)), r, pos)
      decreases |stream.toks| - pos, 39
    {
      var kind := curToken.kind;
      if kind == Let {
        r := VarDecl(false);
      } else if kind == Function || kind == Async {
        r := FnDecl();
      } else if kind == Scope {
        r := ScopeDecl();
      } else if kind == If {
        r := IfStmt();
      } else if kind == For {
        r := ForStmt();
      } else if kind == While {
        r := WhileStmt();
      } else if kind == Loop {
        r := LoopStmt();
      } else if kind == Continue || kind == Break {
        r := JumpStmt(kind);
      } else if kind == Try {
        r := TryStmt();
      } else if kind == Throw || kind == Return || kind == Yield {
        r := WordStmt(kind);
      } else if kind == Block {
        r := BlockDecl();
      } else if kind == LBrace {
        var body :- BlockStmt();
        r := W.Ok(A.BlockStatement(body));
      } else {
        r := ExprStmt();
      }
    }

    method BlockStmt() returns (r: W.Result<seq<A.Statement>>)
      requires Valid()
      modifies this
      ensures Valid() && S.Agrees(S.BlockStmt(stream, old(pos)), r, pos)
      decreases |stream.toks| - pos, if curToken.kind == LBrace then 38 else 40
    {
      if curToken.kind == LBrace {
        r := BracedBody();
      } else {
        var statement :- Statement();
        r := W.Ok([statement]);
      }
    }

    method BracedBody() returns (r: W.Result<seq<A.Statement>>)
      requires Valid()
      modifies this
      ensures Valid() && S.Agrees(S.BracedBody(stream, old(pos)), r, pos)
      decreases |stream.toks| - pos, 37
    {
      var start := curToken.start;
      var _ :- Eat(LBrace);
      var body :- Body();
      var _ :- EatWithStart(RBrace, start);
      return W.Ok(body);
    }

    method ScopeDecl() returns (r: W.Result<A.Statement>)
      requires Valid()
      modifies this
      ensures Valid() && S.Agrees(S.ScopeDecl(stream, old(pos)), r, pos)
      decreases |stream.toks| - pos, 37
    {
      var start := curToken.start;
      var _ :- Eat(Scope);
      var id := curToken;
      var _ :- Eat(Identifier);
      var body :- BlockStmt();
      return W.Ok(A.ScopeDeclaration(start, curToken.end, id, body));
    }

    method Clause(kind: TokenKind) returns (r: W.Result<seq<A.Statement>>)
      requires Valid() && kind in {Catch, Finally}
      modifies this
      ensures Valid() && S.Agrees(S.Clause(stream, old(pos), kind), r, pos)
      decreases |stream.toks| - pos, 37
    {
      if curToken.kind == kind {
        Advance();
        r := BlockStmt();
      } else {
        r := W.Ok([]);
      }
    }

    method TryStmt() returns (r: W.Result<A.Statement>)
      requires Valid()
      modifies this
      ensures Valid() && S.Agrees(S.TryStmt(stream, old(pos)), r, pos)
      decreases |stream.toks| - pos, 37
    {
      var start := curToken.start;
      var _ :- Eat(Try);
      var body :- BlockStmt();
      var handler :- Clause(Catch);
      var finalizer :- Clause(Finally);
      return W.Ok(A.TryStatement(start, curToken.end, body, handler, finalizer));
    }

    method LoopStmt() returns (r: W.Result<A.Statement>)
      requires Valid()
      modifies this
      ensures Valid() && S.Agrees(S.LoopStmt(stream, old(pos)), r, pos)
      decreases |stream.toks| - pos, 37
    {
      var start := curToken.start;
      var _ :- Eat(Loop);
      var body :- BlockStmt();
      return W.Ok(A.LoopStatement(start, curToken.end, body));
    }

    method Condition() returns (r: W.Result<A.Expression>)
      requires Valid()
      modifies this
      ensures Valid() && S.Agrees(S.Condition(stream, old(pos)), r, pos)
      decreases |stream.toks| - pos, 37
    {
      var start := curToken.start;
      var _ :- Eat(LParen);
      var test :- Expr();
      var _ :- EatWithStart(RParen, start);
      return W.Ok(test);
    }

    method WhileStmt() returns (r: W.Result<A.Statement>)
      requires Valid()
      modifies this
      ensures Valid() && S.Agrees(S.WhileStmt(stream, old(pos)), r, pos)
      decreases |stream.toks| - pos, 37
    {
      var start := curToken.start;
      var _ :- Eat(While);
      var test :- Condition();
      var body :- BlockStmt();
      return W.Ok(A.WhileStatement(start, curToken.end, test, body));
    }

    method ClosedExpr(kind: TokenKind) returns (r: W.Result<A.Expression>)
      requires Valid()
      modifies this
      ensures Valid() && S.Agrees(S.ClosedExpr(stream, old(pos), kind), r, pos)
      decreases |stream.toks| - pos, 37
    {
      var start := curToken.start;
      var e :- Expr();
      var _ :- EatWithStart(kind, start);
      return W.Ok(e);
    }

    method ForStmt() returns (r: W.Result<A.Statement>)
      requires Valid()
      modifies this
      ensures Valid() && S.Agrees(S.ForStmt(stream, old(pos)), r, pos)
      decreases |stream.toks| - pos, 37
    {
      var start := curToken.start;
      var _ :- Eat(For);
      var _ :- Eat(LParen);
      var setup :- VarDecl(true);
      var test :- ClosedExpr(Semicolon);
      var update :- ClosedExpr(RParen);
      var body :- BlockStmt();
      return W.Ok(A.ForStatement(start, curToken.end, setup, test, update, body));
    }

    method IfStmt() returns (r: W.Result<A.Statement>)
      requires Valid()
      modifies this
      ensures Valid() && S.Agrees(S.IfStmt(stream, old(pos)), r, pos)
      decreases |stream.toks| - pos, 37
    {
      var start := curToken.start;
      var _ :- Eat(If);
      var test :- Condition();
      var consequent :- BlockStmt();
      var alternate := [];
      if curToken.kind == Else {
        Advance();
        alternate :- BlockStmt();
      }
      return W.Ok(A.IfStatement(start, curToken.end, test, consequent, alternate));
    }

    method WordStmt(kind: TokenKind) returns (r: W.Result<A.Statement>)
      requires Valid() && kind in {Return, Throw, Yield}
      modifies this
      ensures Valid() && S.Agrees(S.WordStmt(stream, old(pos), kind), r, pos)
      decreases |stream.toks| - pos, 37
    {
      var start := curToken.start;
      var _ :- Eat(kind);
      var argument :- Expr();
      var _ :- Eat(Semicolon);
      var end := curToken.end;
      if kind == Return {
        r := W.Ok(A.ReturnStatement(start, end, argument));
      } else if kind == Throw {
        r := W.Ok(A.ThrowStatement(start, end, argument));
      } else {
        r := W.Ok(A.YieldStatement(start, end, argument));
      }
    }

    method BlockDecl() returns (r: W.Result<A.Statement>)
      requires Valid() && curToken.kind == Block
      modifies this
      ensures Valid() && S.Agrees(S.BlockDecl(stream, old(pos)), r, pos)
      decreases |stream.toks| - pos, 37
    {
      Advance();
      var body :- BlockStmt();
      return W.Ok(A.BlockStatement(body));
    }

    method JumpStmt(kind: TokenKind) returns (r: W.Result<A.Statement>)
      requires Valid() && kind in {Continue, Break}
      modifies this
      ensures Valid() && S.Agrees(S.JumpStmt(stream, old(pos), kind), r, pos)
      decreases |stream.toks| - pos, 37
    {
      var start := curToken.start;
      var _ :- Eat(kind);
      if kind == Continue {
        r := W.Ok(A.ContinueStatement(start, curToken.end));
      } else {
        r := W.Ok(A.BreakStatement(start, curToken.end));
      }
    }

    method FnDecl() returns (r: W.Result<A.Statement>)
      requires Valid()
      modifies this
      ensures Valid() && S.Agrees(S.FnDecl(stream, old(pos)), r, pos)
      decreases |stream.toks| - pos, 37
    {
      var start := curToken.start;
      var isAsync := false;
      if curToken.kind == Async {
        Advance();
        isAsync := true;
      }
      Advance();
      var id := curToken;
      var _ :- Eat(Identifier);
      var params :- ParamList();
      var body :- BracedBody();
      return W.Ok(A.FunctionDeclaration(start, curToken.end, id, params, body, isAsync));
    }

    method ParamList() returns (r: W.Result<seq<Token>>)
      requires Valid()
      modifies this
      ensures Valid() && S.Agrees(S.ParamList(stream, old(pos)), r, pos)
    {
      var start := curToken.start;
      var _ :- Eat(LBracket);
      var params :- ParseParams();
      var _ :- EatWithStart(RBracket, start);
      return W.Ok(params);
    }

    method ParseParams() returns (r: W.Result<seq<Token>>)
      requires Valid()
      modifies this
      ensures Valid() && S.Agrees(S.ParseParams(stream, old(pos)), r, pos)
    {
      if curToken.kind == RBracket {
        Advance();
        return W.Ok([]);
      }
      var params := [curToken];
      var _ :- Eat(Identifier);
      r := ParamsRest(params);
    }

    /** The comma-separated identifiers after the first parameter, appended to `params`. */
    method ParamsRest(params: seq<Token>) returns (r: W.Result<seq<Token>>)
      requires Valid()
      modifies this
      ensures Valid() && S.Agrees(S.ParamsLoop(stream, old(pos), params), r, pos)
    {
      var read := params;
      while curToken.kind == TokenKind.Comma
        invariant Valid() && old(pos) <= pos
        invariant S.ParamsLoop(stream, old(pos), params) == S.ParamsLoop(stream, pos, read)
        decreases |stream.toks| - pos
      {
        ghost var p0 := pos;
        Advance();
        assert S.ParamsLoop(stream, p0, read)
            == (var named :- S.Eat(stream, pos, Identifier); S.ParamsLoop(stream, named.1, read + [curToken]));
        read := read + [curToken];
        var _ :- Eat(Identifier);
      }
      return W.Ok(read);
    }

    method VarInit(onlyWithInit: bool) returns (r: W.Result<(A.Expression, bool)>)
      requires Valid()
      modifies this
      ensures Valid() && S.Agrees(S.VarInit(stream, old(pos), onlyWithInit), r, pos)
      decreases |stream.toks| - pos, 36
    {
      var kind := curToken.kind;
      if kind == TokenKind.Assign || kind == FormulaAssign {
        Advance();
        var init :- Expr();
        return W.Ok((init, kind == FormulaAssign));
      } else if !onlyWithInit {
        return W.Ok((A.Expression.None, false));
      }
      return W.Err(W.Report(S.ExpectedMessage(S.AssignOrFormula, KindText(kind)), curToken.start, curToken.end));
    }

    method VarDecl(onlyWithInit: bool) returns (r: W.Result<A.Statement>)
      requires Valid()
      modifies this
      ensures Valid() && S.Agrees(S.VarDecl(stream, old(pos), onlyWithInit), r, pos)
      decreases |stream.toks| - pos, 37
    {
      var start := curToken.start;
      Advance();
      var id := curToken;
      var _ :- Eat(Identifier);
      var init :- VarInit(onlyWithInit);
      var _ :- Eat(Semicolon);
      return W.Ok(A.VariableDeclaration(start, curToken.end, id, init.0, init.1));
    }

    method ExprStmt() returns (r: W.Result<A.Statement>)
      requires Valid()
      modifies this
      ensures Valid() && S.Agrees(S.ExprStmt(stream, old(pos)), r, pos)
      decreases |stream.toks| - pos, 36
    {
      var e :- Expr();
      var _ :- Eat(Semicolon);
      return W.Ok(A.ExpressionStatement(e));
    }

    // ----------------------------------------------------------------------------------
    // Expressions

    method Expr() returns (r: W.Result<A.Expression>)
      requires Valid()
      modifies this
      ensures Valid() && S.Agrees(S.Expr(stream, old(pos)), r, pos)
      decreases |stream.toks| - pos, 35
    {
      r := Comma(false);
    }

    method Comma(onlySequence: bool) returns (r: W.Result<A.Expression>)
      requires Valid()
      modifies this
      ensures Valid() && S.Agrees(S.Comma(stream, old(pos), onlySequence), r, pos)
      decreases |stream.toks| - pos, 34
    {
      var start := curToken.start;
      var first :- Assign();
      ghost var q0 := pos;
      var nodes := [first];
      while curToken.kind == TokenKind.Comma
        invariant Valid() && q0 <= pos
        invariant S.CommaLoop(stream, q0, [first]) == S.CommaLoop(stream, pos, nodes)
        decreases |stream.toks| - pos
      {
        Advance();
        var next :- Assign();
        nodes := nodes + [next];
      }
      if !onlySequence && |nodes| == 1 {
        return W.Ok(nodes[0]);
      }
      return W.Ok(S.SequenceNode(stream, pos, start, nodes));
    }

    method Assign() returns (r: W.Result<A.Expression>)
      requires Valid()
      modifies this
      ensures Valid() && S.Agrees(S.Assign(stream, old(pos)), r, pos)
      decreases |stream.toks| - pos, 33
    {
      var start := curToken.start;
      var left :- Ternary();
      if curToken.kind in S.AssignKinds {
        var kind := curToken.kind;
        Advance();
        var right :- Assign();
        var node :- S.BinaryNode(stream, pos, start, left, right, kind);
        return W.Ok(node);
      }
      return W.Ok(left);
    }

    method Ternary() returns (r: W.Result<A.Expression>)
      requires Valid()
      modifies this
      ensures Valid() && S.Agrees(S.Ternary(stream, old(pos)), r, pos)
      decreases |stream.toks| - pos, 32
    {
      var start := curToken.start;
      var node :- LeftTier(S.RangeTier);
      ghost var q0 := pos;
      ghost var test := node;
      while curToken.kind == Question
        invariant Valid() && q0 <= pos
        invariant S.TernaryLoop(stream, q0, start, test) == S.TernaryLoop(stream, pos, start, node)
        decreases |stream.toks| - pos
      {
        Advance();
        var consequent :- LeftTier(S.RangeTier);
        var _ :- Eat(Colon);
        var alternate :- Expr();
        node := S.ConditionalNode(stream, pos, start, node, consequent, alternate);
      }
      return W.Ok(node);
    }

    /** A left-associative tier: the first arm of the `parser!` macro
        (parser/src/parser/macro_utils.rs:3-17). */
    method LeftTier(t: S.Tier) returns (r: W.Result<A.Expression>)
      requires Valid()
      modifies this
      ensures Valid() && S.Agrees(S.LeftTier(t, stream, old(pos)), r, pos)
      decreases |stream.toks| - pos, 2 * S.Level(t) + 1
    {
      var start := curToken.start;
      var node :- SubOp(t);
      ghost var q0 := pos;
      ghost var first := node;
      while curToken.kind in S.Kinds(t)
        invariant Valid() && q0 <= pos
        invariant S.LeftLoop(t, stream, q0, start, first) == S.LeftLoop(t, stream, pos, start, node)
        decreases |stream.toks| - pos
      {
        var current := curToken;
        Advance();
        var right :- SubOp(t);
        node :- S.BinaryNode(stream, pos, start, node, right, current.kind);
      }
      return W.Ok(node);
    }

    /** The second arm of `parser!` (macro_utils.rs:19-42): the groups run in turn, each
        looping while the current kind is one of its kinds, optionally eating the operator,
        and recording its substitute kind or, when that is `Unexpected`, the kind current
        after the eat. */
    method BinaryGroups(groups: seq<P.Group>, t: S.Tier) returns (r: W.Result<A.Expression>)
      requires Valid()
      modifies this
      ensures Valid() && S.Agrees(P.ArmTwo(groups, t, stream, old(pos)), r, pos)
    {
      var start := curToken.start;
      var node :- LeftTier(t);
      var i := 0;
      while i < |groups|
        invariant Valid() && 0 <= i <= |groups|
        invariant P.ArmTwo(groups, t, stream, old(pos)) == P.GroupsFrom(groups[i..], t, stream, pos, start, node)
      {
        assert groups[i..][1..] == groups[i + 1..];
        node :- Group(groups[i], t, start, node);
        i := i + 1;
      }
      return W.Ok(node);
    }

    /** The loop of one group of the second arm. */
    method Group(g: P.Group, t: S.Tier, start: nat, node: A.Expression) returns (r: W.Result<A.Expression>)
      requires Valid()
      modifies this
      ensures Valid() && S.Agrees(P.GroupLoop(g, t, stream, old(pos), start, node), r, pos)
    {
      var built := node;
      while curToken.kind in g.kinds
        invariant Valid()
        invariant P.GroupLoop(g, t, stream, old(pos), start, node) == P.GroupLoop(g, t, stream, pos, start, built)
        decreases |stream.toks| - pos
      {
        if g.eat {
          Advance();
        }
        var operator := if g.sub != Unexpected then g.sub else curToken.kind;
        var right :- LeftTier(t);
        built :- S.BinaryNode(stream, pos, start, built, right, operator);
      }
      return W.Ok(built);
    }

    method SubOp(t: S.Tier) returns (r: W.Result<A.Expression>)
      requires Valid()
      modifies this
      ensures Valid() && S.Agrees(S.SubOp(t, stream, old(pos)), r, pos)
      decreases |stream.toks| - pos, 2 * S.Level(t)
    {
      match t
      case PowerTier => r := Factor();
      case AddSubTier => r := Term();
      case _ => r := LeftTier(S.Next(t));
    }

    method Term() returns (r: W.Result<A.Expression>)
      requires Valid()
      modifies this
      ensures Valid() && S.Agrees(S.Term(stream, old(pos)), r, pos)
      decreases |stream.toks| - pos, 12
    {
      var start := curToken.start;
      var expr :- LeftTier(S.PowerTier);
      ghost var q0 := pos;
      ghost var first := expr;
      while curToken.kind in S.JuxtaposedKinds
        invariant Valid() && q0 <= pos
        invariant S.JuxtLoop(stream, q0, start, first) == S.JuxtLoop(stream, pos, start, expr)
        decreases |stream.toks| - pos
      {
        var right :- LeftTier(S.PowerTier);
        expr :- S.BinaryNode(stream, pos, start, expr, right, Multiply);
      }
      while curToken.kind in S.MultiplicativeKinds
        invariant Valid() && q0 <= pos
        invariant S.JuxtLoop(stream, q0, start, first) == S.MulLoop(stream, pos, start, expr)
        decreases |stream.toks| - pos
      {
        var operator := curToken.kind;
        Advance();
        var right :- LeftTier(S.PowerTier);
        expr :- S.BinaryNode(stream, pos, start, expr, right, operator);
      }
      return W.Ok(expr);
    }

    method Factor() returns (r: W.Result<A.Expression>)
      requires Valid()
      modifies this
      ensures Valid() && S.Agrees(S.Factor(stream, old(pos)), r, pos)
      decreases |stream.toks| - pos, 7
    {
      var token := curToken;
      if token.kind in S.LiteralKinds {
        Advance();
        return W.Ok(A.Literal(token));
      } else if token.kind == LParen {
        Advance();
        var node :- Expr();
        var _ :- EatWithStart(RParen, token.start);
        return W.Ok(node);
      } else if token.kind == LBracket {
        r := ReadSeqExpr();
      } else if token.kind in S.PrefixKinds {
        Advance();
        var right :- Factor();
        r := S.UnaryNode(stream, pos, token.start, token.kind, right);
      } else {
        r := WordExpr(S.AwaitTier);
      }
    }

    method ReadSeqExpr() returns (r: W.Result<A.Expression>)
      requires Valid() && curToken.kind == LBracket
      modifies this
      ensures Valid() && S.Agrees(S.ReadSeqExpr(stream, old(pos)), r, pos)
      decreases |stream.toks| - pos, 6
    {
      var token := curToken;
      Advance();
      if curToken.kind == RBracket {
        Advance();
        return W.Ok(S.SequenceNode(stream, pos, token.start, []));
      }
      var node :- Comma(true);
      var _ :- EatWithStart(RBracket, token.start);
      return W.Ok(S.SequenceNode(stream, pos, token.start, S.Items(node)));
    }

    method WordExpr(w: S.WordTier) returns (r: W.Result<A.Expression>)
      requires Valid()
      modifies this
      ensures Valid() && S.Agrees(S.WordExpr(w, stream, old(pos)), r, pos)
      decreases |stream.toks| - pos, S.WordRank(w)
    {
      if curToken.kind == S.Keyword(w) {
        var start := curToken.start;
        Advance();
        var argument :- WordExpr(w);
        return W.Ok(A.WordExpression(start, curToken.end, S.Keyword(w), argument));
      }
      match w
      case AwaitTier => r := WordExpr(S.DeleteTier);
      case DeleteTier => r := WordExpr(S.NewTier);
      case NewTier => r := Dot();
    }

    method Dot() returns (r: W.Result<A.Expression>)
      requires Valid()
      modifies this
      ensures Valid() && S.Agrees(S.Dot(stream, old(pos)), r, pos)
      decreases |stream.toks| - pos, 2
    {
      var start := curToken.start;
      var first :- Call();
      ghost var q0 := pos;
      var node := first.0;
      while curToken.kind == TokenKind.Dot
        invariant Valid() && q0 <= pos
        invariant S.DotLoop(stream, q0, start, first.0) == S.DotLoop(stream, pos, start, node)
        decreases |stream.toks| - pos
      {
        Advance();
        var property :- Call();
        node := S.MemberNode(stream, pos, start, node, property.0, property.1);
      }
      return W.Ok(node);
    }

    method Call() returns (r: W.Result<(A.Expression, bool)>)
      requires Valid()
      modifies this
      ensures Valid() && S.Agrees(S.Call(stream, old(pos)), r, pos)
      decreases |stream.toks| - pos, 1
    {
      var token := curToken;
      if token.kind == Identifier {
        Advance();
        if curToken.kind == LBracket {
          var sequenceStart := curToken.start;
          Advance();
          if curToken.kind == RBracket {
            Advance();
            var arguments := S.SequenceNode(stream, pos, sequenceStart, []);
            return W.Ok((S.CallNode(stream, pos, sequenceStart, A.Identifier(token), arguments), true));
          }
          var node :- Expr();
          var _ :- EatWithStart(RBracket, token.start);
          var arguments := S.SequenceNode(stream, pos, sequenceStart, S.Items(node));
          return W.Ok((S.CallNode(stream, pos, token.start, A.Identifier(token), arguments), true));
        }
        return W.Ok((A.Identifier(token), false));
      } else if token.kind == LBracket {
        Advance();
        var node :- Expr();
        var _ :- EatWithStart(RBracket, token.start);
        return W.Ok((node, true));
      }
      return W.Err(W.Report(S.ExpectedMessage(S.IdentifierOrBracket, KindText(token.kind)), token.start, token.end));
    }
  }
}
