/** The syntax tree the parser builds. Every composite node carries the span `start`/`end`
    it was built with; the parser takes `end` from the token current when the node is made. */
module Ast {
  import T = Tokens

  /** The operators `kind_to_op` can produce (parser/src/parser/mod.rs:779-818). */
  datatype Operator =
    | Plus | Minus | Multiply | Divide | Power | Range | Modulo
    | And | Or | Xor
    | BitAnd | BitOr | BitXor
    | BitLeftShift | BitRightShift
    | Assign | FormulaAssign | PlusAssign | MinusAssign | MultiplyAssign | DivideAssign
    | PowerAssign | ModuloAssign
    | Equal | NotEqual | Less | LessEqual | Greater | GreaterEqual

  datatype Expression =
    | Literal(token: T.Token)
    | Identifier(token: T.Token)
    | UnaryExpression(start: nat, end: nat, operator: Operator, right: Expression)
    | BinaryExpression(start: nat, end: nat, left: Expression, operator: Operator, right: Expression)
    | ConditionalExpression(start: nat, end: nat, test: Expression, consequent: Expression,
                            alternate: Expression)
    | CallExpression(start: nat, end: nat, callee: Expression, arguments: Expression)
    | MemberExpression(start: nat, end: nat, base: Expression, property: Expression, isExpr: bool)
    | SequenceExpression(start: nat, end: nat, expressions: seq<Expression>)
    | WordExpression(start: nat, end: nat, keyword: T.TokenKind, argument: Expression)
    | None

  datatype Statement =
    | ExpressionStatement(expression: Expression)
    | BlockStatement(body: seq<Statement>)
    | VariableDeclaration(start: nat, end: nat, id: T.Token, init: Expression, isFormula: bool)
    | FunctionDeclaration(start: nat, end: nat, id: T.Token, params: seq<T.Token>,
                          body: seq<Statement>, isAsync: bool)
    | ScopeDeclaration(start: nat, end: nat, id: T.Token, body: seq<Statement>)
    | IfStatement(start: nat, end: nat, test: Expression, consequent: seq<Statement>,
                  alternate: seq<Statement>)
    | ForStatement(start: nat, end: nat, setup: Statement, test: Expression, update: Expression,
                   body: seq<Statement>)
    | WhileStatement(start: nat, end: nat, test: Expression, body: seq<Statement>)
    | LoopStatement(start: nat, end: nat, body: seq<Statement>)
    | TryStatement(start: nat, end: nat, body: seq<Statement>, handler: seq<Statement>,
                   finalizer: seq<Statement>)
    | ReturnStatement(start: nat, end: nat, argument: Expression)
    | ThrowStatement(start: nat, end: nat, argument: Expression)
    | YieldStatement(start: nat, end: nat, argument: Expression)
    | ContinueStatement(start: nat, end: nat)
    | BreakStatement(start: nat, end: nat)

  /** The whole program: the top-level statements, spanning the source. */
  datatype Program = Program(start: nat, end: nat, body: seq<Statement>)
}
