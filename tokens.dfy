/** Tokens, their kinds and values, and the display texts used to build diagnostics
    (types/src/lexer.rs). */
module Tokens {
  import W = Wrappers

  /** One tag set for the whole front end. The lexer spells three of these `Star`, `Slash`
      and `String`; they are `Multiply`, `Divide` and `Str` here. The kinds from `Async` on
      are the keyword kinds the parser dispatches on. */
  datatype TokenKind =
    | Eof | Comment | Unexpected | Start
    | Semicolon | Comma | Colon | Dot
    | Plus | Minus | Multiply | Divide | Power | Range | Modulo
    | BitAnd | BitOr | BitNot | BitXor | BitLeftShift | BitRightShift
    | PlusPlus | MinusMinus | Question
    | And | Or | Xor | Not
    | Assign | FormulaAssign | PlusAssign | MinusAssign | MultiplyAssign | DivideAssign
    | PowerAssign | ModuloAssign
    | Equal | NotEqual | Less | LessEqual | Greater | GreaterEqual
    | LParen | RParen | LBrace | RBrace | LBracket | RBracket
    | Identifier
    | Number | Str
    | True | False
    | If | Else | While | For | Loop | Let | Return | Break | Continue | Function | In
    | Async | Scope | Try | Catch | Finally | Throw | Yield | Block | Await | Delete | New

  /** A decoded literal. A number keeps the text it would be parsed from as a float. */
  datatype TokenValue = None | Number(text: string) | Str(s: string)

  /** A token with its span, as offsets into the source. */
  datatype Token = Token(kind: TokenKind, start: nat, end: nat, value: TokenValue)

  /** The display text of a kind. */
  function KindText(k: TokenKind): (t: string)
    ensures |t| > 0
  {
    match k
    case Eof => "EOF"
    case Comment => "Comment"
    case Unexpected => "Unexpected"
    case Start => "Start"
    case Semicolon => ";"
    case Comma => ","
    case Colon => ":"
    case Dot => "."
    case Plus => "+"
    case Minus => "-"
    case Multiply => "*"
    case Divide => "/"
    case Power => "^"
    case Range => ".."
    case Modulo => "%"
    case BitAnd => "&"
    case BitOr => "|"
    case BitNot => "~"
    case BitXor => "^"
    case BitLeftShift => "<<"
    case BitRightShift => ">>"
    case PlusPlus => "++"
    case MinusMinus => "--"
    case Question => "?"
    case And => "&& or and"
    case Or => "|| or or"
    case Xor => "xor"
    case Not => "! or not"
    case Assign => "="
    case FormulaAssign => ":="
    case PlusAssign => "+="
    case MinusAssign => "-="
    case MultiplyAssign => "*="
    case DivideAssign => "/="
    case PowerAssign => "^="
    case ModuloAssign => "%="
    case Equal => "=="
    case NotEqual => "!="
    case Less => "<"
    case LessEqual => "<="
    case Greater => ">"
    case GreaterEqual => ">="
    case LParen => "("
    case RParen => ")"
    case LBrace => "{"
    case RBrace => "}"
    case LBracket => "["
    case RBracket => "]"
    case Identifier => "Identifier"
    case Number => "Number"
    case Str => "String"
    case True => "true"
    case False => "false"
    case If => "if"
    case Else => "else"
    case While => "while"
    case For => "for"
    case Loop => "loop"
    case Let => "let"
    case Return => "return"
    case Break => "break"
    case Continue => "continue"
    case Function => "function"
    case In => "in"
    case Async => "async"
    case Scope => "scope"
    case Try => "try"
    case Catch => "catch"
    case Finally => "finally"
    case Throw => "throw"
    case Yield => "yield"
    case Block => "block"
    case Await => "await"
    case Delete => "delete"
    case New => "new"
  }

  /** The display text of a value. */
  function ValueText(v: TokenValue): string {
    match v
    case None => ""
    case Number(text) => text
    case Str(s) => s
  }

  /** The display text of a token: its value when it has one, its kind otherwise. */
  function TokenText(t: Token): string {
    match t.value
    case Number(text) => text
    case None => KindText(t.kind)
    case Str(_) => ValueText(t.value)
  }

  /** Display is not injective: two different kinds render "^". */
  lemma KindTextNotInjective()
    ensures Power != BitXor && KindText(Power) == KindText(BitXor) == "^"
  {
  }

  /** The braces render as single characters (the source writes them escaped). */
  lemma BraceTexts()
    ensures KindText(LBrace) == "{" && KindText(RBrace) == "}"
  {
    assert KindText(LBrace) == "{";
  }

  /** A token without a value renders as its kind; a string-valued one as its payload. */
  lemma TokenTextCases(t: Token)
    ensures t.value.None? ==> TokenText(t) == KindText(t.kind)
    ensures t.value.Str? ==> TokenText(t) == t.value.s
    ensures ValueText(TokenValue.None) == ""
  {
  }
}
