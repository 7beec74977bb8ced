# A verified model of the SymboScript front end and scope vault

This project models, in Dafny, five parts of SymboScript, a small scripting language:

- **The lexer.** A cursor over the source text that skips white space and then dispatches on the next character:
  - one-character look-ahead for the two-character operators;
  - the dot rule (`..`, a leading-dot number, or a plain dot);
  - numbers, identifiers and keywords, quoted strings with backslash skips, and `#` comments.
- **The token types and their display texts.** These build the parser's diagnostics.
- **The `parser!` loop macro.** It has two arms:
  - the left-nested loop `operand (op operand)*`;
  - a multi-group variant, where each group has an eat flag and a substitute operator kind.
- **The recursive-descent parser.**
  - Statements are dispatched by keyword, with one method per precedence tier.
  - `term` multiplies juxtaposed operands, as in `2x`.
  - It handles bracket sequences and calls.
  - `let` initialisers follow their own rules.
  - Diagnostics are anchored at the opening delimiter.
- **The interpreter's scope vault.**
  - A map holds a record for each scope path (`global.$0`, `global.Foo.$0`, …).
  - A stack holds the active paths, and its top is the current scope.
  - Named-scope declarations and blocks enter and leave scopes.

Each stateful piece has two parts. First, a pure specification function gives the result of each step and the state after it. Second, an imperative class runs the same steps in place:

- `Lexing.Lexer`: the cursor moves one character at a time.
- `Parsing.Parser`: the cursor moves one token at a time.
- `Interpreting.Interpreter`: the vault, stack and current scope are updated by insert, remove, push and pop.

Each class method is proved to reach exactly the state, and return exactly the result, that its specification function gives. Separate modules then prove what these functions promise:

- `LexerProps`: the lexer.
- `Precedence`: the precedence loop.
- `ParserProps`: the parser.
- `StatementProps`: `ternary`, the statement parsers' closing delimiters, and parameter lists.
- `VaultProps`: the vault.
- `ScopeFindings`: where the vault loses track of named scopes.

File layout:

| file | contents |
|---|---|
| wrappers.dfy | `Option`, `Result` and `Failure`. A failure is a report `(message, start, end)` handed to the error reporter, or a panic. |
| tokens.dfy | `TokenKind`, `TokenValue`, `Token` and the three display mappings |
| lexer.dfy | the scanning functions and the class `Lexer` |
| lexer_props.dfy | what `tokenize` returns, spans, the dot and number rules, keywords, strings, comments and values |
| ast.dfy | the syntax tree the parser builds |
| parser_spec.dfy | the parser as functions of a token stream and a cursor |
| parser.dfy | the class `Parser`, with one method per parsing method of the source |
| precedence.dfy | both arms of the `parser!` macro |
| parser_props.dfy | properties of `body`, `comma`, `term`, `factor`, `var_decl`, `read_seq_expr`, `call` and `parse_params` |
| statement_props.dfy | properties of `ternary`, of the delimiters that `block_stmt`, `while_stmt`, `if_stmt`, `for_stmt` and `fn_decl` check, and of a non-empty `parse_params` |
| scope_paths.dfy | scope paths: how they are formatted, and how they are split and parsed back |
| vault.dfy | the vault operations as functions from state to state |
| interpreter.dfy | the class `Interpreter` |
| vault_props.dfy | the effect of each scope operation, and the restoring pairs |
| scope_findings.dfy | re-entry of named scopes and clean-up of nested ones, as written and as corrected |

The source files disagree about some kind names:

- The lexer writes `Star`, `Slash` and `String`, where the token types have `Multiply`, `Divide` and `Str`. The model uses the latter.
- The parser dispatches on keyword kinds the token enum lacks (`Scope`, `Async`, `Try`, `Block`, …). One `TokenKind` covers all of these names. Their display texts are assumed, as "## Left out" says.

The parser is driven by a token sequence. Past its last token, the current token is an `Eof` at the end of the source, as the live lexer would give.

The model keeps these behaviours of the code as it is written:

- `peek_two` reads the same character as `peek`, so `3.14` is two number tokens, `3` and `.14`.
- The prefix operators `!`, `++`, `--` and `~` reach `kind_to_op`, which has no arm for them, so they panic.
- An empty parameter list fails, because `parse_params` consumes its `]`.
- Re-entering a named scope replaces its record, dropping the references to the named scopes entered from it.

All of these except the prefix-operator panic are listed under "## Findings", each with a corrected definition beside it. The rest of the model follows the code as written.

## Model

| member | source | states |
|---|---|---|
| Tokens.KindText | types/src/lexer.rs:122-202 | every token kind has a display text, and it is never empty |
| Tokens.KindTextNotInjective | types/src/lexer.rs:139-146 | `Power` and `BitXor` are different kinds that both display as `^` |
| Tokens.BraceTexts | types/src/lexer.rs:177-178 | `LBrace` displays as `{` and `RBrace` as `}`, one character each, although the source writes them escaped |
| Tokens.TokenText | types/src/lexer.rs:19-27 | the display of a token: a number shows its text, a valueless token its kind, a string token its value; the cases are stated by `Tokens.TokenTextCases` |
| Tokens.TokenTextCases | types/src/lexer.rs:19-26 | a token without a value displays as its kind's text; a string-valued token displays as its payload; the empty value displays as the empty string |
| Lexing.TrimStart | lexer/src/lexer/mod.rs:199 | the result is a suffix of the text; every character dropped is white space, and a non-empty result does not start with white space |
| Lexing.TrimEnd | lexer/src/lexer/mod.rs:199 | the result is a prefix of the text; every character dropped is white space, and a non-empty result does not end with white space |
| Lexing.TriviaEnd | lexer/src/lexer/mod.rs:43-52 | the end of the maximal run of spaces, tabs and line breaks from `p` |
| Lexing.NumberEnd | lexer/src/lexer/mod.rs:103-129 | the end of the maximal run of digits from `p`; a `.`, `e` or `E` always ends it |
| Lexing.CommentEnd | lexer/src/lexer/mod.rs:131-144 | just past the first newline from `p`, or the end of the input; no newline lies before that |
| Lexing.StringScan | lexer/src/lexer/mod.rs:146-163 | a string token ends just after a copy of the quote; anything else is `Unexpected` and consumes the rest of the input |
| Lexing.IdentEnd | lexer/src/lexer/mod.rs:165-176 | the end of the maximal run of letters, digits and `_` from `p` |
| Lexing.KindScan | lexer/src/lexer/mod.rs:54-91 | `Eof` exactly at the end of the input, consuming nothing; every other kind consumes at least one character; a string starts with a quote and ends with the same one, at least two characters long; a comment starts with `#` |
| Lexing.MatchKeyword | lexer/src/lexer/mod.rs:240-264 | the kind is never `Eof` or `Unexpected` |
| Lexing.Decode | lexer/src/lexer/mod.rs:199-237 | the token spans exactly the scanned lexeme, and it is `Eof` exactly when the scan was |
| Lexing.NextTokenAt | lexer/src/lexer/mod.rs:193-238 | a token starts after only trivia from `p` and ends where the cursor is left. It is `Eof` exactly at the end of the input. Otherwise it is non-empty and starts on a non-trivia character. A failure is the "Unexpected token" report with a span inside the source. |
| Lexing.TrimKeepsSolidEnds | lexer/src/lexer/mod.rs:199 | trimming keeps a text that starts and ends with a non-white-space character |
| Lexing.QuotedTextKept | lexer/src/lexer/mod.rs:199-220 | trimming leaves a quoted lexeme as it is, so the string slice is taken between its quotes |
| Lexing.TokenizeFrom | lexer/src/lexer/mod.rs:29-41 | `tokenize` from a cursor: `next_token` repeatedly, collecting tokens until `Eof`, or the first report; characterised by `LexerProps.TokenizeIsChain` |
| Lexing.TokenizeStep | lexer/src/lexer/mod.rs:29-41 | one round of `tokenize`: an error ends it; `Eof` ends it with no more tokens; any other token is followed by the tokens after it |
| Lexing.Lexer.constructor | lexer/src/lexer/mod.rs:17-23 | the cursor is at the start of the source |
| Lexing.Lexer.Offset | lexer/src/lexer/mod.rs:266-269 | the offset is within the source |
| Lexing.Lexer.PeekTwo | lexer/src/lexer/mod.rs:275-279 | `peek_two` returns the same character as `peek` |
| Lexing.Lexer.Next | lexer/src/lexer/mod.rs:25-27 | returns the character at the cursor and moves one on, or stays at the end |
| Lexing.Lexer.SkipTrivia | lexer/src/lexer/mod.rs:43-52 | leaves the cursor at `TriviaEnd` |
| Lexing.Lexer.ReadOneMore | lexer/src/lexer/mod.rs:178-191 | returns the wide kind and consumes `ch` when `ch` is next; otherwise returns the narrow kind and consumes nothing |
| Lexing.Lexer.ReadDot | lexer/src/lexer/mod.rs:93-101 | `..` is a range; a dot before a digit reads a number; any other dot is a dot |
| Lexing.Lexer.ReadNumber | lexer/src/lexer/mod.rs:103-129 | the kind is `Number` and the cursor is at `NumberEnd` |
| Lexing.Lexer.ReadComment | lexer/src/lexer/mod.rs:131-144 | the kind is `Comment` and the cursor is at `CommentEnd` |
| Lexing.Lexer.ReadString | lexer/src/lexer/mod.rs:146-163 | the kind and the cursor are those of `StringScan` |
| Lexing.Lexer.ReadIdentifier | lexer/src/lexer/mod.rs:165-176 | the kind is `Identifier` and the cursor is at `IdentEnd` |
| Lexing.Lexer.NextKind | lexer/src/lexer/mod.rs:54-91 | the kind and the cursor are those of `KindScan` |
| Lexing.Lexer.NextToken | lexer/src/lexer/mod.rs:193-238 | the token, the cursor and the failure are those of `NextTokenAt` |
| Lexing.Lexer.Tokenize | lexer/src/lexer/mod.rs:29-41 | returns `TokenizeFrom`, the tokens up to the first `Eof`, or the first failure |
| LexerProps.TokenizeIsChain | lexer/src/lexer/mod.rs:29-41 | `tokenize` returns `ts` if and only if successive `next_token` calls yield exactly `ts` before the first `Eof` |
| LexerProps.TokenizeError | lexer/src/lexer/mod.rs:226-228 | a lexing failure is the "Unexpected token" report, with a non-empty span inside the source |
| LexerProps.ChainHead | lexer/src/lexer/mod.rs:193-197 | the first token is not `Eof`, is a non-empty span inside the source, has only trivia before it, and the rest follows from its end |
| LexerProps.ChainEnd | lexer/src/lexer/mod.rs:34-52 | when `tokenize` stops, only trivia is left |
| LexerProps.ChainOrdered | lexer/src/lexer/mod.rs:29-41 | no token is `Eof`; every token is a non-empty span inside the source; tokens appear in source order without overlapping |
| LexerProps.ChainGaps | lexer/src/lexer/mod.rs:43-52 | every character that no token spans is trivia |
| LexerProps.TokenizeSpans | lexer/src/lexer/mod.rs:29-52 | from the start of the source, the tokens are non-`Eof`, non-empty and ordered, and everything between them is trivia |
| LexerProps.OneMoreRule | lexer/src/lexer/mod.rs:57-82 | an operator character followed by `=` scans as the wide kind over two characters, and otherwise as the narrow kind over one (`+=`, `:=`, a lone `=`) |
| LexerProps.RangeBetweenNumbers | lexer/src/lexer/mod.rs:93-129 | `3..4` scans as `Number`, `Range`, `Number`, then `Eof` |
| LexerProps.NumberLexeme | lexer/src/lexer/mod.rs:93-129 | a number lexeme is a run of digits, or a dot followed by a non-empty run of digits; no digit follows it |
| LexerProps.DotCases | lexer/src/lexer/mod.rs:80-101 | `..` is a range over two characters; a dot before a digit is a number of at least two characters; any other dot is a one-character `Dot` |
| LexerProps.IntendedNumberEnd | lexer/src/lexer/mod.rs:109-119 | the number the look-ahead was meant to continue ends within the input, and no digit follows it |
| LexerProps.DigitRunEnd | lexer/src/lexer/mod.rs:106-108 | under the corrected rule, a maximal digit run leads to the same end as its last position |
| LexerProps.DecimalSplitsAsWritten | lexer/src/lexer/mod.rs:109-122 | as written, `a.b` with digit runs `a` and `b` scans as two numbers, `a` and `.b` |
| LexerProps.DigitsAt | lexer/src/lexer/mod.rs:83-129 | a maximal run of digits is one number lexeme |
| LexerProps.NumberRun | lexer/src/lexer/mod.rs:104-108 | skipping digits does not change where the number ends |
| LexerProps.DecimalWholeIntended | lexer/src/lexer/mod.rs:109-119 | corrected, `a.b` is one number spanning all of it |
| LexerProps.ThreePointOneFour | lexer/src/lexer/mod.rs:103-129 | `3.14` scans as `3` and then `.14`; corrected, it is one number of four characters |
| LexerProps.KeywordTable | lexer/src/lexer/mod.rs:240-264 | `match_keyword` is the lookup in the keyword table; identifiers of length 1 or over 10 are never keywords, and the length guard hides no keyword |
| LexerProps.KeywordKeys | lexer/src/lexer/mod.rs:246-262 | the table holds exactly the thirteen keywords `if` … `false` |
| LexerProps.KeywordLengths | lexer/src/lexer/mod.rs:241-244 | every keyword is 2 to 8 characters long, inside the guard's bounds |
| LexerProps.IdentifierToken | lexer/src/lexer/mod.rs:207-216 | an identifier token's kind is the lookup of its text. It carries no value exactly when it is `if`, `while` or `for`; otherwise it carries its text. It displays as its own source text. |
| LexerProps.DecodeIdentifier | lexer/src/lexer/mod.rs:199-216 | the decoded identifier token, with its kind and value, in full |
| LexerProps.IdentifierUntrimmed | lexer/src/lexer/mod.rs:199 | trimming leaves an identifier lexeme as it is |
| LexerProps.IdentifierText | types/src/lexer.rs:19-26 | an identifier-class token made from `x` displays as `x` |
| LexerProps.BareKeywordTexts | types/src/lexer.rs:122-202 | the value-less keywords `if`, `while` and `for` display as their own spelling |
| LexerProps.StringScanIff | lexer/src/lexer/mod.rs:146-163 | a string closes at `c` if and only if `c` holds the quote and the text before it has no unescaped quote, where every backslash skips the next character |
| LexerProps.UnterminatedString | lexer/src/lexer/mod.rs:147-162 | with no closing quote, the scan consumes the rest of the input and yields `Unexpected` |
| LexerProps.StringTokenValue | lexer/src/lexer/mod.rs:218-220 | a string token's value is the text strictly between its two equal quotes |
| LexerProps.CommentSpan | lexer/src/lexer/mod.rs:131-144 | a comment starts with `#` and runs through the first newline, inclusive, or to the end of the input |
| LexerProps.CommentValue | lexer/src/lexer/mod.rs:199-224 | a comment's value is the text after `#`, with trailing white space removed |
| LexerProps.NumberValue | lexer/src/lexer/mod.rs:204-206 | a number token carries its own text, which stands in for the float |
| LexerProps.PlainValue | lexer/src/lexer/mod.rs:229 | operators and delimiters carry no value |
| ParserSpec.KindToOp | parser/src/parser/mod.rs:779-818 | `kind_to_op`: an operator for each listed token kind and the `unreachable!` panic for every other; its domain is stated by `ParserProps.KindToOpDomain` |
| ParserSpec.Program | parser/src/parser/mod.rs:34-51 | `parse` after the `Start` token: a program spanning the whole source whose body is `body`'s statements, or `body`'s failure |
| ParserSpec.EatWithStart | parser/src/parser/mod.rs:820-861 | succeeds exactly when the current kind matches, and then moves one token on. Otherwise it reports "Expected <kind> but got <kind value>" from `start` to the end of the current token. |
| ParserSpec.Eat | parser/src/parser/mod.rs:820-822 | succeeds exactly when the current kind matches, and then moves one token on |
| ParserSpec.Kinds | parser/src/parser/mod.rs:463-550 | no tier loops on `Eof` |
| ParserSpec.Keyword | parser/src/parser/mod.rs:610-622 | the prefix-keyword tiers are `await`, `delete` and `new` |
| ParserSpec.Expr | parser/src/parser/mod.rs:404-406 | a successful parse consumes at least one token, stays in the stream and never stops on a `?` |
| ParserSpec.Comma | parser/src/parser/mod.rs:409-424 | a successful parse consumes at least one token and never stops on a `?` |
| ParserSpec.CommaLoop | parser/src/parser/mod.rs:414-417 | the loop keeps the items read so far and stops at a token that is not a comma, and not at a `?` unless it started there |
| ParserSpec.Assign | parser/src/parser/mod.rs:427-442 | a successful parse consumes at least one token and never stops on a `?` |
| ParserSpec.Ternary | parser/src/parser/mod.rs:445-460 | a successful parse consumes at least one token and never stops on a `?` |
| ParserSpec.TernaryLoop | parser/src/parser/mod.rs:449-457 | the loop never moves the cursor back and stops only on a token that is not `?` |
| ParserSpec.LeftTier | parser/src/parser/macro_utils.rs:3-17 | a successful tier consumes at least one token |
| ParserSpec.SubOp | parser/src/parser/mod.rs:463-550 | a successful operand consumes at least one token |
| ParserSpec.LeftLoop | parser/src/parser/macro_utils.rs:7-14 | the loop never moves the cursor back |
| ParserSpec.Term | parser/src/parser/mod.rs:523-545 | a successful parse consumes at least one token |
| ParserSpec.JuxtLoop | parser/src/parser/mod.rs:527-532 | the loop never moves the cursor back |
| ParserSpec.MulLoop | parser/src/parser/mod.rs:534-542 | the loop never moves the cursor back |
| ParserSpec.Factor | parser/src/parser/mod.rs:553-583 | a successful parse consumes at least one token |
| ParserSpec.ReadSeqExpr | parser/src/parser/mod.rs:585-607 | a successful parse consumes at least one token |
| ParserSpec.WordExpr | parser/src/parser/mod.rs:610-622 | a successful parse consumes at least one token |
| ParserSpec.Dot | parser/src/parser/mod.rs:625-627 | a successful parse consumes at least one token |
| ParserSpec.DotLoop | parser/src/parser/mod.rs:625-627 | the loop never moves the cursor back |
| ParserSpec.Call | parser/src/parser/mod.rs:630-695 | a successful parse consumes at least one token |
| ParserSpec.Body | parser/src/parser/mod.rs:53-66 | the cursor never moves back |
| ParserSpec.BodyLoop | parser/src/parser/mod.rs:56-63 | the cursor never moves back |
| ParserSpec.Statement | parser/src/parser/mod.rs:70-96 | a successful statement consumes at least one token |
| ParserSpec.BlockStmt | parser/src/parser/mod.rs:98-114 | a successful block consumes at least one token |
| ParserSpec.BracedBody | parser/src/parser/mod.rs:101-108 | a successful braced body consumes at least one token |
| ParserSpec.ScopeDecl | parser/src/parser/mod.rs:118-128 | a successful declaration consumes at least one token |
| ParserSpec.Clause | parser/src/parser/mod.rs:140-150 | the cursor never moves back |
| ParserSpec.TryStmt | parser/src/parser/mod.rs:132-158 | a successful statement consumes at least one token |
| ParserSpec.LoopStmt | parser/src/parser/mod.rs:162-168 | a successful statement consumes at least one token |
| ParserSpec.Condition | parser/src/parser/mod.rs:176-182 | a successful condition consumes at least one token |
| ParserSpec.WhileStmt | parser/src/parser/mod.rs:172-187 | a successful statement consumes at least one token |
| ParserSpec.ClosedExpr | parser/src/parser/mod.rs:199-211 | a successful expression consumes at least one token |
| ParserSpec.ForStmt | parser/src/parser/mod.rs:191-221 | a successful statement consumes at least one token |
| ParserSpec.IfStmt | parser/src/parser/mod.rs:225-253 | a successful statement consumes at least one token |
| ParserSpec.WordStmt | parser/src/parser/mod.rs:257-267 | a successful statement consumes at least one token |
| ParserSpec.BlockDecl | parser/src/parser/mod.rs:269-273 | a successful statement consumes at least one token |
| ParserSpec.JumpStmt | parser/src/parser/mod.rs:275-287 | a successful statement consumes at least one token |
| ParserSpec.FnDecl | parser/src/parser/mod.rs:291-330 | a successful declaration consumes at least one token |
| ParserSpec.ParamList | parser/src/parser/mod.rs:308-314 | a successful parameter list consumes at least one token |
| ParserSpec.ParseParams | parser/src/parser/mod.rs:332-350 | the cursor never moves back |
| ParserSpec.ParamsLoop | parser/src/parser/mod.rs:343-349 | the cursor never moves back |
| ParserSpec.VarInit | parser/src/parser/mod.rs:361-382 | the cursor never moves back |
| ParserSpec.VarDecl | parser/src/parser/mod.rs:354-392 | a successful declaration consumes at least one token |
| ParserSpec.ExprStmt | parser/src/parser/mod.rs:396-401 | a successful statement consumes at least one token |
| Parsing.Parser.constructor | parser/src/parser/mod.rs:25-39 | the cursor is on the first token, past the placeholder that `parse` eats |
| Parsing.Parser.Advance | parser/src/parser/mod.rs:864-867 | moves one token on, or stays at the end |
| Parsing.Parser.EatWithStart | parser/src/parser/mod.rs:824-846 | agrees with `ParserSpec.EatWithStart`: the same result and cursor, or the same failure |
| Parsing.Parser.Eat | parser/src/parser/mod.rs:820-822 | agrees with `ParserSpec.Eat` |
| Parsing.Parser.Parse | parser/src/parser/mod.rs:34-51 | returns `ParserSpec.Program`: the body spanning the whole source, or the first failure |
| Parsing.Parser.Body | parser/src/parser/mod.rs:53-66 | agrees with `ParserSpec.Body` |
| Parsing.Parser.Statement | parser/src/parser/mod.rs:70-96 | agrees with `ParserSpec.Statement` |
| Parsing.Parser.BlockStmt | parser/src/parser/mod.rs:98-114 | agrees with `ParserSpec.BlockStmt` |
| Parsing.Parser.BracedBody | parser/src/parser/mod.rs:101-108 | agrees with `ParserSpec.BracedBody` |
| Parsing.Parser.ScopeDecl | parser/src/parser/mod.rs:118-128 | agrees with `ParserSpec.ScopeDecl` |
| Parsing.Parser.Clause | parser/src/parser/mod.rs:140-150 | agrees with `ParserSpec.Clause` |
| Parsing.Parser.TryStmt | parser/src/parser/mod.rs:132-158 | agrees with `ParserSpec.TryStmt` |
| Parsing.Parser.LoopStmt | parser/src/parser/mod.rs:162-168 | agrees with `ParserSpec.LoopStmt` |
| Parsing.Parser.Condition | parser/src/parser/mod.rs:176-182 | agrees with `ParserSpec.Condition` |
| Parsing.Parser.WhileStmt | parser/src/parser/mod.rs:172-187 | agrees with `ParserSpec.WhileStmt` |
| Parsing.Parser.ClosedExpr | parser/src/parser/mod.rs:199-211 | agrees with `ParserSpec.ClosedExpr` |
| Parsing.Parser.ForStmt | parser/src/parser/mod.rs:191-221 | agrees with `ParserSpec.ForStmt` |
| Parsing.Parser.IfStmt | parser/src/parser/mod.rs:225-253 | agrees with `ParserSpec.IfStmt` |
| Parsing.Parser.WordStmt | parser/src/parser/mod.rs:257-267 | agrees with `ParserSpec.WordStmt` |
| Parsing.Parser.BlockDecl | parser/src/parser/mod.rs:269-273 | agrees with `ParserSpec.BlockDecl` |
| Parsing.Parser.JumpStmt | parser/src/parser/mod.rs:275-287 | agrees with `ParserSpec.JumpStmt` |
| Parsing.Parser.FnDecl | parser/src/parser/mod.rs:291-330 | agrees with `ParserSpec.FnDecl` |
| Parsing.Parser.ParamList | parser/src/parser/mod.rs:308-314 | agrees with `ParserSpec.ParamList` |
| Parsing.Parser.ParseParams | parser/src/parser/mod.rs:332-350 | agrees with `ParserSpec.ParseParams` |
| Parsing.Parser.ParamsRest | parser/src/parser/mod.rs:340-349 | its loop agrees with `ParserSpec.ParamsLoop` |
| Parsing.Parser.VarInit | parser/src/parser/mod.rs:361-382 | agrees with `ParserSpec.VarInit` |
| Parsing.Parser.VarDecl | parser/src/parser/mod.rs:354-392 | agrees with `ParserSpec.VarDecl` |
| Parsing.Parser.ExprStmt | parser/src/parser/mod.rs:396-401 | agrees with `ParserSpec.ExprStmt` |
| Parsing.Parser.Expr | parser/src/parser/mod.rs:404-406 | agrees with `ParserSpec.Expr` |
| Parsing.Parser.Comma | parser/src/parser/mod.rs:409-424 | its loop over the items agrees with `ParserSpec.Comma` |
| Parsing.Parser.Assign | parser/src/parser/mod.rs:427-442 | agrees with `ParserSpec.Assign` |
| Parsing.Parser.Ternary | parser/src/parser/mod.rs:445-460 | agrees with `ParserSpec.Ternary` |
| Parsing.Parser.LeftTier | parser/src/parser/macro_utils.rs:3-17 | the loop of the macro's first arm agrees with `ParserSpec.LeftTier` |
| Parsing.Parser.BinaryGroups | parser/src/parser/macro_utils.rs:19-42 | the groups of the macro's second arm, run in turn, agree with `Precedence.ArmTwo` |
| Parsing.Parser.Group | parser/src/parser/macro_utils.rs:24-38 | one group's loop agrees with `Precedence.GroupLoop` |
| Parsing.Parser.SubOp | parser/src/parser/mod.rs:463-550 | agrees with `ParserSpec.SubOp` |
| Parsing.Parser.Term | parser/src/parser/mod.rs:523-545 | its two loops agree with `ParserSpec.Term` |
| Parsing.Parser.Factor | parser/src/parser/mod.rs:553-583 | agrees with `ParserSpec.Factor` |
| Parsing.Parser.ReadSeqExpr | parser/src/parser/mod.rs:585-607 | agrees with `ParserSpec.ReadSeqExpr` |
| Parsing.Parser.WordExpr | parser/src/parser/mod.rs:610-622 | agrees with `ParserSpec.WordExpr` |
| Parsing.Parser.Dot | parser/src/parser/mod.rs:625-627 | agrees with `ParserSpec.Dot` |
| Parsing.Parser.Call | parser/src/parser/mod.rs:630-695 | agrees with `ParserSpec.Call` |
| Precedence.TierOperators | parser/src/parser/mod.rs:463-550 | every kind a tier loops on has an operator in `kind_to_op` |
| Precedence.LeftLoopFold | parser/src/parser/macro_utils.rs:7-14 | when the loop reads a given run of operators and operands, it returns their left-nested fold and stops where the run ends |
| Precedence.StepRound | parser/src/parser/macro_utils.rs:8-13 | one round eats the operator, parses an operand, and builds a node that starts at the shared start and records the operator of the kind eaten |
| Precedence.LeftLoopSteps | parser/src/parser/macro_utils.rs:7-14 | every result of the loop is the left-nested fold of the run it read. With `LeftLoopFold`, the loop returns exactly that fold. |
| Precedence.LeftLoopRound | parser/src/parser/macro_utils.rs:8-13 | a successful loop that sees an operator of its tier parses the operand after it and goes on from the node built |
| Precedence.OperandOnly | parser/src/parser/macro_utils.rs:4-16 | with no operator of the tier after the first operand, the tier returns that operand unchanged |
| Precedence.LeftNesting | parser/src/parser/macro_utils.rs:7-14 | `a op1 b op2 c` builds `Binary(Binary(a, op1, b), op2, c)`; both nodes start at `a` and record the operators eaten |
| Precedence.FoldSpine | parser/src/parser/macro_utils.rs:13 | folding keeps every node on the left spine at the shared start |
| Precedence.SharedStart | parser/src/parser/macro_utils.rs:4-13 | every node one expansion builds starts at the offset of the first operand |
| Precedence.GroupLoop | parser/src/parser/macro_utils.rs:24-38 | the loop of one group never moves the cursor back |
| Precedence.OperandAt | parser/src/parser/macro_utils.rs:26-28 | a round parses its right operand after the operator token when the group eats it, and from the operator token itself when it does not |
| Precedence.GroupLoopFold | parser/src/parser/macro_utils.rs:24-38 | a group's loop that reads a given run returns its left-nested fold from the shared start and stops where the run ends. In each round the recorded kind is the substitute unless that is `Unexpected`, and otherwise the kind of the token after the eat. |
| Precedence.GroupLoopSteps | parser/src/parser/macro_utils.rs:24-38 | the converse: every successful loop of a group is the fold of such a run |
| Precedence.GroupLoopStops | parser/src/parser/macro_utils.rs:24 | a successful loop of a group stops on a token whose kind is outside the group |
| Precedence.GroupRoundPanics | parser/src/parser/macro_utils.rs:29-37 | a round whose recorded kind has no operator fails with the `unreachable!` of `kind_to_op` |
| Precedence.GroupsFromChain | parser/src/parser/macro_utils.rs:23-39 | every successful run of the groups is a chain of cursors and nodes. Group `i`'s loop runs from step `i` to step `i + 1`, the cursors never move back, and each loop stops on a kind outside its group before the next starts. |
| Precedence.ChainGroupsFrom | parser/src/parser/macro_utils.rs:23-39 | the converse: every such chain is what the groups compute |
| Precedence.GroupsFrom | parser/src/parser/macro_utils.rs:23-39 | the groups, run in the listed order, never move the cursor back |
| Precedence.GroupThen | parser/src/parser/macro_utils.rs:23-39 | one group then the rest never moves the cursor back |
| Precedence.ArmTwo | parser/src/parser/macro_utils.rs:19-42 | a successful expansion consumes at least one token |
| Precedence.GroupLoopIntended | parser/src/parser/macro_utils.rs:26-34 | the loop with the operator read before the eat never moves the cursor back |
| Precedence.GroupsFromIntended | parser/src/parser/macro_utils.rs:23-39 | the corrected groups, run in order, never move the cursor back |
| Precedence.ArmTwoIntended | parser/src/parser/macro_utils.rs:19-42 | a successful corrected expansion consumes at least one token |
| Precedence.MulLoopIsGroup | parser/src/parser/mod.rs:534-542 | the explicit `* / %` loop of `term` is the corrected group that eats and records the current kind |
| Precedence.JuxtLoopIsGroups | parser/src/parser/mod.rs:527-542 | `term`'s two loops are the two corrected groups run in order. The first group does not eat and records `Multiply`. |
| Precedence.TermIsIntendedArmTwo | parser/src/parser/mod.rs:523-545 | `term` is exactly the corrected second arm over `power` with `term`'s groups |
| Precedence.ArmTwoMisrecords | parser/src/parser/macro_utils.rs:26-34 | as written, the second arm with `term`'s groups panics on `a * b` when `b` starts with an identifier, a number or `(`, where `term` builds the product |
| Precedence.MultiplyRecordsOperand | parser/src/parser/macro_utils.rs:26-34 | the eating group records the kind of the token after `*`, which `kind_to_op` rejects |
| Precedence.TermProduct | parser/src/parser/mod.rs:534-542 | `term` on `a * b` is one `Multiply` node from `a`'s start |
| ParserProps.BodyOfRun | parser/src/parser/mod.rs:53-66 | `body` over a run of statements returns them in order and leaves the cursor on `Eof` or `}`, which it does not consume |
| ParserProps.RunOfBody | parser/src/parser/mod.rs:53-66 | every successful `body` is such a run |
| ParserProps.BodyStops | parser/src/parser/mod.rs:56-63 | after `body`, the current token is `Eof` or `}` |
| ParserProps.CommaLoopOfRun | parser/src/parser/mod.rs:414-417 | the loop over a run of `, assign` items appends exactly them, in order |
| ParserProps.RunOfCommaLoop | parser/src/parser/mod.rs:414-417 | every successful loop is such a run |
| ParserProps.CommaOfRun | parser/src/parser/mod.rs:409-424 | `comma` returns the first item bare when there is one item and no sequence is asked for; otherwise a sequence node of all the items in order, from the first item's start |
| ParserProps.RunOfComma | parser/src/parser/mod.rs:409-424 | every successful `comma` is made that way |
| ParserProps.CommaWraps | parser/src/parser/mod.rs:409-424 | `comma(true)` always returns a non-empty sequence node from its start |
| ParserProps.MulLoopOfRun | parser/src/parser/mod.rs:534-542 | the `* / %` loop over a run folds exactly that run to the left |
| ParserProps.RunOfMulLoop | parser/src/parser/mod.rs:534-542 | every successful `* / %` loop is such a fold |
| ParserProps.JuxtLoopOfRuns | parser/src/parser/mod.rs:527-542 | all juxtaposed operands are folded in first, then the explicit `* / %` rounds |
| ParserProps.RunsOfJuxtLoop | parser/src/parser/mod.rs:527-542 | every successful pair of loops is such a fold, so no juxtaposition follows an explicit operator |
| ParserProps.TermOfRuns | parser/src/parser/mod.rs:523-545 | `term` is a power, then the juxtaposed operands multiplied in, then the explicit rounds, all left-nested from the first operand's start |
| ParserProps.RunsOfTerm | parser/src/parser/mod.rs:523-545 | every successful `term` has that shape |
| ParserProps.Juxtaposition | parser/src/parser/mod.rs:527-532 | an operand that starts with `Identifier`, `(` or `Number` right after an operand gives a `Multiply` node, and no operator token is consumed |
| ParserProps.KindToOpDomain | parser/src/parser/mod.rs:779-818 | `kind_to_op` is defined exactly on the binary, assignment and comparison kinds, and panics on every other kind |
| ParserProps.OperatorKindsDefined | parser/src/parser/mod.rs:779-816 | every listed kind has an operator |
| ParserProps.OtherKindsPanic | parser/src/parser/mod.rs:817 | every other kind hits `unreachable!` |
| ParserProps.PrefixOperators | parser/src/parser/mod.rs:779-818 | of the prefix operators, only `-` and `+` have an operator |
| ParserProps.FactorLiteral | parser/src/parser/mod.rs:558-561 | `Number`, `Str`, `True` and `False` become a literal of their token, one token on |
| ParserProps.FactorParens | parser/src/parser/mod.rs:562-567 | `( e )` is `e` itself; a missing `)` is reported from the `(` to the end of the token found |
| ParserProps.FactorUnary | parser/src/parser/mod.rs:570-579 | `-` and `+` take a factor and build a unary node from the operator's start, so repeated prefixes nest to the right |
| ParserProps.FactorPrefixPanics | parser/src/parser/mod.rs:764-818 | `!`, `++`, `--` and `~` always fail. With a parsed operand the failure is the `unreachable!` panic; otherwise it is the operand's failure. |
| ParserProps.VarDeclWithInit | parser/src/parser/mod.rs:354-392 | `let x = e;` and `let x := e;` give the initialiser `e`, formula exactly for `:=`, and a node ending at the token after `;` |
| ParserProps.VarDeclWithoutInit | parser/src/parser/mod.rs:363-392 | `let x;` has no initialiser when none is demanded. When one is demanded, it is the "Expected Assign or FormulaAssign" failure at the `;`. |
| ParserProps.VarDeclNeedsInit | parser/src/parser/mod.rs:363-381 | with an initialiser demanded, any other token after the name is that failure |
| ParserProps.ForNeedsInit | parser/src/parser/mod.rs:191-197 | `for (let i` followed by anything but `=` or `:=` is that failure |
| ParserProps.ReadSeqIsSequence | parser/src/parser/mod.rs:585-607 | a bracket literal is always a sequence node from its `[` |
| ParserProps.ReadSeqEmpty | parser/src/parser/mod.rs:585-594 | `[]` is the empty sequence, two tokens on |
| ParserProps.ReadSeqItems | parser/src/parser/mod.rs:596-606 | `[a, b, …]` holds exactly the comma-separated items, even just one; a missing `]` is reported from the `[` |
| ParserProps.ReadSeqClosed | parser/src/parser/mod.rs:596-606 | after the items, the closing `]` or the failure from the `[` |
| ParserProps.CallBare | parser/src/parser/mod.rs:634-679 | a bare identifier is itself, with no brackets read |
| ParserProps.CallArguments | parser/src/parser/mod.rs:638-676 | `f[args]` calls `f` on a sequence of the argument items. The sequence starts at the `[` and the call at `f`. A missing `]` is reported from `f`. |
| ParserProps.CallBracketed | parser/src/parser/mod.rs:682-689 | `[e]` is `e` with brackets read; a missing `]` is reported from the `[` |
| ParserProps.CallOther | parser/src/parser/mod.rs:690-693 | any other token is the "Identifier or [" failure at that token |
| ParserProps.EmptyCallStartsAtBracket | parser/src/parser/mod.rs:639-675 | as written, `f[]` builds a call node that starts at the `[`, not at `f` |
| ParserProps.CallIntended | parser/src/parser/mod.rs:630-695 | `call`, with the empty-argument node starting at the identifier |
| ParserProps.CallIntendedStart | parser/src/parser/mod.rs:643-675 | corrected, a call that starts with an identifier has brackets exactly when it is a call node, and every call node starts at the identifier |
| ParserProps.EmptyParamsRejected | parser/src/parser/mod.rs:308-340 | as written, `fn f[] {` fails: the `]` was consumed by `parse_params`, and `fn_decl` reports the token after it from the `[` |
| ParserProps.ParseParamsIntended | parser/src/parser/mod.rs:332-350 | `parse_params` leaving the `]` of an empty list; the cursor never moves back |
| ParserProps.ParamListIntended | parser/src/parser/mod.rs:308-314 | the corrected list consumes at least one token |
| ParserProps.FnDeclIntended | parser/src/parser/mod.rs:291-330 | `fn_decl` over the corrected list consumes at least one token |
| ParserProps.EmptyParamsIntended | parser/src/parser/mod.rs:291-350 | corrected, `fn f[] { … }` declares `f` with no parameters and that body |
| ParserProps.NonEmptyParamsAgree | parser/src/parser/mod.rs:291-350 | the corrected `fn_decl` agrees with the written one whenever the parameter list is not empty |
| ParserProps.ParamListAgree | parser/src/parser/mod.rs:308-350 | the corrected parameter list agrees with the written one when it is not empty |
| StatementProps.TernaryPlain | parser/src/parser/mod.rs:445-460 | with no `?` after the first range, the result is that range |
| StatementProps.TernaryConditional | parser/src/parser/mod.rs:449-457 | `t ? c : a` is one conditional node from the start of `t`, with the range after `?` as consequent and the whole expression after `:` as alternate; the loop does not run again |
| StatementProps.TernaryMissingColon | parser/src/parser/mod.rs:449-452 | a `?` whose range is not followed by `:` fails with "Expected : but got …", reported at the token found instead |
| StatementProps.TernaryCases | parser/src/parser/mod.rs:445-460 | every successful parse is the first range alone, when no `?` follows it, or exactly one conditional node over the range, the range after `?` and the expression after `:` |
| StatementProps.BracedBodyCloses | parser/src/parser/mod.rs:101-108 | `{ body }` gives the statements of `body`, one token past the `}`; without the `}`, "Expected } but got …" is reported from the `{` to the end of the token found |
| StatementProps.BlockStmtBraced | parser/src/parser/mod.rs:98-108 | `block_stmt` on `{` is that braced body, with the same missing-`}` report |
| StatementProps.BlockStmtSingle | parser/src/parser/mod.rs:109-111 | `block_stmt` on any other token is the one statement found there |
| StatementProps.EmptyBlock | parser/src/parser/mod.rs:101-108 | `{ }` is the empty block, two tokens on |
| StatementProps.ConditionCloses | parser/src/parser/mod.rs:176-182 | `( e )` is `e`, one token past the `)`; without the `)`, "Expected ) but got …" is reported from the `(` |
| StatementProps.ConditionOpens | parser/src/parser/mod.rs:176-178 | without its `(`, a condition fails with "Expected ( but got …" at the token found |
| StatementProps.ClosedExprCloses | parser/src/parser/mod.rs:199-204 | an expression closed by a given token is the expression, one token past the closer; without the closer, the report runs from where the expression started |
| StatementProps.WhileShape | parser/src/parser/mod.rs:172-187 | `while ( t ) body` is one while node from the keyword's start over the condition and the block |
| StatementProps.WhileUnclosed | parser/src/parser/mod.rs:176-180 | a `while` condition without its `)` fails with the report from the `(` |
| StatementProps.IfWithoutElse | parser/src/parser/mod.rs:225-253 | with no `else` after the consequent, the alternate is empty and the node ends with the consequent |
| StatementProps.IfWithElse | parser/src/parser/mod.rs:240-245 | after an `else`, the alternate is the block or statement that follows it |
| StatementProps.IfUnclosed | parser/src/parser/mod.rs:230-234 | an `if` condition without its `)` fails with the report from the `(` |
| StatementProps.ForShape | parser/src/parser/mod.rs:191-221 | `for ( setup test ; update ) body` is one for node from the keyword's start over its four parts |
| StatementProps.ForTestUnclosed | parser/src/parser/mod.rs:199-204 | a `for` test without its `;` fails with "Expected ; but got …" from the test's start |
| StatementProps.ForUpdateUnclosed | parser/src/parser/mod.rs:206-211 | a `for` update without its `)` fails with "Expected ) but got …" from the update's start |
| StatementProps.FnBodyUnclosed | parser/src/parser/mod.rs:316-322 | a function body without its `}` fails with the report from the `{` |
| StatementProps.ParamsLoopOfRun | parser/src/parser/mod.rs:343-347 | the loop appends exactly the identifiers after each comma, in order, and stops on the first token that is not a comma |
| StatementProps.RunOfParamsLoop | parser/src/parser/mod.rs:343-349 | every successful loop is such a run of comma and identifier pairs |
| StatementProps.ParseParamsNonEmpty | parser/src/parser/mod.rs:332-350 | a non-empty list is its first identifier followed by the identifiers after each comma |
| StatementProps.ParamsMissingName | parser/src/parser/mod.rs:343-346 | a comma not followed by an identifier fails with "Expected Identifier but got …" at the token found |
| ScopePaths.NatToString | interpreter/src/interpreter/mod.rs:204 | the decimal text of a number is a non-empty run of digits |
| ScopePaths.NatToStringValue | interpreter/src/interpreter/mod.rs:204-233 | the decimal text reads back as the number |
| ScopePaths.ParseUsize | interpreter/src/interpreter/mod.rs:233 | `parse::<usize>` yields only numbers below 2^64 |
| ScopePaths.ParseUsizeRoundTrip | interpreter/src/interpreter/mod.rs:204-233 | a `usize` formatted as text, with or without a leading `+`, parses back to itself |
| ScopePaths.ParseUsizeRejects | interpreter/src/interpreter/mod.rs:233 | empty text, a lone `+` and text with a non-digit do not parse |
| ScopePaths.LastSeparator | interpreter/src/interpreter/mod.rs:232 | the position of the last `.$`, or none when there is none |
| ScopePaths.NamedIsBlockZero | interpreter/src/interpreter/mod.rs:180 | the named path `P.name.$0` is block 0 under `P.name` |
| ScopePaths.ParseBlockPath | interpreter/src/interpreter/mod.rs:204-236 | a block path reads back as its prefix and number, whatever the prefix holds |
| ScopePaths.ParsedPathShape | interpreter/src/interpreter/mod.rs:231-236 | every path that reads back is its prefix, `.$` and the text of its number |
| ScopePaths.BlockPathsDistinct | interpreter/src/interpreter/mod.rs:204 | different numbers give different block paths |
| ScopePaths.ParsedTextChars | interpreter/src/interpreter/mod.rs:233 | text that parses holds only digits and a leading sign |
| ScopePaths.NamedNotParsed | interpreter/src/interpreter/mod.rs:178-184 | the named path is never the path it is entered from |
| Vault.UpdateCurrent | interpreter/src/interpreter/mod.rs:257-259 | `update_current_scope`: the top of the stack becomes current, and an empty stack is the `unwrap` panic |
| Vault.InitScope | interpreter/src/interpreter/mod.rs:224-228 | `init_scope`: a fresh record at the path, replacing any, pushed and current |
| Vault.AddNatives | interpreter/src/interpreter/mod.rs:162-174 | `add_native_functions`: `print` and `println` bound in the current record, or the `unwrap` panic without one |
| Vault.Initialize | interpreter/src/interpreter/mod.rs:151-160 | `initialize`; its post-state is stated by `VaultProps.InitializeEffect` |
| Vault.CurrentParts | interpreter/src/interpreter/mod.rs:231-236 | `parse_current_scope`: the prefix and number of the current path, or one of its two `unwrap` panics; stated by `VaultProps.CurrentPartsCases` |
| Vault.SendRef | interpreter/src/interpreter/mod.rs:196-198 | `send_scope_ref`: the path appended to the current record's named-scope references, or the `unwrap` panic |
| Vault.EnterNamed | interpreter/src/interpreter/mod.rs:177-185 | `enter_named_scope`; its effect is stated by `VaultProps.EnterNamedEffect` |
| Vault.ExitNamed | interpreter/src/interpreter/mod.rs:188-193 | `exit_named_scope`; its effect is stated by `VaultProps.ExitNamedEffect` |
| Vault.Increment | interpreter/src/interpreter/mod.rs:201-207 | `increment_scope`; its effect and overflow are stated by `VaultProps.IncrementEffect` |
| Vault.Decrement | interpreter/src/interpreter/mod.rs:210-221 | `decrement_scope`; its effect is stated by `VaultProps.DecrementEffect` |
| Vault.EvalStatement | interpreter/src/interpreter/mod.rs:52-80 | the scope-declaration and block arms of `eval_statement`; stated by `VaultProps.EvalStatementRestores` |
| Vault.EvalBody | interpreter/src/interpreter/mod.rs:46-50 | `eval_program_body` from a statement index, stopping at the first panic; stated by `VaultProps.EvalBodyRestores` |
| VaultProps.InitializeEffect | interpreter/src/interpreter/mod.rs:151-174 | `initialize` pushes `std.$0` and then `global.$0`, makes `global.$0` current, gives `global.$0` a fresh record and `std.$0` a record binding `print` and `println` |
| VaultProps.InitializeFromNew | interpreter/src/interpreter/mod.rs:151-174 | from a new interpreter, the stack is `["std.$0", "global.$0"]`, `global.$0` is current, and the vault holds exactly those two records |
| VaultProps.CurrentPartsCases | interpreter/src/interpreter/mod.rs:231-236 | `parse_current_scope` succeeds exactly when the current path reads back, and then gives its prefix and number. With no `.$` it is the first unwrap's panic; with a bad number, the second's. |
| VaultProps.EnterNamedEffect | interpreter/src/interpreter/mod.rs:177-228 | `enter_named_scope` appends `P.name.$0` to the current record's references and keeps its bindings. It gives that path a fresh record, replacing any, and pushes it as current. No other record changes. It panics exactly when the current path does not read back or has no record. |
| VaultProps.EnterFromBlock | interpreter/src/interpreter/mod.rs:178-180 | from `P.$n`, the named scope is `P.name.$0`, whatever `n` is |
| VaultProps.ExitNamedEffect | interpreter/src/interpreter/mod.rs:188-193 | `exit_named_scope` only pops: the vault is unchanged. It panics exactly when fewer than two paths are on the stack. |
| VaultProps.IncrementEffect | interpreter/src/interpreter/mod.rs:201-228 | `increment_scope` from `P.$n` pushes the different path `P.$(n+1)` with a fresh record, and leaves every other record as it was. `n + 1` overflowing `usize` panics. |
| VaultProps.DecrementEffect | interpreter/src/interpreter/mod.rs:210-221 | `decrement_scope` removes exactly the current path and the paths in its record's references, keeps every other record, and pops |
| VaultProps.EnterExitRestores | interpreter/src/interpreter/mod.rs:177-193 | enter then exit restores the stack and the current scope; the named record stays behind |
| VaultProps.IncrementDecrementRestores | interpreter/src/interpreter/mod.rs:201-221 | increment then decrement restores the stack, the current scope and the vault, except for the block's own path |
| VaultProps.EvalStatementRestores | interpreter/src/interpreter/mod.rs:52-80 | evaluating a scope declaration or block whose body holds only such statements leaves the stack and current scope as they were, unless it panics |
| VaultProps.NamedArmRestores | interpreter/src/interpreter/mod.rs:64-68 | the scope-declaration arm restores the stack and the current scope |
| VaultProps.BlockArmRestores | interpreter/src/interpreter/mod.rs:74-78 | the block arm restores the stack and the current scope |
| VaultProps.EvalBodyRestores | interpreter/src/interpreter/mod.rs:46-50 | a run of such statements restores the stack and the current scope |
| Interpreting.Interpreter.constructor | interpreter/src/interpreter/mod.rs:23-34 | an empty stack, an empty current scope and an empty vault |
| Interpreting.Interpreter.UpdateCurrentScope | interpreter/src/interpreter/mod.rs:257-259 | the current scope becomes the top of the stack; an empty stack panics |
| Interpreting.Interpreter.InitScope | interpreter/src/interpreter/mod.rs:224-228 | `Vault.InitScope`: a fresh record at the path, pushed and made current |
| Interpreting.Interpreter.AddNativeFunctions | interpreter/src/interpreter/mod.rs:162-174 | `Vault.AddNatives`: `print` and `println` bound in the current record, which must exist |
| Interpreting.Interpreter.Initialize | interpreter/src/interpreter/mod.rs:151-160 | reaches `Vault.Initialize`, whose effect `VaultProps.InitializeEffect` states |
| Interpreting.Interpreter.ParseCurrentScope | interpreter/src/interpreter/mod.rs:231-236 | returns `Vault.CurrentParts` and changes nothing |
| Interpreting.Interpreter.SendScopeRef | interpreter/src/interpreter/mod.rs:196-198 | `Vault.SendRef`: the path appended to the current record's references |
| Interpreting.Interpreter.EnterNamedScope | interpreter/src/interpreter/mod.rs:177-185 | reaches `Vault.EnterNamed`, or its panic |
| Interpreting.Interpreter.ExitNamedScope | interpreter/src/interpreter/mod.rs:188-193 | reaches `Vault.ExitNamed`, or its panic |
| Interpreting.Interpreter.IncrementScope | interpreter/src/interpreter/mod.rs:201-207 | reaches `Vault.Increment`, or its panic |
| Interpreting.Interpreter.DecrementScope | interpreter/src/interpreter/mod.rs:210-221 | the removal loop over the references reaches `Vault.Decrement`, or its panic |
| Interpreting.Interpreter.EvalStatement | interpreter/src/interpreter/mod.rs:64-78 | the two scope arms of `eval_statement` reach `Vault.EvalStatement`, or its panic |
| Interpreting.Interpreter.EvalProgramBody | interpreter/src/interpreter/mod.rs:46-50 | reaches `Vault.EvalBody`, or the first panic |
| ScopeFindings.ReentryResets | interpreter/src/interpreter/mod.rs:177-228 | as written, after `scope outer { scope inner { } }`, `outer`'s record refers to `inner`. Entering `outer` again replaces that record with a fresh one, while `inner`'s record stays in the vault. |
| ScopeFindings.ReusingAgreesOnFirstVisit | interpreter/src/interpreter/mod.rs:177-185 | the corrected entry differs from the written one only when the named path already has a record |
| ScopeFindings.ReentryKeepsRefs | interpreter/src/interpreter/mod.rs:177-190 | corrected, entering `outer` again keeps its record with the reference to `inner`, and pushes `outer`'s path |
| ScopeFindings.RemoveReachableShrinks | interpreter/src/interpreter/mod.rs:209-221 | the cascading removal only removes: it removes every pending path, and what is left keeps its record |
| ScopeFindings.CascadingCoversDecrement | interpreter/src/interpreter/mod.rs:210-221 | the corrected clean-up panics exactly where the written one does, ends with the same stack and current scope, and removes at least as much |
| ScopeFindings.NestedVisitEffect | interpreter/src/interpreter/mod.rs:177-198 | entering `outer` and `inner` from it and leaving both restores the stack. The block's record then refers to `outer`, and `outer`'s record to `inner` only. |
| ScopeFindings.NestedNamedScopeLeaks | interpreter/src/interpreter/mod.rs:209-221 | as written, after such a visit, leaving the block removes `outer` but keeps `inner`'s record |
| ScopeFindings.NestedNamedScopeCleaned | interpreter/src/interpreter/mod.rs:209-221 | corrected, leaving the block removes the block, `outer` and `inner` |

## Left out

- Floating point: a number token keeps its text where the source parses an `f64`. A number value therefore displays as that text, not as the float's rendering.
- Byte offsets: the source is a sequence of characters and taken to be ASCII. Character indexes stand in for the UTF-8 byte offsets of `offset`. Non-ASCII text would give different offsets.
- Rendering diagnostics: `report_error` prints a diagnostic and ends the process. The model returns the report `(message, start, end)` as a failure and stops there. The lexer's and parser's `path` and `source` fields serve only that rendering, and are left out.
- `tokenize` on an unexpected character: the source reports and exits inside `next_token`. The model's `tokenize` returns that report as its result.
- Panic payloads: a panic is a short fixed message naming its cause (`unreachable!`, an `unwrap` of `None` or of an `Err`, an add overflow). Rust's panic text is not modelled.
- Macros that are not part of this model: `binary_left_associative!`, `binary_right_associative!`, `uni_builder!`, `word_stmt!`, `word_right_associative_expr!` and `member_left_associative!`.
  - The left-associative tiers, `power` included, are modelled by the first arm of `parser!`.
  - The right-nesting tiers (`assign`, and `await`/`delete`/`new`) nest their operand to the right, as their doc comments say.
  - The word statements are keyword, expression and `;`.
  - `dot` joins calls by `.` into member nodes.
  - `uni_builder!` builds the named statement node from the given start to the end of the current token after its last part, with the listed fields. This is the same span rule `binary_expression` follows.
  - Nothing is proved about these assumed expansions beyond progress and the class's agreement with them.
- The syntax tree module is not part of this model. `Ast` defines only the constructors the parser uses, with the fields it fills in.
- The live link from the parser to the lexer: the parser reads a finished token sequence.
- `Parsing.Parser.constructor`: folds `cur_token: Token::default()` and the first `eat(Start)` of `parse` into "the first token is current". This assumes `Token::default()` has kind `Start`, but the token type shown gives `Token` no `Default` implementation.
- The evaluator: `eval_expression`, `eval_binary_expression`, `get_variable` and the `todo!()` arms of `eval_statement` are left out. Only the scope-declaration and block arms are modelled, on statements holding only those arms (`Vault.ScopeOnly`).
- Bindings of the vault: a record's bindings hold only native functions, the one kind of value the modelled code creates. Native-function bodies and the `serde` derives are left out.
- `HashMap` iteration order does not matter in the modelled code. `decrement_scope` iterates over a `Vec`, and the model keeps its order.
- Absence of panics: the evaluation of the scope arms fails only with the panics of the scope operations. That a well-formed program avoids them is not proved.
- The `Chars` iterator is a cursor `pos` into the source, and the remaining text is `source[pos..]`.
- Integer widths: offsets and cursors are unbounded naturals. The one `usize` limit the modelled code can reach, `num + 1` in `increment_scope`, is modelled as the panic of a debug build.
- Tokens.KindText: the texts of `Async`, `Scope`, `Try`, `Catch`, `Finally`, `Throw`, `Yield`, `Block`, `Await`, `Delete` and `New` are assumed to be their lower-case keyword spellings. The token type shown declares none of these kinds and has no display arm for them, though the parser dispatches on them and can name them in its "Expected … but got …" reports.

## Findings

| source | as written | input that shows it | evidently intended | confidence | as-written member | corrected member |
|---|---|---|---|---|---|---|
| lexer/src/lexer/mod.rs:109-122 | `peek_two` builds a fresh iterator twice and reads the same character as `peek`. So a `.` never continues a number, and neither does an `e` or `E`. | `3.14` lexes as `Number` `3` and then `Number` `.14` | a `.`, `e` or `E` directly followed by a digit continues the number, so `3.14` is one token | high, not executed | LexerProps.ThreePointOneFour | LexerProps.DecimalWholeIntended |
| parser/src/parser/macro_utils.rs:26-34 | the second arm of `parser!` eats the operator before it reads `cur_token.kind` for a group whose substitute is `Unexpected`. It therefore records the kind of the token after the operator. | `a * b`, with `term`'s groups passed to the second arm: the recorded kind is `Identifier`, and `kind_to_op` panics | the operator is read before the eat, as `term` does by hand | medium, not executed | Precedence.ArmTwoMisrecords | Precedence.TermIsIntendedArmTwo |
| parser/src/parser/mod.rs:308-338 | `parse_params` consumes the `]` of an empty list, and `fn_decl` then eats another `]` | `fn f[] { }` fails with "Expected ] but got { " (with a trailing space: `{` has no value text) | an empty list leaves its `]` for `fn_decl`, declaring `f` with no parameters | high, not executed | ParserProps.EmptyParamsRejected | ParserProps.EmptyParamsIntended |
| parser/src/parser/mod.rs:639-675 | `f[]` builds its call node from the `[`, while every other call starts at the callee | `f[]` yields a call node whose start is the `[`'s offset | the call node starts at `f` | medium, not executed | ParserProps.EmptyCallStartsAtBracket | ParserProps.CallIntendedStart |
| interpreter/src/interpreter/mod.rs:177-228 | exiting a named scope leaves its record in the vault, and the comment at lines 189-190 says named scopes are cleared only when the block is left. Yet entering a scope always inserts a fresh record through `init_scope`, so a second visit drops the record's named-scope references. | `scope A { scope B { } } scope A { }`: after the second statement, `global.A.$0` no longer refers to `global.A.B.$0`, whose record stays in the vault | a record already at the named path is kept on re-entry | low, not executed | ScopeFindings.ReentryResets | ScopeFindings.ReentryKeepsRefs |
| interpreter/src/interpreter/mod.rs:209-221 | `decrement_scope` removes only the named scopes that the block's own record refers to | `{ scope A { scope B { } } }`: after the block, `B`'s record is still in the vault | every named scope entered within the block is removed with it | medium, not executed | ScopeFindings.NestedNamedScopeLeaks | ScopeFindings.NestedNamedScopeCleaned |
