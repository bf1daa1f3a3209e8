# A verified model of the rinterpreter lexer, tokens and syntax-tree rendering

This project models the front end of a small interpreter written in Rust for a
C-like language. It has three parts:

- **Tokens** (`token.dfy`, module `Tokens`). The fourteen-kind token
  enumeration, the token value, and keyword recognition (`fn` and `let`).
- **Lexer** (`lexer.dfy`, module `Lexing`). A class `Lexer` with the fields of
  the Rust struct: the input, `position`, `readPosition` and the lookahead
  `ch`.
  - Its methods are `ReadChar`, `SkipWhitespace`, `ReadIdentifier`,
    `ReadNumber` and `NextToken`, with `while` loops as in the original.
    Each is proved against a pure specification.
  - `Scan(s, p)` says what one call of `next_token` from cursor `p` returns
    and where it leaves the cursor.
  - `Lex`/`After` (through `Run`) describe `n` successive calls.
  - A `Step` is either an emitted token or `Panic`. `Panic` stands for the
    `unwrap` of a missing lookahead when an identifier or number runs into the
    end of the input.
- **Syntax tree** (`ast.dfy`, module `Ast`). The Rust trait objects become
  datatypes: `Identifier`, `Expression`, `Statement` (let, return and
  expression statements) and `Program`. The pure `TokenLiteral`/`ToString`
  renderings are functions. The two renderings that grow a string step by
  step are methods proved against the pure rendering: `Program::to_string`'s
  loop and `LetStatement::to_string`'s successive `+=`.

`wrappers.dfy` holds the `Option` type.

## Behaviour of the code

- The code has no parser. `parse_program` is unimplemented, so there is no
  operator precedence.
- The only punctuator tokens are `+ = ( ) { } , ;`.
- The only keywords are `fn` and `let`.
- Whitespace is Rust's full `char::is_whitespace`.
- A `return` statement renders as the empty string.
- `next_token` panics when an identifier or a number reaches the end of the
  input.
- At end of input both `position` and `read_position` keep growing, because
  `read_char` copies `read_position` into `position`.

## Model

| member | source | states |
|---|---|---|
| Tokens.NewToken | src/token.rs:34-39 | the new token holds exactly the given kind and literal |
| Tokens.LookupIdentifier | src/token.rs:42-49 | the kind is `Function` iff the word is `fn`, `Let` iff it is `let`, `Ident` iff it is neither |
| Tokens.LookupIdentifierExamples | src/token.rs:55-59 | `fn` gives `Function`, `let` gives `Let`, `assda` and the empty word give `Ident`; no other kind is ever returned |
| Tokens.TokenTypesAreFourteen | src/token.rs:1-25 | the enumeration is closed: every kind is among fourteen distinct listed kinds |
| Lexing.IsPunctuator | src/lexer.rs:40-41 | defines the eight characters of the punctuator arm of the match; characterised by `PunctuatorKind` and `ClassesAreDisjoint` |
| Lexing.PunctuatorKind | src/lexer.rs:39-43 | the kind of a punctuator's one-character literal; it is EOF exactly for the characters that are not punctuators, and otherwise one of the eight punctuator kinds |
| Lexing.ParseTokenType | src/lexer.rs:42-43 | parsing a literal as a kind succeeds exactly on the one-character literals of punctuators, and with the `unwrap_or(EOF)` fallback it agrees with `PunctuatorKind` |
| Lexing.IsWhitespaceChar | src/lexer.rs:111 | defines Rust's `char::is_whitespace`; `ClassesAreDisjoint` proves no punctuator, letter or digit is whitespace |
| Lexing.IsLetterChar | src/lexer.rs:105-107 | defines the letter test (ASCII letters and `_`); `ClassesAreDisjoint` proves no letter is a digit |
| Lexing.IsDigitChar | src/lexer.rs:101-103 | defines the decimal-digit test; `ClassesAreDisjoint` proves no digit is whitespace |
| Lexing.RunEnd | src/lexer.rs:70-72 | the end of the run of a class from a position, never before the position nor past the input; `RunEndSpec` and `RunEndIs` prove it is exactly the maximal run |
| Lexing.Scan | src/lexer.rs:35-65 | one call of `next_token`: the step and the new cursor; `NextToken` is proved equal to it and `TokenNeverStartsOnWhitespace`, `PunctuatorToken`, `IdentifierToken`, `NumberToken`, `IllegalTokenRepeats` and `EofForever` characterise it |
| Lexing.Run | src/lexer.rs:172-178 | `n` successive calls from cursor `p`, stopping at the first panic; it returns at most `n` steps, and `LexSplit` and `LexConcat` characterise it |
| Lexing.Lex | src/lexer.rs:172-178 | the steps of `n` successive calls from cursor `p`, ending with `Panic` if one call panics; `LexSplit`, `LexShift`, `LexAppend` and `LexConcat` characterise it |
| Lexing.After | src/lexer.rs:172-178 | the cursor after `n` successive calls; `LexSplit` composes it |
| Lexing.PunctuatorKinds | src/lexer.rs:135-160 | `+ = ( ) { } , ;` map to PLUS, ASSIGN, LEFTPAREN, RIGHTPAREN, LEFTBRACE, RIGHTBRACE, COMMA, SEMICOLON, and distinct punctuators get distinct kinds |
| Lexing.ClassesAreDisjoint | src/lexer.rs:101-107 | no character is both a letter and a digit; punctuators, letters and digits are never whitespace |
| Lexing.RunEndSpec | src/lexer.rs:109-117 | the run consumed by a scanning loop is maximal: all its characters are in the class and the one after it is not |
| Lexing.RunEndIs | src/lexer.rs:67-99 | conversely, any maximal run of a class from a position is the one the scanning loops consume |
| Lexing.CharAt | src/lexer.rs:25-29 | the lookahead is `Some(chars[i])` exactly when `i` is inside the input, else `None` |
| Lexing.Lexer.constructor | src/lexer.rs:11-20 | a new lexer has position 0, `read_position == 1` and the first character (or `None`) as lookahead |
| Lexing.Lexer.ReadChar | src/lexer.rs:22-33 | the cursor moves to the old `read_position`, `read_position` grows by one, and the lookahead is the character there or `None` past the end |
| Lexing.Lexer.IsLetter | src/lexer.rs:105-107 | letter test on the lookahead; `None` (the panic) exactly when there is no lookahead |
| Lexing.Lexer.IsDigit | src/lexer.rs:101-103 | decimal-digit test on the lookahead; `None` (the panic) exactly when there is no lookahead |
| Lexing.Lexer.SkipWhitespace | src/lexer.rs:109-117 | the cursor ends at the end of the maximal whitespace run, with the cursor invariant kept |
| Lexing.Lexer.ReadIdentifier | src/lexer.rs:67-82 | the cursor ends past the maximal letter run and the result is exactly that run; the panic happens exactly when the run reaches the end of the input |
| Lexing.Lexer.ReadNumber | src/lexer.rs:84-99 | the same for the maximal digit run |
| Lexing.Lexer.NextToken | src/lexer.rs:35-65 | the returned step and the new cursor are exactly `Scan` of the input at the old cursor |
| Lexing.TokenNeverStartsOnWhitespace | src/lexer.rs:36-38 | everything skipped before a token is whitespace; the token's literal is the input text where it starts, is non-empty and does not begin with whitespace |
| Lexing.PunctuatorToken | src/lexer.rs:40-48 | a punctuator gives a token of its kind whose literal is that one character, and the cursor advances by exactly one past it |
| Lexing.IdentifierToken | src/lexer.rs:50-53 | a letter starts a token whose literal is the maximal run of letters (never containing a digit), whose kind is the keyword lookup of the literal, and which leaves the cursor on the first non-letter; the call panics iff the run reaches the end of the input |
| Lexing.LetterRunToken | src/lexer.rs:50-53 | conversely, a maximal letter run after the whitespace that stops before the end of the input is exactly the token returned |
| Lexing.NumberToken | src/lexer.rs:54-55 | a digit that is not a letter starts an INTEGER token whose literal is the maximal digit run; the call panics iff the run reaches the end of the input |
| Lexing.DigitRunToken | src/lexer.rs:54-55 | conversely, a maximal digit run after the whitespace that stops before the end of the input is exactly the INTEGER token returned |
| Lexing.IllegalTokenRepeats | src/lexer.rs:56-57 | any other character gives ILLEGAL with that character as its literal, the cursor stays on it, and the next call returns the same ILLEGAL token |
| Lexing.EofForever | src/lexer.rs:63-64 | past the end of the input every call returns EOF with an empty literal, and any number of calls return only EOF |
| Lexing.LexSplit | src/lexer.rs:174-178 | `n + m` successive calls are `n` calls followed by `m` calls from where the first `n` left the cursor |
| Lexing.ScanShift | src/lexer.rs:35-65 | a call depends only on the input from the cursor on: prefixing the input shifts the cursor and nothing else |
| Lexing.LexShift | src/lexer.rs:35-65 | the same for any number of successive calls |
| Lexing.ScanAppend | src/lexer.rs:35-65 | text appended after a completed token does not change that token or the cursor after it |
| Lexing.LexAppend | src/lexer.rs:35-65 | the same for a run of completed tokens |
| Lexing.LexConcat | src/lexer.rs:172-178 | lexing two inputs joined at a token boundary gives the tokens of the first followed by the tokens of the second |
| Lexing.SamplePiece0 | src/lexer.rs:135-137 | `let five =` lexes to LET `let`, IDENT `five`, ASSIGN `=` and ends at the end of the piece |
| Lexing.SamplePiece1 | src/lexer.rs:138-139 | ` 5;` lexes to INTEGER `5`, SEMICOLON and ends at the end of the piece |
| Lexing.SamplePiece2 | src/lexer.rs:140-142 | the indented `let ten =` lexes to LET, IDENT `ten`, ASSIGN |
| Lexing.SamplePiece3 | src/lexer.rs:143-144 | ` 10;` lexes to INTEGER `10`, SEMICOLON |
| Lexing.SamplePiece4 | src/lexer.rs:145-147 | the indented `let add =` lexes to LET, IDENT `add`, ASSIGN |
| Lexing.SamplePiece5 | src/lexer.rs:148-149 | ` fn(` lexes to FUNCTION `fn`, LEFTPAREN |
| Lexing.SamplePiece6 | src/lexer.rs:150-151 | `x,` lexes to IDENT `x`, COMMA |
| Lexing.SamplePiece7 | src/lexer.rs:152-153 | ` y)` lexes to IDENT `y`, RIGHTPAREN |
| Lexing.SamplePiece8 | src/lexer.rs:154 | ` {` lexes to LEFTBRACE |
| Lexing.SamplePiece9 | src/lexer.rs:155-156 | the indented `x +` lexes to IDENT `x`, PLUS |
| Lexing.SamplePiece10 | src/lexer.rs:157-158 | ` y;` lexes to IDENT `y`, SEMICOLON |
| Lexing.SamplePiece11 | src/lexer.rs:159-160 | the indented `};` lexes to RIGHTBRACE, SEMICOLON and then EOF |
| Ast.Identifier.TokenLiteral | src/ast.rs:107-109 | an identifier's token literal is its token's literal, as `NodeTokenLiterals` states |
| Ast.Identifier.ToString | src/ast.rs:111-113 | an identifier renders as its value, as `NodeTokenLiterals` states |
| Ast.Expression.TokenLiteral | src/ast.rs:106-109 | an identifier expression's token literal is its identifier's token literal, as `NodeTokenLiterals` states |
| Ast.Expression.ToString | src/ast.rs:111-113 | an identifier expression renders as its identifier's value, as `NodeTokenLiterals` states |
| Ast.Statement.TokenLiteral | src/ast.rs:78-80 | every statement's token literal is its token's literal, as `NodeTokenLiterals` states |
| Ast.Statement.ToString | src/ast.rs:82-92 | the text of a statement; `LetStatementShape` and `StatementTexts` characterise it for each kind of statement |
| Ast.OptionalText | src/ast.rs:86-88 | the text of an optional value, empty when absent; `LetStatementShape` places it inside the let rendering |
| Ast.Program.TokenLiteral | src/ast.rs:21-26 | the first statement's token literal, or empty; `ProgramTokenLiteralAppend` and `NodeTokenLiterals` characterise it |
| Ast.Render | src/ast.rs:28-36 | the in-order concatenation of the statements' texts; `ProgramToString` computes it and `RenderAppend`, `RenderAt` and `RenderOfSilentStatements` characterise it |
| Ast.LetStatementToString | src/ast.rs:82-92 | the string built by successive appends is the let rendering, of length literal + name + value + 5 |
| Ast.LetStatementShape | src/ast.rs:82-92 | a let renders as `<literal> <name> = `, then the value's text (empty if absent), then `;`, so a valueless let renders `let x = ;` |
| Ast.ProgramToString | src/ast.rs:28-36 | the loop's result is the in-order concatenation of the statements' renderings |
| Ast.RenderAppend | src/ast.rs:28-36 | rendering the concatenation of two statement lists is the concatenation of their renderings |
| Ast.RenderAt | src/ast.rs:31-33 | each statement's text appears in the program text between the texts of the statements before and after it, with no separator |
| Ast.RenderOfSilentStatements | src/ast.rs:55-62 | a program of return statements and expression statements without an expression renders as the empty string |
| Ast.StatementTexts | src/ast.rs:132-138 | a return statement renders as the empty string; an expression statement renders as its expression's text, or the empty string without one |
| Ast.ProgramTokenLiteralAppend | src/ast.rs:21-26 | the program's token literal is the first statement's: after appending, the first list's if it is non-empty, otherwise the second's |
| Ast.NodeTokenLiterals | src/ast.rs:107-113 | every node's token literal is its token's literal, an identifier renders as its value, and an empty program's token literal is empty |
| Ast.SampleLetRendering | src/ast.rs:147-167 | the program with the one statement `let myVar = anotherVar` renders exactly `let myVar = anotherVar;` |

## Left out

- `src/repl.rs` and `src/main.rs` are not part of this model. They are the
  prompt loop, stream handling and the greeting, all input/output.
- `src/parser.rs` is not part of this model. Its `parse_program` is
  unimplemented; there is no parser behaviour to model.
- The debug `println!` of the token kind in `next_token` (src/lexer.rs:45) is
  output only and is dropped.
- The mapping from a one-character literal to its kind goes through a
  `FromStr` implementation that is not part of this model.
  - `ParseTokenType` stands for that parse. It succeeds on the eight
    punctuators with the kinds the sample test expects (src/lexer.rs:135-160)
    and fails on anything else; `.GetOr(Eof)` is the `unwrap_or` fallback.
  - `next_token` only reaches it with a punctuator, so the fallback is never
    taken there.
- Unicode `is_alphabetic`: `IsLetterChar` takes the letters to be the ASCII
  letters and `_`. A non-ASCII letter is an ILLEGAL token in the model but
  starts an identifier in the original. Whitespace is modelled exactly as
  Rust's `char::is_whitespace`, and digits as `is_digit(10)`.
- `read_char` collects the input into a vector of characters on every call.
  Only its effect is modelled: positions are character indices. Its cost is
  not modelled.
- Positions and `read_position` are unbounded naturals. The `usize`
  increment of `read_position`, which keeps growing past the end of the
  input, is not bounded.
- A panic ends the program in the original. The model reports it as `Panic`
  or `None` and says nothing about the lexer's state afterwards.
- The marker methods `statement_node` and `expression_node`
  (src/ast.rs:45-47, src/ast.rs:72-74, src/ast.rs:101-103,
  src/ast.rs:122-124) are `unimplemented!()` and have no behaviour. The trait
  objects and boxes are replaced by closed datatypes; an `Identifier` is the
  only expression the code defines.
- SamplePiece0 to SamplePiece11: the sample-program test of the lexer
  (src/lexer.rs:126-179) is proved piece by piece.
  - The input is cut at twelve token boundaries, and each piece lexes to its
    share of the 26 expected tokens, ending exactly at its end.
  - `LexConcat` is the general theorem that lexing pieces joined at such
    boundaries gives their token lists in sequence.
  - There is no single lemma stating that the whole input lexes to the
    26-token list: a lemma over the whole concrete input exceeds the solver's
    resource limit, and `LexConcat` composes the pieces instead.
