/** The syntax tree and its text rendering. Each node carries the token it
    was built from; `TokenLiteral` is that token's literal, and `ToString`
    renders the node back to source-like text. */
module Ast {
  import opened Wrappers
  import opened Tokens

  /** A name, with the token it was read from. */
  datatype Identifier = Identifier(token: Token, value: string)
  {
    function TokenLiteral(): string { token.literal }

    function ToString(): string { value }
  }

  /** The expressions of the tree: an identifier is the only one. */
  datatype Expression = IdentifierExpression(identifier: Identifier)
  {
    function TokenLiteral(): string { identifier.TokenLiteral() }

    function ToString(): string { identifier.ToString() }
  }

  /** The statements of the tree. A `let` may lack its value (the parser
      that would fill it in is absent), and a `return` keeps only its token. */
  datatype Statement =
    | LetStatement(token: Token, name: Identifier, value: Option<Expression>)
    | ReturnStatement(token: Token)
    | ExpressionStatement(token: Token, expression: Option<Expression>)
  {
    function TokenLiteral(): string { token.literal }

    /** The text of a statement. A `let` reads `<literal> <name> = <value>;`
        with nothing in place of a missing value; a `return` renders as
        nothing; an expression statement is its expression, if any. */
    function ToString(): string {
      match this
      case LetStatement(_, name, value) =>
        TokenLiteral() + " " + name.ToString() + " = " + OptionalText(value) + ";"
      case ReturnStatement(_) => ""
      case ExpressionStatement(_, expression) => OptionalText(expression)
    }
  }

  /** The rendering of an optional expression: empty when it is absent. */
  function OptionalText(e: Option<Expression>): string {
    match e
    case Some(x) => x.ToString()
    case None => ""
  }

  /** A program: its statements in order. */
  datatype Program = Program(statements: seq<Statement>)
  {
    /** The literal of the first statement's token, or empty for no statements. */
    function TokenLiteral(): string {
      if |statements| == 0 then "" else statements[0].TokenLiteral()
    }
  }

  /** The in-order concatenation of the statements' texts, with no separator. */
  function Render(statements: seq<Statement>): string
    decreases |statements|
  {
    if |statements| == 0 then "" else statements[0].ToString() + Render(statements[1..])
  }

  // ---------------------------------------------------------------------------
  // The two renderings that build a string step by step

  /** `LetStatement::to_string`: the string is grown piece by piece. */
  method LetStatementToString(st: Statement) returns (s: string)
    requires st.LetStatement?
    ensures s == st.ToString()
    ensures |s| == |st.token.literal| + |st.name.value| + 5 + |OptionalText(st.value)|
  {
    s := "";
    s := s + (st.TokenLiteral() + " " + st.name.ToString() + " = ");
    if st.value.Some? {
      s := s + st.value.value.ToString();
    }
    s := s + ";";
  }

  /** `Program::to_string`: the texts of the statements pushed one after
      the other onto an initially empty string. */
  method ProgramToString(p: Program) returns (s: string)
    ensures s == Render(p.statements)
  {
    var statements := p.statements;
    s := "";
    for i := 0 to |statements|
      invariant s == Render(statements[..i])
    {
      RenderAppend(statements[..i], [statements[i]]);
      assert statements[..i + 1] == statements[..i] + [statements[i]];
      s := s + statements[i].ToString();
    }
    assert statements[..|statements|] == statements;
  }

  // ---------------------------------------------------------------------------
  // Properties of the rendering

  /** Rendering distributes over concatenation of statement lists. */
  lemma {:induction false} RenderAppend(a: seq<Statement>, b: seq<Statement>)
    ensures Render(a + b) == Render(a) + Render(b)
    decreases |a|
  {
    if |a| == 0 {
      assert a + b == b;
    } else {
      assert (a + b)[1..] == a[1..] + b;
      RenderAppend(a[1..], b);
    }
  }

  /** A program's text is the text of every statement in order: any statement
      sits in the rendering between the texts of those before and after it. */
  lemma RenderAt(statements: seq<Statement>, i: nat)
    requires i < |statements|
    ensures Render(statements) ==
      Render(statements[..i]) + statements[i].ToString() + Render(statements[i + 1..])
  {
    assert statements == statements[..i] + statements[i..];
    RenderAppend(statements[..i], statements[i..]);
    assert statements[i..][0] == statements[i];
    assert statements[i..][1..] == statements[i + 1..];
  }

  /** Statements that render as nothing contribute nothing: a program of
      `return` statements and expression statements without an expression
      renders as the empty string. */
  lemma {:induction false} RenderOfSilentStatements(statements: seq<Statement>)
    requires forall i :: 0 <= i < |statements| ==>
      (statements[i].ReturnStatement? ||
       (statements[i].ExpressionStatement? && statements[i].expression.None?))
    ensures Render(statements) == ""
    decreases |statements|
  {
    if |statements| > 0 {
      RenderOfSilentStatements(statements[1..]);
    }
  }

  /** The program's token literal after appending statements: the first
      list's when it is non-empty, otherwise the second's. */
  lemma ProgramTokenLiteralAppend(a: seq<Statement>, b: seq<Statement>)
    ensures Program(a + b).TokenLiteral() ==
      if |a| > 0 then Program(a).TokenLiteral() else Program(b).TokenLiteral()
  {
  }

  /** The shape of a `let` rendering: it opens with the token literal, a
      space, the name and ` = `, then comes the value's text and a final `;`.
      Without a value it reads `<literal> <name> = ;`. */
  lemma LetStatementShape(st: Statement)
    requires st.LetStatement?
    ensures var r := st.ToString();
      var head := st.token.literal + " " + st.name.value + " = ";
      && |r| > |head|
      && r[..|head|] == head
      && r[|r| - 1] == ';'
      && r[|head|..|r| - 1] == OptionalText(st.value)
      && (st.value.None? ==> r == st.token.literal + " " + st.name.value + " = ;")
  {
  }

  /** Every node's token literal is the literal of the token it holds, and an
      identifier renders as its value. */
  lemma NodeTokenLiterals(id: Identifier, st: Statement)
    ensures id.TokenLiteral() == id.token.literal && id.ToString() == id.value
    ensures IdentifierExpression(id).TokenLiteral() == id.token.literal
    ensures IdentifierExpression(id).ToString() == id.value
    ensures st.TokenLiteral() == st.token.literal
    ensures Program([st]).TokenLiteral() == st.token.literal
    ensures Program([]).TokenLiteral() == ""
  {
  }

  /** What each statement renders as, apart from `let`: a `return` is always
      empty, and an expression statement is its identifier's value or empty. */
  lemma StatementTexts(st: Statement)
    ensures st.ReturnStatement? ==> st.ToString() == ""
    ensures st.ExpressionStatement? && st.expression.None? ==> st.ToString() == ""
    ensures st.ExpressionStatement? && st.expression.Some? ==>
      st.ToString() == st.expression.value.identifier.value
  {
  }

  /** The rendering unit test: a program holding the single statement
      `let myVar = anotherVar` renders as `let myVar = anotherVar;`. */
  lemma SampleLetRendering()
    ensures Render([LetStatement(
                      NewToken(Let, "let"),
                      Identifier(NewToken(Ident, "myVar"), "myVar"),
                      Some(IdentifierExpression(Identifier(NewToken(Ident, "anotherVar"), "anotherVar"))))])
            == "let myVar = anotherVar;"
  {
  }
}
