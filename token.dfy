/** The token model: the closed set of lexical kinds and the token value. */
module Tokens {

  /** The fourteen kinds of token the lexer can produce. */
  datatype TokenType =
    | Illegal
    | Eof
      // identifiers and literals
    | Ident
    | Integer
      // operators
    | Assign
    | Plus
      // delimiters
    | Comma
    | Semicolon
    | LeftParen
    | RightParen
    | LeftBrace
    | RightBrace
      // keywords
    | Function
    | Let

  /** Every kind, once each, in declaration order. */
  const AllTokenTypes: seq<TokenType> :=
    [Illegal, Eof, Ident, Integer, Assign, Plus, Comma, Semicolon,
     LeftParen, RightParen, LeftBrace, RightBrace, Function, Let]

  /** A token: its kind and the exact source text it was read from.
      Datatype equality is field-wise, as the derived equality of the struct. */
  datatype Token = Token(tokenType: TokenType, literal: string)

  /** The token constructor: it stores exactly the kind and literal it is given. */
  function NewToken(tokenType: TokenType, literal: string): (t: Token)
    ensures t.tokenType == tokenType && t.literal == literal
  {
    Token(tokenType, literal)
  }

  /** Keyword recognition: the words `fn` and `let` are keywords, every other
      word (the empty one included) is an identifier. */
  function LookupIdentifier(identifier: string): (k: TokenType)
    ensures k == Function <==> identifier == "fn"
    ensures k == Let <==> identifier == "let"
    ensures k == Ident <==> identifier != "fn" && identifier != "let"
  {
    match identifier
    case "fn" => Function
    case "let" => Let
    case _ => Ident
  }

  /** The enumeration is closed and has exactly fourteen distinct members. */
  lemma TokenTypesAreFourteen(k: TokenType)
    ensures |AllTokenTypes| == 14
    ensures k in AllTokenTypes
    ensures forall i, j :: 0 <= i < j < |AllTokenTypes| ==> AllTokenTypes[i] != AllTokenTypes[j]
  {
  }

  /** The unit tests of keyword lookup, and the range of the lookup: it never
      yields anything but a keyword kind or `Ident`. */
  lemma LookupIdentifierExamples(identifier: string)
    ensures LookupIdentifier("fn") == Function
    ensures LookupIdentifier("let") == Let
    ensures LookupIdentifier("assda") == Ident
    ensures LookupIdentifier("") == Ident
    ensures LookupIdentifier(identifier) in {Function, Let, Ident}
  {
  }
}
