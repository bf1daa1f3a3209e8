/** The lexer: a cursor over the characters of the input that yields one token
    per call of `NextToken`. */
module Lexing {
  import opened Wrappers
  import opened Tokens

  // ---------------------------------------------------------------------------
  // Character classification

  /** Rust's `char::is_whitespace`: the Unicode White_Space property. */
  predicate IsWhitespaceChar(c: char) {
    var n := c as int;
    (0x09 <= n <= 0x0D) || n == 0x20 || n == 0x85 || n == 0xA0 || n == 0x1680 ||
    (0x2000 <= n <= 0x200A) || n == 0x2028 || n == 0x2029 || n == 0x202F ||
    n == 0x205F || n == 0x3000
  }

  /** `is_alphabetic() || == '_'`, with alphabetic taken as the ASCII letters. */
  predicate IsLetterChar(c: char) {
    ('a' <= c <= 'z') || ('A' <= c <= 'Z') || c == '_'
  }

  /** Rust's `char::is_digit(10)`: the ASCII decimal digits. */
  predicate IsDigitChar(c: char) {
    '0' <= c <= '9'
  }

  /** The single-character tokens recognised first by `next_token`. */
  predicate IsPunctuator(c: char) {
    c == '+' || c == '=' || c == '(' || c == ')' || c == '{' || c == '}' || c == ',' || c == ';'
  }

  /** The kind of a one-character punctuator literal, with `EOF` for any
      other character. */
  function PunctuatorKind(c: char): (k: TokenType)
    ensures k != Eof <==> IsPunctuator(c)
    ensures k in {Plus, Assign, LeftParen, RightParen, LeftBrace, RightBrace, Comma, Semicolon, Eof}
  {
    match c
    case '+' => Plus
    case '=' => Assign
    case '(' => LeftParen
    case ')' => RightParen
    case '{' => LeftBrace
    case '}' => RightBrace
    case ',' => Comma
    case ';' => Semicolon
    case _ => Eof
  }

  /** Parsing a literal as a token kind: it succeeds on the one-character
      literals of the punctuators and fails on anything else. With `EOF` as the
      fallback of a failed parse it is `PunctuatorKind`. */
  function ParseTokenType(literal: string): (r: Option<TokenType>)
    ensures r.Some? <==> |literal| == 1 && IsPunctuator(literal[0])
    ensures |literal| == 1 ==> r.GetOr(Eof) == PunctuatorKind(literal[0])
  {
    if |literal| == 1 && IsPunctuator(literal[0]) then Some(PunctuatorKind(literal[0])) else None
  }

  /** The three kinds of maximal run the lexer consumes. */
  datatype CharClass = Whitespace | Letters | Digits

  predicate InClass(c: char, cls: CharClass) {
    match cls
    case Whitespace => IsWhitespaceChar(c)
    case Letters => IsLetterChar(c)
    case Digits => IsDigitChar(c)
  }

  /** The index just past the maximal run of `cls` characters starting at `p`. */
  function RunEnd(s: seq<char>, p: nat, cls: CharClass): (e: nat)
    ensures p <= e
    ensures p <= |s| ==> e <= |s|
    decreases |s| - p
  {
    if p < |s| && InClass(s[p], cls) then RunEnd(s, p + 1, cls) else p
  }

  /** The run is maximal: every character in it belongs to `cls`, and the
      character just past it, if any, does not. */
  lemma {:induction false} RunEndSpec(s: seq<char>, p: nat, cls: CharClass)
    ensures var e := RunEnd(s, p, cls);
      && (forall i :: p <= i < e ==> i < |s| && InClass(s[i], cls))
      && (e < |s| ==> !InClass(s[e], cls))
    decreases |s| - p
  {
    if p < |s| && InClass(s[p], cls) {
      RunEndSpec(s, p + 1, cls);
    }
  }

  /** The lookahead character at a cursor position. */
  function CharAt(s: seq<char>, i: nat): (r: Option<char>)
    ensures r.Some? <==> i < |s|
    ensures i < |s| ==> r.value == s[i]
  {
    if i < |s| then Some(s[i]) else None
  }

  // ---------------------------------------------------------------------------
  // One call of next_token, as a function of the input and the cursor

  /** What a call of `next_token` does: return a token, or panic because an
      identifier or number ran into the end of the input. */
  datatype Step = Emit(token: Token) | Panic

  /** The outcome of `next_token` from cursor `p` and the cursor it leaves. */
  function Scan(s: seq<char>, p: nat): (Step, nat)
  {
    var q := RunEnd(s, p, Whitespace);
    if q >= |s| then
      (Emit(Token(Eof, "")), q + 1)
    else if IsPunctuator(s[q]) then
      (Emit(Token(PunctuatorKind(s[q]), [s[q]])), q + 1)
    else if IsLetterChar(s[q]) then
      var e := RunEnd(s, q, Letters);
      if e < |s| then (Emit(Token(LookupIdentifier(s[q..e]), s[q..e])), e) else (Panic, e)
    else if IsDigitChar(s[q]) then
      var e := RunEnd(s, q, Digits);
      if e < |s| then (Emit(Token(Integer, s[q..e])), e) else (Panic, e)
    else
      (Emit(Token(Illegal, [s[q]])), q)
  }

  /** `n` successive calls of `next_token` from cursor `p`: what they
      return, and the cursor they leave. A panic ends the run. */
  function Run(s: seq<char>, p: nat, n: nat): (r: (seq<Step>, nat))
    ensures |r.0| <= n
    decreases n
  {
    if n == 0 then ([], p)
    else
      var (step, p') := Scan(s, p);
      if step.Panic? then ([Panic], p')
      else
        var (rest, e) := Run(s, p', n - 1);
        ([step] + rest, e)
  }

  /** The results of `n` successive calls of `next_token` from `p`. */
  function Lex(s: seq<char>, p: nat, n: nat): seq<Step> {
    Run(s, p, n).0
  }

  /** The cursor after `n` successive calls of `next_token` from `p`. */
  function After(s: seq<char>, p: nat, n: nat): nat {
    Run(s, p, n).1
  }

  // ---------------------------------------------------------------------------
  // The lexer object

  class Lexer {
    const input: seq<char>
    var position: nat
    var readPosition: nat
    var ch: Option<char>

    /** The cursor invariant that holds after every `ReadChar`. */
    ghost predicate Valid()
      reads this
    {
      readPosition == position + 1 && ch == CharAt(input, position)
    }

    constructor (input: seq<char>)
      ensures this.input == input
      ensures position == 0 && Valid()
    {
      this.input := input;
      position := 0;
      readPosition := 0;
      ch := None;
      new;
      ReadChar();
    }

    /** Move the cursor to `readPosition` and load the lookahead there. */
    method ReadChar()
      modifies this
      ensures position == old(readPosition) && readPosition == old(readPosition) + 1
      ensures ch == CharAt(input, position)
      ensures Valid()
    {
      if |input| > readPosition {
        ch := Some(input[readPosition]);
      } else {
        ch := None;
      }
      position := readPosition;
      readPosition := readPosition + 1;
    }

    /** `is_letter`: `None` stands for the panic of unwrapping a missing lookahead. */
    function IsLetter(): (r: Option<bool>)
      reads this
      ensures r.None? <==> ch.None?
      ensures r == Some(true) <==> ch.Some? && IsLetterChar(ch.value)
    {
      match ch
      case None => None
      case Some(c) => Some(IsLetterChar(c))
    }

    /** `is_digit`: `None` stands for the panic of unwrapping a missing lookahead. */
    function IsDigit(): (r: Option<bool>)
      reads this
      ensures r.None? <==> ch.None?
      ensures r == Some(true) <==> ch.Some? && IsDigitChar(ch.value)
    {
      match ch
      case None => None
      case Some(c) => Some(IsDigitChar(c))
    }

    /** Advance past all whitespace at the cursor. */
    method SkipWhitespace()
      requires Valid()
      modifies this
      ensures Valid()
      ensures position == RunEnd(input, old(position), Whitespace)
    {
      while ch.Some?
        invariant Valid()
        invariant RunEnd(input, position, Whitespace) == RunEnd(input, old(position), Whitespace)
        decreases |input| - position
      {
        if IsWhitespaceChar(ch.value) {
          ReadChar();
        } else {
          break;
        }
      }
    }

    /** Consume the maximal run of letters at the cursor and return it;
        `None` when the run reaches the end of the input (a panic). */
    method ReadIdentifier() returns (r: Option<string>)
      requires Valid()
      modifies this
      ensures Valid()
      ensures position == RunEnd(input, old(position), Letters)
      ensures r.Some? <==> position < |input|
      ensures r.Some? ==> r.value == input[old(position)..position]
    {
      var start := position;
      var letter := IsLetter();
      while letter == Some(true)
        invariant Valid() && letter == IsLetter()
        invariant RunEnd(input, position, Letters) == RunEnd(input, start, Letters)
        invariant start <= position
        decreases |input| - position
      {
        ReadChar();
        letter := IsLetter();
      }
      if letter.None? {
        return None;
      }
      r := Some(input[start..position]);
    }

    /** Consume the maximal run of digits at the cursor and return it;
        `None` when the run reaches the end of the input (a panic). */
    method ReadNumber() returns (r: Option<string>)
      requires Valid()
      modifies this
      ensures Valid()
      ensures position == RunEnd(input, old(position), Digits)
      ensures r.Some? <==> position < |input|
      ensures r.Some? ==> r.value == input[old(position)..position]
    {
      var start := position;
      var digit := IsDigit();
      while digit == Some(true)
        invariant Valid() && digit == IsDigit()
        invariant RunEnd(input, position, Digits) == RunEnd(input, start, Digits)
        invariant start <= position
        decreases |input| - position
      {
        ReadChar();
        digit := IsDigit();
      }
      if digit.None? {
        return None;
      }
      r := Some(input[start..position]);
    }

    /** Skip whitespace, then read one token. */
    method NextToken() returns (r: Step)
      requires Valid()
      modifies this
      ensures Valid()
      ensures (r, position) == Scan(input, old(position))
    {
      SkipWhitespace();
      if ch.Some? {
        var c := ch.value;
        if IsPunctuator(c) {
          var literal := [c];
          var tokenType := ParseTokenType(literal).GetOr(Eof);
          ReadChar();
          return Emit(NewToken(tokenType, literal));
        } else if IsLetter() == Some(true) {
          var literal := ReadIdentifier();
          if literal.None? {
            return Panic;
          }
          var tokenType := LookupIdentifier(literal.value);
          return Emit(NewToken(tokenType, literal.value));
        } else if IsDigit() == Some(true) {
          var literal := ReadNumber();
          if literal.None? {
            return Panic;
          }
          return Emit(NewToken(Integer, literal.value));
        } else {
          return Emit(NewToken(Illegal, [c]));
        }
      }
      ReadChar();
      return Emit(NewToken(Eof, ""));
    }
  }

  // ---------------------------------------------------------------------------
  // Properties of next_token

  /** The character classes are disjoint: a digit is never part of an
      identifier, and no punctuator is whitespace, a letter or a digit. */
  lemma ClassesAreDisjoint(c: char)
    ensures !(IsLetterChar(c) && IsDigitChar(c))
    ensures IsPunctuator(c) ==> !IsWhitespaceChar(c) && !IsLetterChar(c) && !IsDigitChar(c)
    ensures (IsLetterChar(c) || IsDigitChar(c)) ==> !IsWhitespaceChar(c)
  {
  }

  /** The punctuator table of the sample-program test, and its injectivity. */
  lemma PunctuatorKinds()
    ensures PunctuatorKind('+') == Plus && PunctuatorKind('=') == Assign
    ensures PunctuatorKind('(') == LeftParen && PunctuatorKind(')') == RightParen
    ensures PunctuatorKind('{') == LeftBrace && PunctuatorKind('}') == RightBrace
    ensures PunctuatorKind(',') == Comma && PunctuatorKind(';') == Semicolon
    ensures forall c, d :: IsPunctuator(c) && IsPunctuator(d) && PunctuatorKind(c) == PunctuatorKind(d) ==> c == d
  {
  }

  /** Leading whitespace is consumed first: everything between the cursor and
      the token is whitespace, and a token (other than EOF) begins on the
      first non-whitespace character. */
  lemma TokenNeverStartsOnWhitespace(s: seq<char>, p: nat)
    requires Scan(s, p).0.Emit? && Scan(s, p).0.token.tokenType != Eof
    ensures var q := RunEnd(s, p, Whitespace);
      var t := Scan(s, p).0.token;
      && (forall i :: p <= i < q ==> IsWhitespaceChar(s[i]))
      && q < |s| && s[q..q + |t.literal|] == t.literal
      && t.literal != [] && !IsWhitespaceChar(t.literal[0])
  {
    var q := RunEnd(s, p, Whitespace);
    RunEndSpec(s, p, Whitespace);
    assert q < |s|;
    if IsLetterChar(s[q]) || (!IsPunctuator(s[q]) && IsDigitChar(s[q])) {
      var e := RunEnd(s, q, if IsLetterChar(s[q]) then Letters else Digits);
      assert q < e;
    }
  }

  /** A punctuator yields its own one-character literal and advances by one. */
  lemma PunctuatorToken(s: seq<char>, p: nat)
    requires var q := RunEnd(s, p, Whitespace); q < |s| && IsPunctuator(s[q])
    ensures var q := RunEnd(s, p, Whitespace);
      && Scan(s, p).0 == Emit(Token(PunctuatorKind(s[q]), [s[q]]))
      && Scan(s, p).0.token.tokenType != Eof
      && Scan(s, p).1 == q + 1
  {
  }

  /** Maximal munch for identifiers: the literal is the whole run of letters
      at the first non-whitespace character, its kind is the keyword lookup of
      the literal, and the cursor stops on the first non-letter. A run that
      reaches the end of the input panics. */
  lemma IdentifierToken(s: seq<char>, p: nat)
    requires var q := RunEnd(s, p, Whitespace); q < |s| && IsLetterChar(s[q])
    ensures var q := RunEnd(s, p, Whitespace);
      var (step, e) := Scan(s, p);
      && (step.Emit? ==>
            && q < e < |s|
            && step.token == Token(LookupIdentifier(s[q..e]), s[q..e])
            && (forall i :: q <= i < e ==> IsLetterChar(s[i]) && !IsDigitChar(s[i]))
            && !IsLetterChar(s[e]))
      && (step.Panic? <==> forall i :: q <= i < |s| ==> IsLetterChar(s[i]))
  {
    var q := RunEnd(s, p, Whitespace);
    var e := RunEnd(s, q, Letters);
    RunEndSpec(s, q, Letters);
    ClassesAreDisjoint(s[q]);
    forall i | q <= i < e
      ensures IsLetterChar(s[i]) && !IsDigitChar(s[i])
    {
      ClassesAreDisjoint(s[i]);
    }
    if e >= |s| {
      assert e == |s|;
    }
  }

  /** Maximal munch for numbers: a digit that is not a letter starts an
      `Integer` token whose literal is the whole run of digits. */
  lemma NumberToken(s: seq<char>, p: nat)
    requires var q := RunEnd(s, p, Whitespace); q < |s| && IsDigitChar(s[q]) && !IsLetterChar(s[q])
    ensures var q := RunEnd(s, p, Whitespace);
      var (step, e) := Scan(s, p);
      && (step.Emit? ==>
            && q < e < |s|
            && step.token == Token(Integer, s[q..e])
            && (forall i :: q <= i < e ==> IsDigitChar(s[i]))
            && !IsDigitChar(s[e]))
      && (step.Panic? <==> forall i :: q <= i < |s| ==> IsDigitChar(s[i]))
  {
    var q := RunEnd(s, p, Whitespace);
    var e := RunEnd(s, q, Digits);
    RunEndSpec(s, q, Digits);
    ClassesAreDisjoint(s[q]);
    if e >= |s| {
      assert e == |s|;
    }
  }

  /** Any other character yields `Illegal` with that character as literal and
      leaves the cursor on it, so the next call returns the same token again. */
  lemma IllegalTokenRepeats(s: seq<char>, p: nat)
    requires var q := RunEnd(s, p, Whitespace);
      q < |s| && !IsPunctuator(s[q]) && !IsLetterChar(s[q]) && !IsDigitChar(s[q])
    ensures var q := RunEnd(s, p, Whitespace);
      && Scan(s, p) == (Emit(Token(Illegal, [s[q]])), q)
      && Scan(s, q) == Scan(s, p)
  {
    var q := RunEnd(s, p, Whitespace);
    RunEndSpec(s, p, Whitespace);
    assert RunEnd(s, q, Whitespace) == q;
  }

  /** Once the lookahead is exhausted every call returns EOF with an empty
      literal, and only the cursor keeps moving. */
  lemma {:induction false} EofForever(s: seq<char>, p: nat, n: nat)
    requires p >= |s|
    ensures Scan(s, p) == (Emit(Token(Eof, "")), p + 1)
    ensures Lex(s, p, n) == seq(n, _ => Emit(Token(Eof, "")))
    decreases n
  {
    assert RunEnd(s, p, Whitespace) == p;
    if n > 0 {
      EofForever(s, p + 1, n - 1);
      assert Lex(s, p, n) == [Emit(Token(Eof, ""))] + Lex(s, p + 1, n - 1);
    }
  }

  /** `RunEnd` is pinned down by its characterisation: a run of `cls`
      characters from `p` to `e` followed by a non-member (or the end). */
  lemma {:induction false} RunEndIs(s: seq<char>, p: nat, e: nat, cls: CharClass)
    requires p <= e <= |s|
    requires forall i :: p <= i < e ==> InClass(s[i], cls)
    requires e < |s| ==> !InClass(s[e], cls)
    ensures RunEnd(s, p, cls) == e
    decreases e - p
  {
    if p < e {
      RunEndIs(s, p + 1, e, cls);
    }
  }

  /** Conversely, a maximal run of letters after the whitespace is what
      `next_token` returns, with the keyword lookup of the run as its kind. */
  lemma LetterRunToken(s: seq<char>, p: nat, e: nat)
    requires var q := RunEnd(s, p, Whitespace);
      && q < e < |s| && !IsLetterChar(s[e])
      && forall i :: q <= i < e ==> IsLetterChar(s[i])
    ensures var q := RunEnd(s, p, Whitespace);
      Scan(s, p) == (Emit(Token(LookupIdentifier(s[q..e]), s[q..e])), e)
  {
    var q := RunEnd(s, p, Whitespace);
    RunEndIs(s, q, e, Letters);
    ClassesAreDisjoint(s[q]);
  }

  /** Conversely, a maximal run of digits after the whitespace, not starting
      on a letter, is what `next_token` returns as an `Integer`. */
  lemma DigitRunToken(s: seq<char>, p: nat, e: nat)
    requires var q := RunEnd(s, p, Whitespace);
      && q < e < |s| && !IsDigitChar(s[e])
      && forall i :: q <= i < e ==> IsDigitChar(s[i])
    ensures var q := RunEnd(s, p, Whitespace);
      Scan(s, p) == (Emit(Token(Integer, s[q..e])), e)
  {
    var q := RunEnd(s, p, Whitespace);
    RunEndIs(s, q, e, Digits);
    ClassesAreDisjoint(s[q]);
  }

  /** `n + m` calls are `n` calls followed by `m` calls from where they left
      the cursor (provided the first `n` do not panic). */
  lemma {:induction false} LexSplit(s: seq<char>, p: nat, n: nat, m: nat)
    requires Panic !in Lex(s, p, n)
    ensures Lex(s, p, n + m) == Lex(s, p, n) + Lex(s, After(s, p, n), m)
    decreases n
  {
    if n > 0 {
      var (step, p') := Scan(s, p);
      assert Lex(s, p, n)[0] == step;
      assert Lex(s, p, n) == [step] + Lex(s, p', n - 1);
      LexSplit(s, p', n - 1, m);
    }
  }

  lemma {:induction false} RunEndShift(a: seq<char>, b: seq<char>, p: nat, cls: CharClass)
    ensures RunEnd(a + b, |a| + p, cls) == |a| + RunEnd(b, p, cls)
    decreases |b| - p
  {
    if p < |b| {
      assert (a + b)[|a| + p] == b[p];
      if InClass(b[p], cls) {
        RunEndShift(a, b, p + 1, cls);
      }
    }
  }

  /** Lexing depends only on the input from the cursor on: a call at
      `|a| + p` in `a + b` returns what a call at `p` in `b` returns. */
  lemma ScanShift(a: seq<char>, b: seq<char>, p: nat)
    ensures Scan(a + b, |a| + p) == (Scan(b, p).0, |a| + Scan(b, p).1)
  {
    var s := a + b;
    RunEndShift(a, b, p, Whitespace);
    var q := RunEnd(b, p, Whitespace);
    if q < |b| {
      assert s[|a| + q] == b[q];
      RunEndShift(a, b, q, Letters);
      RunEndShift(a, b, q, Digits);
      var e := RunEnd(b, q, Letters);
      var d := RunEnd(b, q, Digits);
      assert s[|a| + q..|a| + e] == b[q..e];
      assert s[|a| + q..|a| + d] == b[q..d];
    }
  }

  lemma {:induction false} LexShift(a: seq<char>, b: seq<char>, p: nat, n: nat)
    ensures Lex(a + b, |a| + p, n) == Lex(b, p, n)
    ensures After(a + b, |a| + p, n) == |a| + After(b, p, n)
    decreases n
  {
    if n > 0 {
      ScanShift(a, b, p);
      LexShift(a, b, Scan(b, p).1, n - 1);
    }
  }

  lemma {:induction false} RunEndAppend(a: seq<char>, b: seq<char>, p: nat, cls: CharClass)
    requires RunEnd(a, p, cls) < |a|
    ensures RunEnd(a + b, p, cls) == RunEnd(a, p, cls)
    decreases |a| - p
  {
    assert (a + b)[p] == a[p];
    if InClass(a[p], cls) {
      RunEndAppend(a, b, p + 1, cls);
    }
  }

  /** A token other than EOF, whose end is known without looking past it. */
  predicate Completed(step: Step) {
    step.Emit? && step.token.tokenType != Eof
  }

  /** Input appended after a completed token does not change that token:
      the lexer never looks further than the character that ends it. */
  lemma ScanAppend(a: seq<char>, b: seq<char>, p: nat)
    requires Completed(Scan(a, p).0)
    ensures Scan(a + b, p) == Scan(a, p)
    ensures Scan(a, p).1 <= |a|
  {
    var s := a + b;
    var q := RunEnd(a, p, Whitespace);
    RunEndAppend(a, b, p, Whitespace);
    assert s[q] == a[q];
    if IsLetterChar(a[q]) && !IsPunctuator(a[q]) {
      var e := RunEnd(a, q, Letters);
      RunEndAppend(a, b, q, Letters);
      assert s[q..e] == a[q..e];
    } else if IsDigitChar(a[q]) && !IsPunctuator(a[q]) {
      var e := RunEnd(a, q, Digits);
      RunEndAppend(a, b, q, Digits);
      assert s[q..e] == a[q..e];
    }
  }

  lemma {:induction false} LexAppend(a: seq<char>, b: seq<char>, p: nat, n: nat)
    requires forall step :: step in Lex(a, p, n) ==> Completed(step)
    ensures Lex(a + b, p, n) == Lex(a, p, n)
    ensures After(a + b, p, n) == After(a, p, n)
    decreases n
  {
    if n > 0 {
      var (step, p') := Scan(a, p);
      assert step in Lex(a, p, n);
      ScanAppend(a, b, p);
      assert Lex(a, p, n) == [step] + Lex(a, p', n - 1);
      LexAppend(a, b, p', n - 1);
    }
  }

  /** Lexing a concatenation whose first part ends exactly on a token
      boundary is lexing the two parts one after the other. */
  lemma LexConcat(a: seq<char>, b: seq<char>, n: nat, m: nat)
    requires forall step :: step in Lex(a, 0, n) ==> Completed(step)
    requires After(a, 0, n) == |a|
    ensures Lex(a + b, 0, n + m) == Lex(a, 0, n) + Lex(b, 0, m)
  {
    LexAppend(a, b, 0, n);
    LexSplit(a + b, 0, n, m);
    LexShift(a, b, 0, m);
  }

  /** The pieces of the sample input, each lexed on its own: the calls of
      `next_token` on a piece yield its tokens and stop exactly at its end. */
  lemma SamplePiece0(s: seq<char>)
    requires s == "let five ="
    ensures Lex(s, 0, 3) == [Emit(Token(Let, "let")), Emit(Token(Ident, "five")), Emit(Token(Assign, "="))]
    ensures After(s, 0, 3) == |s|
  {
    assert Scan(s, 8) == (Emit(Token(Assign, "=")), 10) by {
      assert RunEnd(s, 9, Whitespace) == 9;
      assert RunEnd(s, 8, Whitespace) == 9;
    }
    assert Scan(s, 3) == (Emit(Token(Ident, "five")), 8) by {
      assert RunEnd(s, 4, Whitespace) == 4;
      assert RunEnd(s, 3, Whitespace) == 4;
      assert RunEnd(s, 8, Letters) == 8;
      assert RunEnd(s, 7, Letters) == 8;
      assert RunEnd(s, 6, Letters) == 8;
      assert RunEnd(s, 5, Letters) == 8;
      assert RunEnd(s, 4, Letters) == 8;
      assert s[4..8] == "five";
    }
    assert Scan(s, 0) == (Emit(Token(Let, "let")), 3) by {
      assert RunEnd(s, 0, Whitespace) == 0;
      assert RunEnd(s, 3, Letters) == 3;
      assert RunEnd(s, 2, Letters) == 3;
      assert RunEnd(s, 1, Letters) == 3;
      assert RunEnd(s, 0, Letters) == 3;
      assert s[0..3] == "let";
    }
  }

  lemma SamplePiece1(s: seq<char>)
    requires s == " 5;"
    ensures Lex(s, 0, 2) == [Emit(Token(Integer, "5")), Emit(Token(Semicolon, ";"))]
    ensures After(s, 0, 2) == |s|
  {
    assert Scan(s, 2) == (Emit(Token(Semicolon, ";")), 3) by {
      assert RunEnd(s, 2, Whitespace) == 2;
    }
    assert Scan(s, 0) == (Emit(Token(Integer, "5")), 2) by {
      assert RunEnd(s, 1, Whitespace) == 1;
      assert RunEnd(s, 0, Whitespace) == 1;
      assert RunEnd(s, 2, Digits) == 2;
      assert RunEnd(s, 1, Digits) == 2;
      assert s[1..2] == "5";
    }
  }

  lemma SamplePiece2(s: seq<char>)
    requires s == "\n        let ten ="
    ensures Lex(s, 0, 3) == [Emit(Token(Let, "let")), Emit(Token(Ident, "ten")), Emit(Token(Assign, "="))]
    ensures After(s, 0, 3) == |s|
  {
    assert Scan(s, 16) == (Emit(Token(Assign, "=")), 18) by {
      assert RunEnd(s, 17, Whitespace) == 17;
      assert RunEnd(s, 16, Whitespace) == 17;
    }
    assert Scan(s, 12) == (Emit(Token(Ident, "ten")), 16) by {
      assert RunEnd(s, 13, Whitespace) == 13;
      assert RunEnd(s, 12, Whitespace) == 13;
      assert RunEnd(s, 16, Letters) == 16;
      assert RunEnd(s, 15, Letters) == 16;
      assert RunEnd(s, 14, Letters) == 16;
      assert RunEnd(s, 13, Letters) == 16;
      assert s[13..16] == "ten";
    }
    assert Scan(s, 0) == (Emit(Token(Let, "let")), 12) by {
      assert s[0..9] == "\n        ";
      RunEndIs(s, 0, 9, Whitespace);
      assert RunEnd(s, 12, Letters) == 12;
      assert RunEnd(s, 11, Letters) == 12;
      assert RunEnd(s, 10, Letters) == 12;
      assert RunEnd(s, 9, Letters) == 12;
      assert s[9..12] == "let";
    }
  }

  lemma SamplePiece3(s: seq<char>)
    requires s == " 10;"
    ensures Lex(s, 0, 2) == [Emit(Token(Integer, "10")), Emit(Token(Semicolon, ";"))]
    ensures After(s, 0, 2) == |s|
  {
    assert Scan(s, 3) == (Emit(Token(Semicolon, ";")), 4) by {
      assert RunEnd(s, 3, Whitespace) == 3;
    }
    assert Scan(s, 0) == (Emit(Token(Integer, "10")), 3) by {
      assert RunEnd(s, 1, Whitespace) == 1;
      assert RunEnd(s, 0, Whitespace) == 1;
      assert RunEnd(s, 3, Digits) == 3;
      assert RunEnd(s, 2, Digits) == 3;
      assert RunEnd(s, 1, Digits) == 3;
      assert s[1..3] == "10";
    }
  }

  lemma SamplePiece4(s: seq<char>)
    requires s == "\n        let add ="
    ensures Lex(s, 0, 3) == [Emit(Token(Let, "let")), Emit(Token(Ident, "add")), Emit(Token(Assign, "="))]
    ensures After(s, 0, 3) == |s|
  {
    assert Scan(s, 16) == (Emit(Token(Assign, "=")), 18) by {
      assert RunEnd(s, 17, Whitespace) == 17;
      assert RunEnd(s, 16, Whitespace) == 17;
    }
    assert Scan(s, 12) == (Emit(Token(Ident, "add")), 16) by {
      assert RunEnd(s, 13, Whitespace) == 13;
      assert RunEnd(s, 12, Whitespace) == 13;
      assert RunEnd(s, 16, Letters) == 16;
      assert RunEnd(s, 15, Letters) == 16;
      assert RunEnd(s, 14, Letters) == 16;
      assert RunEnd(s, 13, Letters) == 16;
      assert s[13..16] == "add";
    }
    assert Scan(s, 0) == (Emit(Token(Let, "let")), 12) by {
      assert s[0..9] == "\n        ";
      RunEndIs(s, 0, 9, Whitespace);
      assert RunEnd(s, 12, Letters) == 12;
      assert RunEnd(s, 11, Letters) == 12;
      assert RunEnd(s, 10, Letters) == 12;
      assert RunEnd(s, 9, Letters) == 12;
      assert s[9..12] == "let";
    }
  }

  lemma SamplePiece5(s: seq<char>)
    requires s == " fn("
    ensures Lex(s, 0, 2) == [Emit(Token(Function, "fn")), Emit(Token(LeftParen, "("))]
    ensures After(s, 0, 2) == |s|
  {
    assert Scan(s, 3) == (Emit(Token(LeftParen, "(")), 4) by {
      assert RunEnd(s, 3, Whitespace) == 3;
    }
    assert Scan(s, 0) == (Emit(Token(Function, "fn")), 3) by {
      assert RunEnd(s, 1, Whitespace) == 1;
      assert RunEnd(s, 0, Whitespace) == 1;
      assert RunEnd(s, 3, Letters) == 3;
      assert RunEnd(s, 2, Letters) == 3;
      assert RunEnd(s, 1, Letters) == 3;
      assert s[1..3] == "fn";
    }
  }

  lemma SamplePiece6(s: seq<char>)
    requires s == "x,"
    ensures Lex(s, 0, 2) == [Emit(Token(Ident, "x")), Emit(Token(Comma, ","))]
    ensures After(s, 0, 2) == |s|
  {
    assert Scan(s, 1) == (Emit(Token(Comma, ",")), 2) by {
      assert RunEnd(s, 1, Whitespace) == 1;
    }
    assert Scan(s, 0) == (Emit(Token(Ident, "x")), 1) by {
      assert RunEnd(s, 0, Whitespace) == 0;
      assert RunEnd(s, 1, Letters) == 1;
      assert RunEnd(s, 0, Letters) == 1;
      assert s[0..1] == "x";
    }
  }

  lemma SamplePiece7(s: seq<char>)
    requires s == " y)"
    ensures Lex(s, 0, 2) == [Emit(Token(Ident, "y")), Emit(Token(RightParen, ")"))]
    ensures After(s, 0, 2) == |s|
  {
    assert Scan(s, 2) == (Emit(Token(RightParen, ")")), 3) by {
      assert RunEnd(s, 2, Whitespace) == 2;
    }
    assert Scan(s, 0) == (Emit(Token(Ident, "y")), 2) by {
      assert RunEnd(s, 1, Whitespace) == 1;
      assert RunEnd(s, 0, Whitespace) == 1;
      assert RunEnd(s, 2, Letters) == 2;
      assert RunEnd(s, 1, Letters) == 2;
      assert s[1..2] == "y";
    }
  }

  lemma SamplePiece8(s: seq<char>)
    requires s == " {"
    ensures Lex(s, 0, 1) == [Emit(Token(LeftBrace, "{"))]
    ensures After(s, 0, 1) == |s|
  {
    assert Scan(s, 0) == (Emit(Token(LeftBrace, "{")), 2) by {
      assert RunEnd(s, 1, Whitespace) == 1;
      assert RunEnd(s, 0, Whitespace) == 1;
    }
  }

  lemma SamplePiece9(s: seq<char>)
    requires s == "\n          x +"
    ensures Lex(s, 0, 2) == [Emit(Token(Ident, "x")), Emit(Token(Plus, "+"))]
    ensures After(s, 0, 2) == |s|
  {
    assert Scan(s, 12) == (Emit(Token(Plus, "+")), 14) by {
      assert RunEnd(s, 13, Whitespace) == 13;
      assert RunEnd(s, 12, Whitespace) == 13;
    }
    assert Scan(s, 0) == (Emit(Token(Ident, "x")), 12) by {
      assert s[0..11] == "\n          ";
      RunEndIs(s, 0, 11, Whitespace);
      assert RunEnd(s, 12, Letters) == 12;
      assert RunEnd(s, 11, Letters) == 12;
      assert s[11..12] == "x";
    }
  }

  lemma SamplePiece10(s: seq<char>)
    requires s == " y;"
    ensures Lex(s, 0, 2) == [Emit(Token(Ident, "y")), Emit(Token(Semicolon, ";"))]
    ensures After(s, 0, 2) == |s|
  {
    assert Scan(s, 2) == (Emit(Token(Semicolon, ";")), 3) by {
      assert RunEnd(s, 2, Whitespace) == 2;
    }
    assert Scan(s, 0) == (Emit(Token(Ident, "y")), 2) by {
      assert RunEnd(s, 1, Whitespace) == 1;
      assert RunEnd(s, 0, Whitespace) == 1;
      assert RunEnd(s, 2, Letters) == 2;
      assert RunEnd(s, 1, Letters) == 2;
      assert s[1..2] == "y";
    }
  }

  lemma SamplePiece11(s: seq<char>)
    requires s == "\n        };"
    ensures Lex(s, 0, 3) == [Emit(Token(RightBrace, "}")), Emit(Token(Semicolon, ";")), Emit(Token(Eof, ""))]
  {
    assert Scan(s, 11) == (Emit(Token(Eof, "")), 12) by {
      assert RunEnd(s, 11, Whitespace) == 11;
    }
    assert Scan(s, 10) == (Emit(Token(Semicolon, ";")), 11) by {
      assert RunEnd(s, 10, Whitespace) == 10;
    }
    assert Scan(s, 0) == (Emit(Token(RightBrace, "}")), 10) by {
      assert s[0..9] == "\n        ";
      RunEndIs(s, 0, 9, Whitespace);
    }
  }

}
