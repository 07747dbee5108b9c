/**
 * The lexer of lexer.go: one left-to-right scan with one character of lookahead
 * that turns the source text into tokens ending in a single end-of-input token.
 *
 * The source indexes its input byte by byte and classifies each byte as the
 * code point of the same number, so the classification predicates below are
 * Go's unicode.IsSpace, IsLetter and IsDigit restricted to the code points
 * 0..255 (Latin-1). A char of the input stands for one byte.
 */
module Lexing {
  import opened Wrappers
  import Decimal

  /** The tag of a token (TokenType). */
  datatype TokenKind =
    | Eof | Ident | Number | Str
    | Plus | Minus | Multiply | Divide | Assign | Semicolon
    | KwPrint | KwIf | KwElse | KwWhile
    | LParen | RParen | LBrace | RBrace
    | Eq | Neq | Lt | Gt | And | Or
    | KwTrue | KwFalse

  /** A tag plus the text it was read from; the end-of-input token has empty text. */
  datatype Token = Token(kind: TokenKind, value: string)

  datatype LexError =
    | UnexpectedCharacter(c: char)  // a lone '!', '&' or '|'
    | UnknownCharacter(c: char)     // a character no case of the scan accepts
    | UnterminatedString            // input ends before the closing quote

  // ---------------------------------------------------------------------------
  // Character classes (Latin-1 part of Go's unicode tables)
  // ---------------------------------------------------------------------------

  predicate IsSpace(c: char) {
    c == ' ' || '\t' <= c <= '\r' || c as int == 0x85 || c as int == 0xA0
  }

  predicate IsLetter(c: char) {
    || 'A' <= c <= 'Z' || 'a' <= c <= 'z'
    || c as int == 0xAA || c as int == 0xB5 || c as int == 0xBA
    || 0xC0 <= c as int <= 0xD6 || 0xD8 <= c as int <= 0xF6 || 0xF8 <= c as int <= 0xFF
  }

  predicate IsDigit(c: char) {
    '0' <= c <= '9'
  }

  predicate IsWordChar(c: char) {
    IsLetter(c) || IsDigit(c)
  }

  // ---------------------------------------------------------------------------
  // Spellings and keywords
  // ---------------------------------------------------------------------------

  const Keywords: set<string> := {"print", "if", "else", "while", "true", "false"}

  /** The fixed text of a keyword or operator token kind; empty for the others. */
  function Spelling(k: TokenKind): string {
    match k
    case KwPrint => "print"
    case KwIf => "if"
    case KwElse => "else"
    case KwWhile => "while"
    case KwTrue => "true"
    case KwFalse => "false"
    case Plus => "+"
    case Minus => "-"
    case Multiply => "*"
    case Divide => "/"
    case Assign => "="
    case Semicolon => ";"
    case LParen => "("
    case RParen => ")"
    case LBrace => "{"
    case RBrace => "}"
    case Eq => "=="
    case Neq => "!="
    case Lt => "<"
    case Gt => ">"
    case And => "&&"
    case Or => "||"
    case _ => ""
  }

  predicate IsKeyword(k: TokenKind) {
    k == KwPrint || k == KwIf || k == KwElse || k == KwWhile || k == KwTrue || k == KwFalse
  }

  /** The token for a word: a keyword exactly when the word is spelled as one, else an identifier. */
  function Word(w: string): (t: Token)
    ensures t.value == w
    ensures t.kind == Ident <==> w !in Keywords
    ensures t.kind != Ident ==> IsKeyword(t.kind) && Spelling(t.kind) == w
  {
    var k :=
      if w == "print" then KwPrint
      else if w == "if" then KwIf
      else if w == "else" then KwElse
      else if w == "while" then KwWhile
      else if w == "true" then KwTrue
      else if w == "false" then KwFalse
      else Ident;
    Token(k, w)
  }

  // ---------------------------------------------------------------------------
  // The scan, as functions of the input and the cursor
  // ---------------------------------------------------------------------------

  /** The one character of lookahead: the character after the cursor, or NUL past the end. */
  function Peek(input: string, pos: nat): (c: char)
    ensures pos + 1 < |input| ==> c == input[pos + 1]
    ensures pos + 1 >= |input| ==> c == 0 as char
  {
    if pos + 1 >= |input| then 0 as char else input[pos + 1]
  }

  /** End of the maximal run of letters and digits starting at pos. */
  function WordEnd(input: string, pos: nat): (end: nat)
    requires pos <= |input|
    ensures pos <= end <= |input|
    ensures forall i :: pos <= i < end ==> IsWordChar(input[i])
    ensures end == |input| || !IsWordChar(input[end])
    decreases |input| - pos
  {
    if pos < |input| && IsWordChar(input[pos]) then WordEnd(input, pos + 1) else pos
  }

  /** End of the maximal run of digits starting at pos. */
  function DigitsEnd(input: string, pos: nat): (end: nat)
    requires pos <= |input|
    ensures pos <= end <= |input|
    ensures forall i :: pos <= i < end ==> IsDigit(input[i])
    ensures end == |input| || !IsDigit(input[end])
    decreases |input| - pos
  {
    if pos < |input| && IsDigit(input[pos]) then DigitsEnd(input, pos + 1) else pos
  }

  /** Position of the first quote at or after pos, or the end of the input if there is none. */
  function QuoteEnd(input: string, pos: nat): (end: nat)
    requires pos <= |input|
    ensures pos <= end <= |input|
    ensures forall i :: pos <= i < end ==> input[i] != '"'
    ensures end == |input| || input[end] == '"'
    decreases |input| - pos
  {
    if pos < |input| && input[pos] != '"' then QuoteEnd(input, pos + 1) else pos
  }

  /** A token in front of the rest of the scan, unless the rest failed. */
  function Cons(t: Token, rest: Result<seq<Token>, LexError>): Result<seq<Token>, LexError> {
    match rest
    case Ok(ts) => Ok([t] + ts)
    case Err(e) => Err(e)
  }

  /** Tokens already produced in front of the rest of the scan, unless the rest failed. */
  function Prepend(done: seq<Token>, rest: Result<seq<Token>, LexError>): Result<seq<Token>, LexError> {
    match rest
    case Ok(ts) => Ok(done + ts)
    case Err(e) => Err(e)
  }

  /** What the scan does at one cursor position: skip whitespace, produce a token, or fail. */
  datatype Step = Skip(next: nat) | Emit(token: Token, next: nat) | Halt(error: LexError)

  /**
   * One iteration of Tokenize's loop at cursor pos, in the order of its cases.
   * Every case that does not fail moves the cursor forward.
   */
  function StepAt(input: string, pos: nat): (s: Step)
    requires pos < |input|
    ensures !s.Halt? ==> pos < s.next <= |input|
    ensures s.Emit? ==> s.token.kind != Eof
  {
    var c := input[pos];
    if IsSpace(c) then Skip(pos + 1)
    else if IsLetter(c) then
      var end := WordEnd(input, pos);
      Emit(Word(input[pos..end]), end)
    else if IsDigit(c) then
      var end := DigitsEnd(input, pos);
      Emit(Token(Number, input[pos..end]), end)
    else if c == '"' then
      var close := QuoteEnd(input, pos + 1);
      if close == |input| then Halt(UnterminatedString)
      else Emit(Token(Str, input[pos + 1..close]), close + 1)
    else if c == '+' then Emit(Token(Plus, "+"), pos + 1)
    else if c == '-' then Emit(Token(Minus, "-"), pos + 1)
    else if c == '*' then Emit(Token(Multiply, "*"), pos + 1)
    else if c == '/' then Emit(Token(Divide, "/"), pos + 1)
    else if c == '=' then
      if Peek(input, pos) == '=' then Emit(Token(Eq, "=="), pos + 2)
      else Emit(Token(Assign, "="), pos + 1)
    else if c == '!' then
      if Peek(input, pos) == '=' then Emit(Token(Neq, "!="), pos + 2)
      else Halt(UnexpectedCharacter(c))
    else if c == '<' then Emit(Token(Lt, "<"), pos + 1)
    else if c == '>' then Emit(Token(Gt, ">"), pos + 1)
    else if c == '&' then
      if Peek(input, pos) == '&' then Emit(Token(And, "&&"), pos + 2)
      else Halt(UnexpectedCharacter(c))
    else if c == '|' then
      if Peek(input, pos) == '|' then Emit(Token(Or, "||"), pos + 2)
      else Halt(UnexpectedCharacter(c))
    else if c == ';' then Emit(Token(Semicolon, ";"), pos + 1)
    else if c == '(' then Emit(Token(LParen, "("), pos + 1)
    else if c == ')' then Emit(Token(RParen, ")"), pos + 1)
    else if c == '{' then Emit(Token(LBrace, "{"), pos + 1)
    else if c == '}' then Emit(Token(RBrace, "}"), pos + 1)
    else Halt(UnknownCharacter(c))
  }

  /**
   * The tokens of input[pos..]: the whole of Tokenize from cursor pos. On success
   * the sequence ends with exactly one end-of-input token and has none before it.
   */
  function Scan(input: string, pos: nat): (r: Result<seq<Token>, LexError>)
    requires pos <= |input|
    ensures r.Ok? ==> |r.value| >= 1 && r.value[|r.value| - 1] == Token(Eof, "")
    ensures r.Ok? ==> forall i :: 0 <= i < |r.value| - 1 ==> r.value[i].kind != Eof
    decreases |input| - pos
  {
    if pos == |input| then Ok([Token(Eof, "")])
    else
      match StepAt(input, pos)
      case Skip(next) => Scan(input, next)
      case Emit(t, next) => Cons(t, Scan(input, next))
      case Halt(e) => Err(e)
  }

  /** Scan's progress: the tokens before the cursor, then the scan from one step further. */
  lemma PrependStep(input: string, pos: nat, done: seq<Token>)
    requires pos < |input| && !StepAt(input, pos).Halt?
    ensures var step := StepAt(input, pos);
      Prepend(done, Scan(input, pos))
      == Prepend(if step.Emit? then done + [step.token] else done, Scan(input, step.next))
  {
    var step := StepAt(input, pos);
    if step.Emit? && Scan(input, step.next).Ok? {
      assert done + ([step.token] + Scan(input, step.next).value)
          == (done + [step.token]) + Scan(input, step.next).value;
    }
  }

  /** The whole input's tokens. */
  function Tokens(input: string): Result<seq<Token>, LexError> {
    Scan(input, 0)
  }

  // ---------------------------------------------------------------------------
  // The Lexer object: the input and a cursor advanced in place
  // ---------------------------------------------------------------------------

  class Lexer {
    const input: string
    var pos: nat

    constructor (input: string)
      ensures this.input == input && pos == 0
    {
      this.input := input;
      pos := 0;
    }

    method PeekNext() returns (c: char)
      ensures c == Peek(input, pos)
    {
      if pos + 1 >= |input| {
        c := 0 as char;
      } else {
        c := input[pos + 1];
      }
    }

    /** Consumes the maximal letter/digit run at the cursor and classifies it. */
    method ReadIdentifier() returns (t: Token)
      requires pos <= |input|
      modifies this
      ensures pos == WordEnd(input, old(pos))
      ensures t == Word(input[old(pos)..pos])
    {
      var start := pos;
      while pos < |input| && IsWordChar(input[pos])
        invariant start <= pos <= |input|
        invariant WordEnd(input, pos) == WordEnd(input, start)
        decreases |input| - pos
      {
        pos := pos + 1;
      }
      t := Word(input[start..pos]);
    }

    /** Consumes the maximal digit run at the cursor. */
    method ReadNumber() returns (t: Token)
      requires pos <= |input|
      modifies this
      ensures pos == DigitsEnd(input, old(pos))
      ensures t == Token(Number, input[old(pos)..pos])
    {
      var start := pos;
      while pos < |input| && IsDigit(input[pos])
        invariant start <= pos <= |input|
        invariant DigitsEnd(input, pos) == DigitsEnd(input, start)
        decreases |input| - pos
      {
        pos := pos + 1;
      }
      t := Token(Number, input[start..pos]);
    }

    /** Consumes a string literal whose opening quote is at the cursor; no escapes. */
    method ReadString() returns (r: Result<Token, LexError>)
      requires pos < |input|
      modifies this
      ensures var close := QuoteEnd(input, old(pos) + 1);
        if close == |input| then r == Err(UnterminatedString)
        else r == Ok(Token(Str, input[old(pos) + 1..close])) && pos == close + 1
    {
      pos := pos + 1;
      var start := pos;
      while pos < |input| && input[pos] != '"'
        invariant start <= pos <= |input|
        invariant QuoteEnd(input, pos) == QuoteEnd(input, start)
        decreases |input| - pos
      {
        pos := pos + 1;
      }
      if pos == |input| {
        return Err(UnterminatedString);
      }
      var value := input[start..pos];
      pos := pos + 1;
      return Ok(Token(Str, value));
    }

    /**
     * One pass of the switch in Tokenize: skips a blank, consumes one token,
     * or reports the character it cannot start a token with.
     */
    method NextToken() returns (r: Result<Option<Token>, LexError>)
      requires pos < |input|
      modifies this
      ensures match StepAt(input, old(pos))
        case Skip(next) => r == Ok(None) && pos == next
        case Emit(t, next) => r == Ok(Some(t)) && pos == next
        case Halt(e) => r == Err(e)
    {
      var c := input[pos];
      if IsSpace(c) {
        pos := pos + 1;
        r := Ok(None);
      } else if IsLetter(c) {
        var t := ReadIdentifier();
        r := Ok(Some(t));
      } else if IsDigit(c) {
        var t := ReadNumber();
        r := Ok(Some(t));
      } else if c == '"' {
        var t :- ReadString();
        r := Ok(Some(t));
      } else if c == '+' {
        r := Ok(Some(Token(Plus, "+")));
        pos := pos + 1;
      } else if c == '-' {
        r := Ok(Some(Token(Minus, "-")));
        pos := pos + 1;
      } else if c == '*' {
        r := Ok(Some(Token(Multiply, "*")));
        pos := pos + 1;
      } else if c == '/' {
        r := Ok(Some(Token(Divide, "/")));
        pos := pos + 1;
      } else if c == '=' {
        var next := PeekNext();
        if next == '=' {
          r := Ok(Some(Token(Eq, "==")));
          pos := pos + 2;
        } else {
          r := Ok(Some(Token(Assign, "=")));
          pos := pos + 1;
        }
      } else if c == '!' {
        var next := PeekNext();
        if next == '=' {
          r := Ok(Some(Token(Neq, "!=")));
          pos := pos + 2;
        } else {
          return Err(UnexpectedCharacter(c));
        }
      } else if c == '<' {
        r := Ok(Some(Token(Lt, "<")));
        pos := pos + 1;
      } else if c == '>' {
        r := Ok(Some(Token(Gt, ">")));
        pos := pos + 1;
      } else if c == '&' {
        var next := PeekNext();
        if next == '&' {
          r := Ok(Some(Token(And, "&&")));
          pos := pos + 2;
        } else {
          return Err(UnexpectedCharacter(c));
        }
      } else if c == '|' {
        var next := PeekNext();
        if next == '|' {
          r := Ok(Some(Token(Or, "||")));
          pos := pos + 2;
        } else {
          return Err(UnexpectedCharacter(c));
        }
      } else if c == ';' {
        r := Ok(Some(Token(Semicolon, ";")));
        pos := pos + 1;
      } else if c == '(' {
        r := Ok(Some(Token(LParen, "(")));
        pos := pos + 1;
      } else if c == ')' {
        r := Ok(Some(Token(RParen, ")")));
        pos := pos + 1;
      } else if c == '{' {
        r := Ok(Some(Token(LBrace, "{")));
        pos := pos + 1;
      } else if c == '}' {
        r := Ok(Some(Token(RBrace, "}")));
        pos := pos + 1;
      } else {
        return Err(UnknownCharacter(c));
      }
    }

    /** Scans from the cursor to the end of the input. */
    method Tokenize() returns (r: Result<seq<Token>, LexError>)
      requires pos <= |input|
      modifies this
      ensures r == Scan(input, old(pos))
    {
      var tokens: seq<Token> := [];
      assert Scan(input, pos).Ok? ==> [] + Scan(input, pos).value == Scan(input, pos).value;
      while pos < |input|
        invariant pos <= |input|
        invariant Prepend(tokens, Scan(input, pos)) == Scan(input, old(pos))
        decreases |input| - pos
      {
        if !StepAt(input, pos).Halt? {
          PrependStep(input, pos, tokens);
        }
        var t :- NextToken();
        if t.Some? {
          tokens := tokens + [t.value];
        }
      }
      tokens := tokens + [Token(Eof, "")];
      return Ok(tokens);
    }
  }
}
