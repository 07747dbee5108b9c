/**
 * What the scan of lexer.go promises about the tokens it produces and the
 * errors it reports, stated for every input.
 */
module LexingProofs {
  import opened Wrappers
  import opened Lexing

  /**
   * The text a token of each kind may carry: identifiers are letter-led runs of
   * letters and digits that are not keywords, numbers are non-empty digit runs,
   * strings hold no quote, and every other kind carries its fixed spelling.
   */
  predicate WellSpelled(t: Token) {
    match t.kind
    case Eof => t.value == ""
    case Ident =>
      && |t.value| > 0 && IsLetter(t.value[0])
      && (forall i :: 0 <= i < |t.value| ==> IsWordChar(t.value[i]))
      && t.value !in Keywords
    case Number => |t.value| > 0 && forall i :: 0 <= i < |t.value| ==> IsDigit(t.value[i])
    case Str => forall i :: 0 <= i < |t.value| ==> t.value[i] != '"'
    case _ => t.value == Spelling(t.kind)
  }

  /** The token one step of the scan produces is well spelled. */
  lemma StepWellSpelled(input: string, pos: nat)
    requires pos < |input| && StepAt(input, pos).Emit?
    ensures WellSpelled(StepAt(input, pos).token)
  {
    var c := input[pos];
    if IsLetter(c) && !IsSpace(c) {
      WordWellSpelled(input, pos);
    } else if IsDigit(c) && !IsSpace(c) && !IsLetter(c) {
      NumberWellSpelled(input, pos);
    }
  }

  lemma WordWellSpelled(input: string, pos: nat)
    requires pos < |input| && IsLetter(input[pos])
    ensures WellSpelled(Word(input[pos..WordEnd(input, pos)]))
  {
    var end := WordEnd(input, pos);
    assert end == WordEnd(input, pos + 1);
    assert input[pos..end][0] == input[pos];
  }

  lemma NumberWellSpelled(input: string, pos: nat)
    requires pos < |input| && IsDigit(input[pos])
    ensures WellSpelled(Token(Number, input[pos..DigitsEnd(input, pos)]))
  {
    assert DigitsEnd(input, pos) == DigitsEnd(input, pos + 1);
  }

  /** Every token of a successful scan is well spelled. */
  lemma {:induction false} ScanWellSpelled(input: string, pos: nat)
    requires pos <= |input| && Scan(input, pos).Ok?
    ensures forall i :: 0 <= i < |Scan(input, pos).value| ==> WellSpelled(Scan(input, pos).value[i])
    decreases |input| - pos
  {
    if pos < |input| {
      var step := StepAt(input, pos);
      match step
      case Skip(next) =>
        ScanWellSpelled(input, next);
      case Emit(t, next) =>
        StepWellSpelled(input, pos);
        ScanWellSpelled(input, next);
      case Halt(_) =>
    }
  }

  // ---------------------------------------------------------------------------
  // Without string literals, the tokens spell the input minus its whitespace
  // ---------------------------------------------------------------------------

  /** The text with every whitespace character removed. */
  function Squeeze(s: string): (r: string)
    ensures |r| <= |s|
  {
    if s == [] then ""
    else (if IsSpace(s[0]) then "" else [s[0]]) + Squeeze(s[1..])
  }

  /** The concatenated texts of a token sequence. */
  function Joined(ts: seq<Token>): string {
    if ts == [] then "" else ts[0].value + Joined(ts[1..])
  }

  lemma {:induction false} SqueezeAppend(a: string, b: string)
    ensures Squeeze(a + b) == Squeeze(a) + Squeeze(b)
    decreases |a|
  {
    if a != [] {
      assert (a + b)[1..] == a[1..] + b;
      SqueezeAppend(a[1..], b);
    } else {
      assert a + b == b;
    }
  }

  lemma {:induction false} SqueezeNoSpace(a: string)
    requires forall i :: 0 <= i < |a| ==> !IsSpace(a[i])
    ensures Squeeze(a) == a
    decreases |a|
  {
    if a != [] {
      SqueezeNoSpace(a[1..]);
      assert a == [a[0]] + a[1..];
    }
  }

  /** A token that is not a string literal carries exactly the text it was read from. */
  lemma StepSpelling(input: string, pos: nat)
    requires pos < |input| && StepAt(input, pos).Emit? && input[pos] != '"'
    ensures StepAt(input, pos).token.value == input[pos..StepAt(input, pos).next]
    ensures forall i :: pos <= i < StepAt(input, pos).next ==> !IsSpace(input[i])
  {
    var c := input[pos];
    if !IsSpace(c) && !IsLetter(c) && !IsDigit(c) {
      OperatorSpelling(input, pos);
    }
  }

  /** The operator cases: the token's text is the one or two characters read. */
  lemma OperatorSpelling(input: string, pos: nat)
    requires pos < |input| && StepAt(input, pos).Emit?
    requires var c := input[pos]; c != '"' && !IsSpace(c) && !IsLetter(c) && !IsDigit(c)
    ensures StepAt(input, pos).token.value == input[pos..StepAt(input, pos).next]
    ensures forall i :: pos <= i < StepAt(input, pos).next ==> !IsSpace(input[i])
  {
    var step := StepAt(input, pos);
    var c := input[pos];
    if step.next == pos + 2 {
      assert input[pos + 1] == Peek(input, pos);
      assert input[pos..pos + 2] == [c, input[pos + 1]];
    } else {
      assert input[pos..pos + 1] == [c];
    }
  }

  /**
   * For input without quotes, the concatenated token texts of a successful scan
   * are the input with its whitespace removed.
   */
  lemma {:induction false} ScanSpellsInput(input: string, pos: nat)
    requires pos <= |input| && Scan(input, pos).Ok?
    requires forall i :: pos <= i < |input| ==> input[i] != '"'
    ensures Joined(Scan(input, pos).value) == Squeeze(input[pos..])
    decreases |input| - pos
  {
    if pos == |input| {
      assert Joined([Token(Eof, "")]) == "" + Joined([]);
    } else {
      var next := SpellStep(input, pos);
      ScanSpellsInput(input, next);
      SqueezeSplit(input, pos, next);
    }
  }

  lemma SqueezeSplit(s: string, i: nat, j: nat)
    requires i <= j <= |s|
    ensures Squeeze(s[i..]) == Squeeze(s[i..j]) + Squeeze(s[j..])
  {
    assert s[i..] == s[i..j] + s[j..];
    SqueezeAppend(s[i..j], s[j..]);
  }

  /** One step of the scan: what it adds to the joined text is what it reads, minus whitespace. */
  lemma SpellStep(input: string, pos: nat) returns (next: nat)
    requires pos < |input| && Scan(input, pos).Ok? && input[pos] != '"'
    ensures pos < next <= |input| && Scan(input, next).Ok?
    ensures Joined(Scan(input, pos).value) == Squeeze(input[pos..next]) + Joined(Scan(input, next).value)
  {
    next := StepAt(input, pos).next;
    if StepAt(input, pos).Skip? {
      SkipSpelled(input, pos);
    } else {
      EmitSpelled(input, pos);
    }
  }

  lemma SkipSpelled(input: string, pos: nat)
    requires pos < |input| && StepAt(input, pos).Skip?
    ensures Scan(input, pos) == Scan(input, pos + 1) && StepAt(input, pos).next == pos + 1
    ensures Squeeze(input[pos..pos + 1]) == ""
  {
    assert IsSpace(input[pos]);
    SkipSqueezed(input, pos, pos + 1);
  }

  lemma EmitSpelled(input: string, pos: nat)
    requires pos < |input| && StepAt(input, pos).Emit? && input[pos] != '"'
    requires Scan(input, StepAt(input, pos).next).Ok?
    ensures Joined(Scan(input, pos).value)
         == Squeeze(input[pos..StepAt(input, pos).next]) + Joined(Scan(input, StepAt(input, pos).next).value)
  {
    var step := StepAt(input, pos);
    assert Scan(input, pos) == Cons(step.token, Scan(input, step.next));
    StepSpelling(input, pos);
    SqueezeNoSpace(input[pos..step.next]);
    JoinedCons(step.token, Scan(input, step.next).value);
  }

  lemma SkipSqueezed(input: string, pos: nat, next: nat)
    requires pos < |input| && next == pos + 1 && IsSpace(input[pos])
    ensures Squeeze(input[pos..next]) == ""
  {
    assert input[pos..next] == [input[pos]];
    assert input[pos..next][1..] == [];
  }

  lemma JoinedCons(t: Token, ts: seq<Token>)
    ensures Joined([t] + ts) == t.value + Joined(ts)
  {
    assert ([t] + ts)[1..] == ts;
  }

  // ---------------------------------------------------------------------------
  // Every error names a culprit that is really in the input
  // ---------------------------------------------------------------------------

  /** Characters that begin some case of the scan. */
  predicate Recognised(c: char) {
    IsSpace(c) || IsLetter(c) || IsDigit(c) || c in "\"+-*/=!<>&|;(){}"
  }

  /** The second character of the two-character operators that need one. */
  function Partner(c: char): char {
    if c == '!' then '=' else c
  }

  predicate Blames(input: string, pos: nat, e: LexError) {
    match e
    case UnknownCharacter(c) =>
      !Recognised(c) && exists i :: pos <= i < |input| && input[i] == c
    case UnexpectedCharacter(c) =>
      && c in "!&|"
      && exists i :: pos <= i < |input| && input[i] == c && Peek(input, i) != Partner(c)
    case UnterminatedString =>
      exists i :: pos <= i < |input| && input[i] == '"' && QuoteEnd(input, i + 1) == |input|
  }

  /**
   * A failed scan reports an unknown character that occurs in the input, a lone
   * '!', '&' or '|' that occurs without its partner, or an opening quote with no
   * closing quote after it.
   */
  lemma {:induction false} ScanErrorBlamesInput(input: string, pos: nat)
    requires pos <= |input| && Scan(input, pos).Err?
    ensures Blames(input, pos, Scan(input, pos).error)
    decreases |input| - pos
  {
    var step := StepAt(input, pos);
    match step
    case Halt(e) =>
      assert input[pos] == input[pos];
    case Skip(next) =>
      ScanErrorBlamesInput(input, next);
    case Emit(_, next) =>
      ScanErrorBlamesInput(input, next);
  }
}
