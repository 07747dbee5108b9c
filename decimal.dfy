/**
 * Decimal text of integers: the value strconv.Atoi gives a run of digits, and
 * the text the %d verb of fmt.Sprintf prints. Integers are unbounded here.
 */
module Decimal {

  predicate IsDigit(c: char) {
    '0' <= c <= '9'
  }

  predicate AllDigits(s: string) {
    forall i :: 0 <= i < |s| ==> IsDigit(s[i])
  }

  function DigitChar(d: nat): (c: char)
    requires d < 10
    ensures IsDigit(c) && (c as int) - ('0' as int) == d
  {
    (('0' as int) + d) as char
  }

  /** The value of a run of decimal digits, most significant first. */
  function DigitsValue(s: string): nat
    requires AllDigits(s)
    decreases |s|
  {
    if s == [] then 0
    else DigitsValue(s[..|s| - 1]) * 10 + ((s[|s| - 1] as int) - ('0' as int))
  }

  /** The decimal text of a natural number, without leading zeros; reading it back gives n. */
  function Text(n: nat): (s: string)
    ensures |s| >= 1 && AllDigits(s)
    ensures DigitsValue(s) == n
    ensures s[0] == '0' ==> n == 0
    decreases n
  {
    if n < 10 then [DigitChar(n)]
    else
      var prefix := Text(n / 10);
      var s := prefix + [DigitChar(n % 10)];
      assert s[..|s| - 1] == prefix;
      s
  }

  /** What %d prints for an int: a minus sign before the digits of a negative value. */
  function IntText(n: int): (s: string)
    ensures |s| >= 1
    ensures n >= 0 ==> s == Text(n)
    ensures n < 0 ==> s[0] == '-' && s[1..] == Text(-n)
  {
    if n < 0 then "-" + Text(-n) else Text(n)
  }

  /**
   * The value strconv.Atoi gives with its error ignored: an optional '+' or
   * '-' before a non-empty digit run; any other text reads as 0.
   */
  function Atoi(s: string): int {
    if |s| >= 2 && s[0] == '-' && AllDigits(s[1..]) then -(DigitsValue(s[1..]) as int)
    else if |s| >= 2 && s[0] == '+' && AllDigits(s[1..]) then DigitsValue(s[1..])
    else if |s| >= 1 && AllDigits(s) then DigitsValue(s)
    else 0
  }

  /** Only a digit run, optionally after one sign, reads as a non-zero value. */
  lemma AtoiNonZero(s: string)
    requires Atoi(s) != 0
    ensures |s| >= 1 && (AllDigits(s) || (s[0] in "+-" && |s| >= 2 && AllDigits(s[1..])))
  {
  }

  /** Atoi reads back what %d prints, negative values included. */
  lemma AtoiIntText(n: int)
    ensures Atoi(IntText(n)) == n
  {
    if n < 0 {
      assert IntText(n)[1..] == Text(-n);
    }
  }

  /** Before a digit run, '+' keeps the value and '-' negates it. */
  lemma AtoiSign(t: string)
    requires |t| >= 1 && AllDigits(t)
    ensures Atoi("+" + t) == Atoi(t) && Atoi("-" + t) == -Atoi(t)
  {
    assert ("+" + t)[1..] == t;
    assert ("-" + t)[1..] == t;
  }

  /** Distinct numbers have distinct decimal texts. */
  lemma TextInjective(a: nat, b: nat)
    requires Text(a) == Text(b)
    ensures a == b
  {
  }
}
