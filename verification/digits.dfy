/**
 * Decimal digits and the two string operations the PIN sanitiser is built
 * from: dropping every non-digit character, and keeping a bounded prefix.
 * A Dafny character is a Unicode scalar value, where JavaScript counts
 * UTF-16 code units, so lengths of text outside the Basic Multilingual
 * Plane differ. The game's results do not: only '0'..'9' survive the
 * filter, and each of them is one unit in both.
 */
module Digits {

  /** MAX_PIN_LENGTH: a complete PIN has exactly this many digits. */
  const MaxPinLength: nat := 3

  predicate IsDigit(c: char) {
    '0' <= c <= '9'
  }

  predicate AllDigits(s: string) {
    forall i :: 0 <= i < |s| ==> IsDigit(s[i])
  }

  /** A complete PIN: exactly three decimal digits. */
  predicate IsPin(s: string) {
    |s| == MaxPinLength && AllDigits(s)
  }

  /** What either screen can hold while a PIN is typed: at most three digits. */
  predicate Bounded(s: string) {
    |s| <= MaxPinLength && AllDigits(s)
  }

  /** The value of one keypad key. */
  type Digit = d: int | 0 <= d <= 9

  /** The text a keypad key appends: `"" + digit` for a number 0..9. */
  function DigitChar(d: Digit): (c: char)
    ensures IsDigit(c)
    ensures c as int - '0' as int == d
  {
    (d + '0' as int) as char
  }

  function DigitValue(c: char): (d: Digit)
    requires IsDigit(c)
  {
    c as int - '0' as int
  }

  lemma DigitCharRoundTrip(d: Digit)
    ensures DigitValue(DigitChar(d)) == d
  {
  }

  lemma DigitValueRoundTrip(c: char)
    requires IsDigit(c)
    ensures DigitChar(DigitValue(c)) == c
  {
  }

  /** `s.replace(/[^0-9]/g, "")`: the digits of `s`, in their order. */
  function FilterDigits(s: string): (r: string)
    ensures AllDigits(r)
    ensures |r| <= |s|
    ensures AllDigits(s) ==> r == s
  {
    if s == [] then []
    else if IsDigit(s[0]) then [s[0]] + FilterDigits(s[1..])
    else FilterDigits(s[1..])
  }

  /** Filtering is a homomorphism on concatenation; with the one-character
      case below, this pins FilterDigits down completely. */
  lemma {:induction false} FilterDigitsConcat(a: string, b: string)
    ensures FilterDigits(a + b) == FilterDigits(a) + FilterDigits(b)
    decreases |a|
  {
    if a == [] {
      assert a + b == b;
    } else {
      assert (a + b)[1..] == a[1..] + b;
      FilterDigitsConcat(a[1..], b);
    }
  }

  lemma FilterDigitsSingle(c: char)
    ensures FilterDigits([c]) == if IsDigit(c) then [c] else []
  {
  }

  /** Exactly the digit characters of `s` survive. */
  lemma {:induction false} FilterDigitsMembers(s: string, c: char)
    ensures c in FilterDigits(s) <==> c in s && IsDigit(c)
    decreases |s|
  {
    if s != [] {
      FilterDigitsMembers(s[1..], c);
      assert s == [s[0]] + s[1..];
    }
  }

  lemma FilterDigitsIdempotent(s: string)
    ensures FilterDigits(FilterDigits(s)) == FilterDigits(s)
  {
  }

  /** `s.slice(0, n)`: the prefix of `s` of length min(|s|, n). */
  function Take(s: string, n: nat): (r: string)
    ensures r <= s
    ensures |r| == if |s| <= n then |s| else n
  {
    if |s| <= n then s else s[..n]
  }
}
