/** Decimal numerals, printed and read back. */
module Digits {

  function DigitChar(d: nat): char
    requires d < 10
  {
    '0' + d as char
  }

  predicate IsDigit(c: char) {
    '0' <= c <= '9'
  }

  function DigitValue(c: char): nat
    requires IsDigit(c)
  {
    (c - '0') as nat
  }

  const DIGITS := "0123456789"

  lemma DigitsAreDecimal(d: nat)
    requires d < 10
    ensures DigitChar(d) == DIGITS[d] && DigitValue(DIGITS[d]) == d
  {
  }

  predicate AllDigits(s: string) {
    forall i :: 0 <= i < |s| ==> IsDigit(s[i])
  }

  /** Base ten without leading zeros; zero is "0". */
  function Print(n: nat): (s: string)
    ensures |s| >= 1 && AllDigits(s)
  {
    if n < 10 then [DigitChar(n)] else Print(n / 10) + [DigitChar(n % 10)]
  }

  function Value(s: string): nat
    requires AllDigits(s)
  {
    if s == "" then 0 else 10 * Value(s[..|s| - 1]) + DigitValue(s[|s| - 1])
  }

  lemma {:induction false} ValueOfPrint(n: nat)
    ensures Value(Print(n)) == n
  {
    if n < 10 {
      assert Print(n)[..0] == "";
    } else {
      ValueOfPrint(n / 10);
      assert Print(n)[..|Print(n)| - 1] == Print(n / 10);
    }
  }

  lemma PrintInjective(m: nat, n: nat)
    requires Print(m) == Print(n)
    ensures m == n
  {
    ValueOfPrint(m);
    ValueOfPrint(n);
  }

  /** How many digits s starts with. */
  function DigitPrefix(s: string): (n: nat)
    ensures n <= |s| && AllDigits(s[..n]) && (n < |s| ==> !IsDigit(s[n]))
  {
    if s == "" || !IsDigit(s[0]) then 0
    else
      var n := 1 + DigitPrefix(s[1..]);
      assert forall i :: 0 <= i < n ==> IsDigit(s[..n][i]) by {
        assert AllDigits(s[1..][..n - 1]);
        forall i | 0 <= i < n ensures IsDigit(s[..n][i]) {
          if i > 0 {
            assert s[..n][i] == s[1..][..n - 1][i - 1];
          }
        }
      }
      n
  }

  lemma {:induction false} DigitPrefixIs(whole: string, tail: string)
    requires AllDigits(whole) && (tail == "" || !IsDigit(tail[0]))
    ensures DigitPrefix(whole + tail) == |whole|
    decreases |whole|
  {
    if whole == "" {
      assert whole + tail == tail;
    } else {
      assert (whole + tail)[1..] == whole[1..] + tail;
      DigitPrefixIs(whole[1..], tail);
    }
  }

  /** Appending a digit shifts the value by one place. */
  lemma ValueAppend(s: string, c: char)
    requires AllDigits(s) && IsDigit(c)
    ensures AllDigits(s + [c]) && Value(s + [c]) == 10 * Value(s) + DigitValue(c)
  {
    assert (s + [c])[..|s|] == s;
  }
}
