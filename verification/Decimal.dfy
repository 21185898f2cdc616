/** Decimal text of unsigned integers: std::to_string and std::stoull. */
module Decimal {
  predicate IsDigit(c: char) {
    '0' <= c <= '9'
  }

  predicate AllDigits(s: string) {
    forall i :: 0 <= i < |s| ==> IsDigit(s[i])
  }

  function DigitOf(n: nat): char
    requires n < 10
  {
    '0' + n as char
  }

  function ToText(n: nat): (s: string)
    ensures s != "" && AllDigits(s)
  {
    if n < 10 then [DigitOf(n)] else ToText(n / 10) + [DigitOf(n % 10)]
  }

  /** Leading zeros are accepted, as std::stoull does. */
  function FromText(s: string): nat
    requires AllDigits(s)
  {
    if s == "" then 0 else 10 * FromText(s[..|s| - 1]) + (s[|s| - 1] - '0') as nat
  }

  lemma {:induction false} TextRoundTrip(n: nat)
    ensures FromText(ToText(n)) == n
  {
    if n >= 10 {
      TextRoundTrip(n / 10);
      assert ToText(n)[..|ToText(n)| - 1] == ToText(n / 10);
    }
  }

  /** The digits from the last to the first, and none too many. */
  lemma {:induction false} TextExact(n: nat)
    ensures var s := ToText(n);
            && s[|s| - 1] == "0123456789"[n % 10]
            && s[..|s| - 1] == (if n < 10 then "" else ToText(n / 10))
            && (n > 0 ==> s[0] != '0')
  {
    if n >= 10 {
      TextExact(n / 10);
      assert ToText(n)[..|ToText(n)| - 1] == ToText(n / 10);
    }
    assert forall d: nat :: d < 10 ==> "0123456789"[d] == DigitOf(d);
  }
}
