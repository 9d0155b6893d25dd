/** Decimal numerals as JavaScript prints them: no sign, no leading zero. */
module Decimal {

  const MAX_SAFE_INTEGER: nat := 9007199254740991

  predicate IsDigit(c: char) {
    '0' <= c <= '9'
  }

  predicate AllDigits(s: string) {
    forall i :: 0 <= i < |s| ==> IsDigit(s[i])
  }

  function DigitOf(d: nat): (c: char)
    requires d < 10
    ensures IsDigit(c) && c as int - '0' as int == d
  {
    (d + '0' as int) as char
  }

  function Numeral(n: nat): (s: string)
    ensures s != [] && AllDigits(s)
    ensures n > 0 ==> s[0] != '0'
    ensures n == 0 ==> s == "0"
  {
    if n < 10 then [DigitOf(n)] else Numeral(n / 10) + [DigitOf(n % 10)]
  }

  function ValueOf(s: string): nat
    requires AllDigits(s)
  {
    if s == [] then 0
    else ValueOf(s[..|s| - 1]) * 10 + (s[|s| - 1] as int - '0' as int)
  }

  lemma {:induction false} NumeralRoundTrip(n: nat)
    ensures ValueOf(Numeral(n)) == n
  {
    var s := Numeral(n);
    if n >= 10 {
      NumeralRoundTrip(n / 10);
      assert s[..|s| - 1] == Numeral(n / 10);
      assert s[|s| - 1] == DigitOf(n % 10);
    } else {
      assert s[..|s| - 1] == [];
    }
  }
}
