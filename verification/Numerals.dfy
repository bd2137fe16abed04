/** Numbers written in decimal, and read back. */
module Numerals {

  predicate Digit(c: char) { '0' <= c <= '9' }

  /** How many digits s starts with. */
  function Digits(s: string): (n: nat)
    ensures n <= |s| && forall k :: 0 <= k < n ==> Digit(s[k])
    ensures n < |s| ==> !Digit(s[n])
  {
    if s != "" && Digit(s[0]) then 1 + Digits(s[1..]) else 0
  }

  function Number(digits: string): nat
    requires forall k :: 0 <= k < |digits| ==> Digit(digits[k])
  {
    if digits == "" then 0
    else
      var d := digits[|digits| - 1];
      assert Digit(d);
      10 * Number(digits[..|digits| - 1]) + (d as nat - '0' as nat)
  }

  function Decimal(n: nat): string {
    if n < 10 then ["0123456789"[n]] else Decimal(n / 10) + ["0123456789"[n % 10]]
  }

  /** The numeral of n: digits that read back as n, and no zero to begin with. */
  predicate Numeral(s: string, n: nat) {
    && s != "" && Digits(s) == |s| && Number(s) == n
    && (|s| > 1 ==> s[0] != '0')
  }

  lemma {:induction false} DecimalNumeral(n: nat)
    ensures Numeral(Decimal(n), n)
    ensures n > 0 ==> Decimal(n)[0] != '0'
  {
    var s := Decimal(n);
    assert Digit("0123456789"[n % 10]);
    if n >= 10 {
      DecimalNumeral(n / 10);
      var t := Decimal(n / 10);
      assert s == t + ["0123456789"[n % 10]] && s[..|s| - 1] == t;
      DigitsSnoc(t, "0123456789"[n % 10]);
    } else {
      assert s == ["0123456789"[n]] && s[..0] == "" && s[1..] == "";
    }
  }

  lemma {:induction false} DigitsSnoc(s: string, c: char)
    requires Digits(s) == |s| && Digit(c)
    ensures Digits(s + [c]) == |s| + 1
  {
    if s == "" {
      assert (s + [c])[1..] == "";
    } else {
      assert (s + [c])[1..] == s[1..] + [c];
      DigitsSnoc(s[1..], c);
    }
  }
}
