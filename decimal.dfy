/** Decimal rendering of integers, as Go's `fmt.Sprintf("%d", n)` writes
    them. The rate limiter uses it to name its sorted-set members. */
module Decimal {

  function DigitChar(d: nat): (c: char)
    requires d < 10
    ensures '0' <= c <= '9'
  {
    "0123456789"[d]
  }

  /** The digits of a non-negative number, most significant first, with no
      leading zero. */
  function Digits(n: nat): (s: string)
    ensures |s| >= 1
    ensures forall i :: 0 <= i < |s| ==> '0' <= s[i] <= '9'
    ensures n >= 10 ==> |s| >= 2
  {
    if n < 10 then [DigitChar(n)] else Digits(n / 10) + [DigitChar(n % 10)]
  }

  /** `%d`: a minus sign for negative numbers, then the digits. */
  function FormatInt(n: int): (s: string)
    ensures |s| >= 1
    ensures (s[0] == '-') <==> n < 0
  {
    if n < 0 then "-" + Digits(-n) else Digits(n)
  }

  lemma DigitCharInjective(x: nat, y: nat)
    requires x < 10 && y < 10 && DigitChar(x) == DigitChar(y)
    ensures x == y
  {
  }

  lemma {:induction false} DigitsInjective(a: nat, b: nat)
    requires Digits(a) == Digits(b)
    ensures a == b
  {
    if a < 10 && b < 10 {
      DigitCharInjective(a, b);
    } else if a >= 10 && b >= 10 {
      var da, db := Digits(a), Digits(b);
      var n := |da|;
      assert da == Digits(a / 10) + [DigitChar(a % 10)];
      assert db == Digits(b / 10) + [DigitChar(b % 10)];
      assert da[n - 1] == DigitChar(a % 10) && db[n - 1] == DigitChar(b % 10);
      DigitCharInjective(a % 10, b % 10);
      assert da[..n - 1] == Digits(a / 10) && db[..n - 1] == Digits(b / 10);
      DigitsInjective(a / 10, b / 10);
      assert a == 10 * (a / 10) + a % 10 && b == 10 * (b / 10) + b % 10;
    }
  }

  /** Distinct timestamps give distinct members, equal ones the same. */
  lemma FormatIntInjective(a: int, b: int)
    ensures FormatInt(a) == FormatInt(b) <==> a == b
  {
    if FormatInt(a) == FormatInt(b) {
      var s := FormatInt(a);
      if a < 0 {
        assert b < 0;
        assert s[1..] == Digits(-a) && s[1..] == Digits(-b);
        DigitsInjective(-a, -b);
      } else {
        assert b >= 0;
        DigitsInjective(a, b);
      }
    }
  }
}
