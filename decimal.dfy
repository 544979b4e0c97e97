/**
 * Decimal text form of integer coordinates. This stands in for the host's
 * number-to-text conversion (`Number.prototype.toString`) and text-to-number
 * parsing (`parseFloat`), restricted to integers so that the round trip is exact.
 */
module Decimal {
  import opened Wrappers

  predicate IsDigit(c: char) {
    '0' <= c <= '9'
  }

  predicate AllDigits(s: string) {
    forall i :: 0 <= i < |s| ==> IsDigit(s[i])
  }

  function DigitChar(d: nat): (c: char)
    requires d < 10
    ensures IsDigit(c) && c as int - '0' as int == d
  {
    ('0' as int + d) as char
  }

  function DigitValue(c: char): (d: nat)
    requires IsDigit(c)
    ensures d < 10 && DigitChar(d) == c
  {
    c as int - '0' as int
  }

  /** The decimal digits of `n`, most significant first, with no leading zero. */
  function NatToString(n: nat): (s: string)
    ensures |s| >= 1 && AllDigits(s)
    ensures s[0] == '0' ==> n == 0
    decreases n
  {
    if n < 10 then [DigitChar(n)] else NatToString(n / 10) + [DigitChar(n % 10)]
  }

  /** A minus sign for negative numbers, then the digits of the magnitude. */
  function IntToString(n: int): (s: string)
    ensures |s| >= 1 && (s[0] == '-' <==> n < 0)
  {
    if n < 0 then "-" + NatToString(-n) else NatToString(n)
  }

  /** The value of a run of decimal digits. */
  function DigitsToNat(s: string): (n: nat)
    requires AllDigits(s)
    decreases |s|
  {
    if s == [] then 0 else DigitsToNat(s[..|s| - 1]) * 10 + DigitValue(s[|s| - 1])
  }

  /** Reads an optional minus sign followed by at least one digit, and nothing else. */
  function StringToInt(s: string): (r: Option<int>)
    ensures r.Some? ==> |s| >= 1
    ensures r.Some? && s[0] != '-' ==> r.value >= 0
  {
    if |s| >= 2 && s[0] == '-' && AllDigits(s[1..]) then var magnitude: int := DigitsToNat(s[1..]); Some(-magnitude)
    else if |s| >= 1 && AllDigits(s) then Some(DigitsToNat(s))
    else None
  }

  lemma {:induction false} DigitsToNatOfNatToString(n: nat)
    ensures DigitsToNat(NatToString(n)) == n
    decreases n
  {
    if n >= 10 {
      var s := NatToString(n);
      assert s[..|s| - 1] == NatToString(n / 10);
      DigitsToNatOfNatToString(n / 10);
    }
  }

  /** Parsing the rendered text of any integer gives that integer back. */
  lemma {:induction false} StringToIntOfIntToString(n: int)
    ensures StringToInt(IntToString(n)) == Some(n)
  {
    var s := IntToString(n);
    if n < 0 {
      assert s[1..] == NatToString(-n);
      DigitsToNatOfNatToString(-n);
    } else {
      assert s == NatToString(n) && s[0] != '-';
      DigitsToNatOfNatToString(n);
    }
  }

  /**
   * The rendered text holds no character other than digits and a minus
   * sign, and a minus sign can stand only at index 0.
   */
  lemma {:induction false} IntToStringChars(n: int, c: char)
    requires c in IntToString(n)
    ensures IsDigit(c) || c == '-'
    ensures forall i :: 0 < i < |IntToString(n)| ==> IsDigit(IntToString(n)[i])
  {
    var s := IntToString(n);
    var digits := NatToString(if n < 0 then -n else n);
    if n < 0 {
      assert s == ['-'] + digits;
      forall i | 0 < i < |s| ensures IsDigit(s[i]) {
        assert s[i] == digits[i - 1];
      }
    }
    assert c == '-' || c in digits;
  }
}
