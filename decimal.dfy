/** `format!("{}", x)` for integers, and the reading back of an integer written
    at the end of a statement, which shows that a statement built from an id
    names exactly that id. */
module Decimal {
  import opened Common

  predicate IsDigit(c: char)
  {
    '0' <= c <= '9'
  }

  predicate AllDigits(s: string)
  {
    forall i :: 0 <= i < |s| ==> IsDigit(s[i])
  }

  function DigitChar(d: nat): char
    requires d < 10
  {
    ('0' as int + d) as char
  }

  function DigitValue(c: char): nat
    requires IsDigit(c)
  {
    c as int - '0' as int
  }

  /** The decimal text of a natural number, without leading zeros. */
  function NatToDecimal(n: nat): string
    decreases n
  {
    if n < 10 then [DigitChar(n)] else NatToDecimal(n / 10) + [DigitChar(n % 10)]
  }

  /** Rust's `{}` for `i64`: a minus sign for negative values, then the digits. */
  function IntToDecimal(x: int): (s: string)
    ensures 0 <= x ==> |s| > 0 && AllDigits(s) && DigitsValue(s) == x
    ensures x < 0 ==> |s| > 1 && s[0] == '-' && AllDigits(s[1..]) && DigitsValue(s[1..]) == -x
  {
    if x < 0 then
      NatToDecimalDenotes(-x);
      assert ("-" + NatToDecimal(-x))[1..] == NatToDecimal(-x);
      "-" + NatToDecimal(-x)
    else
      NatToDecimalDenotes(x);
      NatToDecimal(x)
  }

  /** The number a string of digits denotes. */
  function DigitsValue(s: string): nat
    requires AllDigits(s)
  {
    if s == [] then 0 else DigitsValue(s[..|s| - 1]) * 10 + DigitValue(s[|s| - 1])
  }

  /** The longest suffix of `s` made of digits only. */
  function TrailingDigits(s: string): (d: string)
    ensures AllDigits(d)
    ensures |d| <= |s|
  {
    if s == [] || !IsDigit(s[|s| - 1]) then [] else TrailingDigits(s[..|s| - 1]) + [s[|s| - 1]]
  }

  /** The value of the digits `d` written after `rest`: negative when `rest`
      ends with a minus sign. */
  function SignedValue(rest: string, d: string): int
    requires AllDigits(d)
  {
    var v: int := DigitsValue(d);
    if rest != [] && rest[|rest| - 1] == '-' then -v else v
  }

  /** The integer written at the end of `s` (digits, optionally after a minus
      sign), or None when `s` does not end with a digit. */
  function TrailingInteger(s: string): Option<int>
  {
    var d := TrailingDigits(s);
    if d == [] then None else Some(SignedValue(s[..|s| - |d|], d))
  }

  /** The decimal text of `n` is a non-empty string of digits that denotes `n`. */
  lemma {:induction false} NatToDecimalDenotes(n: nat)
    ensures |NatToDecimal(n)| > 0
    ensures AllDigits(NatToDecimal(n))
    ensures DigitsValue(NatToDecimal(n)) == n
    decreases n
  {
    var s := NatToDecimal(n);
    if n >= 10 {
      NatToDecimalDenotes(n / 10);
      assert s[..|s| - 1] == NatToDecimal(n / 10);
    }
  }

  /** Digits appended after a text that does not end in a digit are exactly the
      trailing digits of the whole. */
  lemma {:induction false} TrailingDigitsOfAppend(prefix: string, d: string)
    requires prefix != [] && !IsDigit(prefix[|prefix| - 1])
    requires AllDigits(d)
    ensures TrailingDigits(prefix + d) == d
    decreases |d|
  {
    if d == [] {
      assert prefix + d == prefix;
    } else {
      var s := prefix + d;
      assert s[..|s| - 1] == prefix + d[..|d| - 1];
      TrailingDigitsOfAppend(prefix, d[..|d| - 1]);
      assert d == d[..|d| - 1] + [d[|d| - 1]];
    }
  }

  /** The value read back from `prefix + d`, once the trailing digits are known to be `d`. */
  lemma TrailingIntegerOfDigits(prefix: string, d: string)
    requires |d| > 0 && AllDigits(d)
    requires TrailingDigits(prefix + d) == d
    ensures TrailingInteger(prefix + d) == Some(SignedValue(prefix, d))
  {
    var s := prefix + d;
    assert s[..|s| - |d|] == prefix;
  }

  /** An integer printed after a separator that is neither a digit nor a minus
      sign is read back exactly. */
  lemma TrailingIntegerOfDecimal(prefix: string, x: int)
    requires prefix != [] && !IsDigit(prefix[|prefix| - 1]) && prefix[|prefix| - 1] != '-'
    ensures TrailingInteger(prefix + IntToDecimal(x)) == Some(x)
  {
    var n: nat := if x < 0 then -x else x;
    NatToDecimalDenotes(n);
    var d := NatToDecimal(n);
    if x < 0 {
      var p := prefix + "-";
      assert prefix + IntToDecimal(x) == p + d;
      TrailingDigitsOfAppend(p, d);
      TrailingIntegerOfDigits(p, d);
      assert SignedValue(p, d) == x;
    } else {
      assert IntToDecimal(x) == d;
      TrailingDigitsOfAppend(prefix, d);
      TrailingIntegerOfDigits(prefix, d);
      assert SignedValue(prefix, d) == x;
    }
  }
}
