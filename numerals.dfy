/**
 * Decimal text of numbers: the rendering of integer ids inside channel names
 * and relative times, the parsing of a channel parameter into an int, and the
 * `decimal:2` attribute cast (exactly two fractional digits).
 */
module Numerals {
  import opened Wrappers

  predicate IsDigit(c: char) { '0' <= c <= '9' }

  predicate AllDigits(s: string) { forall i :: 0 <= i < |s| ==> IsDigit(s[i]) }

  function DigitValue(c: char): (d: nat)
    requires IsDigit(c)
    ensures d < 10
  {
    c as int - '0' as int
  }

  function Digit(d: nat): (c: char)
    requires d < 10
    ensures IsDigit(c) && DigitValue(c) == d
  {
    ('0' as int + d) as char
  }

  /** The shortest decimal numeral of `n` (how PHP and JavaScript print an integer). */
  function NatToString(n: nat): (s: string)
    ensures 1 <= |s| && AllDigits(s)
    ensures s[0] == '0' ==> n == 0
    decreases n
  {
    if n < 10 then [Digit(n)] else NatToString(n / 10) + [Digit(n % 10)]
  }

  /** The value of a string of digits (leading zeros allowed). */
  function DigitsValue(s: string): nat
    requires AllDigits(s)
  {
    if s == [] then 0 else 10 * DigitsValue(s[..|s| - 1]) + DigitValue(s[|s| - 1])
  }

  lemma {:induction false} DigitsValueOfNatToString(n: nat)
    ensures DigitsValue(NatToString(n)) == n
    decreases n
  {
    if n >= 10 {
      DigitsValueOfNatToString(n / 10);
      var s := NatToString(n);
      assert s[..|s| - 1] == NatToString(n / 10);
    }
  }

  /**
   * An integer written in decimal with an optional minus sign, as PHP's
   * coercion to an `int` parameter reads it; anything else is not an integer.
   */
  function ParseInt(s: string): Option<int>
  {
    if 2 <= |s| && s[0] == '-' && AllDigits(s[1..]) then Some(-(DigitsValue(s[1..]) as int))
    else if 1 <= |s| && AllDigits(s) then Some(DigitsValue(s))
    else None
  }

  lemma ParseIntOfNatToString(n: nat)
    ensures ParseInt(NatToString(n)) == Some(n)
  {
    DigitsValueOfNatToString(n);
  }

  /** Two decimal digits of `m % 100`. */
  function Cents(m: nat): (s: string)
    ensures |s| == 2 && AllDigits(s)
  {
    [Digit(m % 100 / 10), Digit(m % 100 % 10)]
  }

  /**
   * The `decimal:2` attribute cast: an amount of cents as text with an
   * optional minus sign, the whole units, a point and exactly two digits.
   */
  function Decimal2(cents: int): (s: string)
    ensures 4 <= |s| && s[|s| - 3] == '.' && IsDigit(s[|s| - 2]) && IsDigit(s[|s| - 1])
  {
    var m := if cents < 0 then -cents else cents;
    (if cents < 0 then "-" else "") + NatToString(m / 100) + "." + Cents(m)
  }

  /** Reads text with exactly two fractional digits back as cents. */
  function ParseDecimal2(s: string): Option<int>
  {
    if 1 <= |s| && s[0] == '-' then
      match ParseUnsigned2(s[1..])
      case Some(v) => Some(-(v as int))
      case None => None
    else ParseUnsigned2(s)
  }

  function ParseUnsigned2(s: string): Option<nat>
  {
    if 4 <= |s| && s[|s| - 3] == '.' && AllDigits(s[..|s| - 3]) && AllDigits(s[|s| - 2..]) then
      Some(100 * DigitsValue(s[..|s| - 3]) + 10 * DigitValue(s[|s| - 2]) + DigitValue(s[|s| - 1]))
    else None
  }

  lemma ParseUnsigned2OfText(m: nat)
    ensures ParseUnsigned2(NatToString(m / 100) + "." + Cents(m)) == Some(m)
  {
    var w := NatToString(m / 100);
    var c := Cents(m);
    var s := w + "." + c;
    assert s[..|s| - 3] == w;
    assert s[|s| - 2..] == c;
    assert s[|s| - 2] == c[0] && s[|s| - 1] == c[1];
    DigitsValueOfNatToString(m / 100);
    CentsSplit(m);
  }

  lemma CentsSplit(m: nat)
    ensures m == 100 * (m / 100) + 10 * (m % 100 / 10) + m % 100 % 10
  {
    var r := m % 100;
    assert m == 100 * (m / 100) + r;
    assert r == 10 * (r / 10) + r % 10;
  }

  /** The cast text reads back as the same number of cents. */
  lemma Decimal2RoundTrip(cents: int)
    ensures ParseDecimal2(Decimal2(cents)) == Some(cents)
  {
    var m := if cents < 0 then -cents else cents;
    var u := NatToString(m / 100) + "." + Cents(m);
    ParseUnsigned2OfText(m);
    if cents < 0 {
      assert Decimal2(cents) == "-" + u;
      assert Decimal2(cents)[1..] == u;
    } else {
      assert Decimal2(cents) == u;
      assert u[0] == NatToString(m / 100)[0];
    }
  }
  /**
   * A non-negative amount as a numeric string: whole units, optionally
   * followed by a point and one or two fractional digits, read as cents.
   */
  function ParseAmount(s: string): Option<nat>
  {
    if 1 <= |s| && AllDigits(s) then Some(100 * DigitsValue(s))
    else if 3 <= |s| && s[|s| - 2] == '.' && AllDigits(s[..|s| - 2]) && IsDigit(s[|s| - 1]) then
      Some(100 * DigitsValue(s[..|s| - 2]) + 10 * DigitValue(s[|s| - 1]))
    else ParseUnsigned2(s)
  }

  /** Whole units written without a point read as that many hundred cents. */
  lemma ParseAmountOfWhole(n: nat)
    ensures ParseAmount(NatToString(n)) == Some(100 * n)
  {
    DigitsValueOfNatToString(n);
  }

  /** The two-decimal text of an amount reads back as the same cents. */
  lemma ParseAmountOfText(m: nat)
    ensures ParseAmount(NatToString(m / 100) + "." + Cents(m)) == Some(m)
  {
    var s := NatToString(m / 100) + "." + Cents(m);
    assert s[|s| - 3] == '.';
    assert s[|s| - 2] == Cents(m)[0];
    ParseUnsigned2OfText(m);
  }
}
