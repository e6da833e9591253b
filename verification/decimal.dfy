/**
 * Decimal numerals as Python prints them: str(int) for whole numbers and
 * str(Decimal) for an amount stored with two decimal places.
 */
module Decimal {
  import opened Wrappers

  predicate IsDigit(c: char) {
    '0' <= c <= '9'
  }

  predicate AllDigits(s: string) {
    forall i :: 0 <= i < |s| ==> IsDigit(s[i])
  }

  /** A numeral in the form str(n) writes it: digits only, no superfluous leading zero. */
  predicate Canonical(s: string) {
    |s| >= 1 && AllDigits(s) && (|s| > 1 ==> s[0] != '0')
  }

  function DigitChar(d: nat): (c: char)
    requires d < 10
    ensures IsDigit(c)
  {
    ('0' as int + d) as char
  }

  function DigitValue(c: char): (d: nat)
    requires IsDigit(c)
    ensures d < 10 && DigitChar(d) == c
  {
    c as int - '0' as int
  }

  /** The number a string of digits denotes (most significant digit first). */
  function Value(s: string): nat
    requires AllDigits(s)
    decreases |s|
  {
    if s == [] then 0 else Value(s[..|s| - 1]) * 10 + DigitValue(s[|s| - 1])
  }

  /** str(n) for a non-negative integer. */
  function NatToString(n: nat): (s: string)
    ensures Canonical(s)
    ensures Value(s) == n
    decreases n
  {
    if n < 10 then [DigitChar(n)]
    else
      var front := NatToString(n / 10);
      assert |front| == 1 ==> Value(front) == DigitValue(front[0]);
      assert (front + [DigitChar(n % 10)])[..|front|] == front;
      front + [DigitChar(n % 10)]
  }

  /** str(n) for any integer. */
  function IntToString(n: int): (s: string)
    ensures |s| >= 1
    ensures n < 0 <==> s[0] == '-'
    ensures n >= 0 ==> ParseNat(s) == Some(n)
    ensures n < 0 ==> ParseNat(s[1..]) == Some(-n)
  {
    if n < 0 then "-" + NatToString(-n) else NatToString(n)
  }

  /** The inverse of NatToString: accepts exactly the canonical numerals. */
  function ParseNat(s: string): Option<nat>
  {
    if Canonical(s) then Some(Value(s)) else None
  }

  lemma {:induction false} LeadingNonZeroPositive(s: string)
    requires |s| >= 1 && AllDigits(s) && s[0] != '0'
    ensures Value(s) >= 1
    decreases |s|
  {
    if |s| > 1 {
      LeadingNonZeroPositive(s[..|s| - 1]);
    }
  }

  /** A canonical numeral is what NatToString prints for its own value. */
  lemma {:induction false} CanonicalRoundTrip(s: string)
    requires Canonical(s)
    ensures NatToString(Value(s)) == s
    decreases |s|
  {
    if |s| > 1 {
      var front := s[..|s| - 1];
      assert Canonical(front) by {
        assert front[0] == s[0];
      }
      CanonicalRoundTrip(front);
      LeadingNonZeroPositive(front);
      var d := DigitValue(s[|s| - 1]);
      assert Value(s) == Value(front) * 10 + d;
      assert Value(s) / 10 == Value(front) && Value(s) % 10 == d;
      assert s == front + [s[|s| - 1]];
    }
  }

  /** Printing and parsing whole numbers are inverse to each other, in both directions. */
  lemma ParseNatInverse(s: string, n: nat)
    ensures ParseNat(s) == Some(n) <==> NatToString(n) == s
  {
    if ParseNat(s) == Some(n) {
      CanonicalRoundTrip(s);
    }
  }

  /** The sign and magnitude of an amount held as integer cents. */
  function Magnitude(c: int): nat {
    if c < 0 then -c else c
  }

  /**
   * str(Decimal) of an amount with decimal_places=2: an optional minus sign,
   * the whole units, a point and exactly two digits of cents.
   */
  function FormatCents(c: int): (s: string)
    ensures |s| >= 4 && s[|s| - 3] == '.'
    ensures c < 0 <==> s[0] == '-'
  {
    var m := Magnitude(c);
    (if c < 0 then "-" else "") + NatToString(m / 100) + "." + [DigitChar(m % 100 / 10), DigitChar(m % 10)]
  }

  /** Reads back an amount printed with two decimal places. */
  function ParseCents(s: string): Option<int>
  {
    if |s| < 4 || s[|s| - 3] != '.' || !AllDigits(s[|s| - 2..]) then None
    else
      var negative := s[0] == '-';
      var whole := if negative then s[1..|s| - 3] else s[..|s| - 3];
      match ParseNat(whole)
      case None => None
      case Some(w) =>
        var m := w * 100 + Value(s[|s| - 2..]);
        Some(if negative then -m else m)
  }

  /** The two digits after the point denote the cents part of the magnitude. */
  lemma TwoDigits(m: nat)
    ensures AllDigits([DigitChar(m % 100 / 10), DigitChar(m % 10)])
    ensures Value([DigitChar(m % 100 / 10), DigitChar(m % 10)]) == m % 100
  {
    var cents := [DigitChar(m % 100 / 10), DigitChar(m % 10)];
    assert cents[..1] == [cents[0]];
    assert [cents[0]][..0] == [];
    assert Value([cents[0]]) == DigitValue(cents[0]);
    assert DigitValue(cents[0]) == m % 100 / 10;
    assert DigitValue(cents[1]) == m % 10;
  }

  /** Every amount is read back exactly from its printed form. */
  lemma CentsRoundTrip(c: int)
    ensures ParseCents(FormatCents(c)) == Some(c)
  {
    var m := Magnitude(c);
    var sign := if c < 0 then "-" else "";
    var whole := NatToString(m / 100);
    var cents := [DigitChar(m % 100 / 10), DigitChar(m % 10)];
    var s := FormatCents(c);
    assert s == sign + whole + "." + cents;
    assert s[|s| - 2..] == cents;
    TwoDigits(m);
    var rest := if c < 0 then s[1..|s| - 3] else s[..|s| - 3];
    assert rest == whole by {
      if c >= 0 {
        assert s[0] == whole[0];
      }
    }
    ParseNatInverse(whole, m / 100);
  }

  /** Two amounts print the same only when they are equal. */
  lemma FormatCentsInjective(a: int, b: int)
    ensures FormatCents(a) == FormatCents(b) ==> a == b
  {
    CentsRoundTrip(a);
    CentsRoundTrip(b);
  }
}
