/** Decimal parsing of path parameters, as Go's strconv.Atoi does it on a
    64-bit platform: an optional '+' or '-', then one or more ASCII digits,
    and a value that fits in a signed 64-bit int. Anything else is an error. */
module Strconv {
  import opened Wrappers

  const MinInt: int := -0x8000_0000_0000_0000
  const MaxInt: int := 0x7fff_ffff_ffff_ffff

  predicate IsDigit(c: char) { '0' <= c <= '9' }

  predicate AllDigits(s: string) { forall i :: 0 <= i < |s| ==> IsDigit(s[i]) }

  predicate IsSign(c: char) { c == '+' || c == '-' }

  function DigitValue(c: char): (d: nat)
    requires IsDigit(c)
    ensures d < 10
  {
    (c as int) - ('0' as int)
  }

  function DigitChar(d: nat): (c: char)
    requires d < 10
    ensures IsDigit(c) && DigitValue(c) == d
  {
    ('0' as int + d) as char
  }

  /** The value of a string of decimal digits, most significant first. */
  function DecimalValue(s: string): (v: nat)
    requires AllDigits(s)
  {
    if |s| == 0 then 0 else DecimalValue(s[..|s| - 1]) * 10 + DigitValue(s[|s| - 1])
  }

  /** strconv.Atoi: None stands for both its syntax and its range error. */
  function Atoi(s: string): (r: Option<int>)
    ensures s == "" ==> r == None
    ensures r.Some? ==> MinInt <= r.value <= MaxInt
    ensures r.Some? ==> forall i :: 0 <= i < |s| ==> IsDigit(s[i]) || (i == 0 && IsSign(s[i]))
    ensures r.Some? ==> exists i :: 0 <= i < |s| && IsDigit(s[i])
  {
    if |s| == 0 then None
    else
      var digits := if IsSign(s[0]) then s[1..] else s;
      if |digits| == 0 || !AllDigits(digits) then None
      else
        assert IsDigit(digits[0]);
        var v: int := if s[0] == '-' then 0 - (DecimalValue(digits) as int) else DecimalValue(digits);
        if MinInt <= v <= MaxInt then Some(v) else None
  }

  /** The canonical digits of a natural number (no leading zeros). */
  function NatDigits(n: nat): (s: string)
    ensures |s| > 0 && AllDigits(s)
    ensures s[0] != '0' || n == 0
  {
    if n < 10 then [DigitChar(n)] else NatDigits(n / 10) + [DigitChar(n % 10)]
  }

  /** strconv.Itoa, the reference partner of Atoi. */
  function Itoa(n: int): (s: string)
  {
    if n < 0 then "-" + NatDigits(-n) else NatDigits(n)
  }

  lemma {:induction false} DecimalValueOfNatDigits(n: nat)
    ensures DecimalValue(NatDigits(n)) == n
  {
    if n >= 10 {
      var s := NatDigits(n);
      assert s[..|s| - 1] == NatDigits(n / 10);
      DecimalValueOfNatDigits(n / 10);
    }
  }

  /** Every 64-bit int survives printing and parsing back. */
  lemma {:induction false} AtoiItoa(n: int)
    requires MinInt <= n <= MaxInt
    ensures Atoi(Itoa(n)) == Some(n)
  {
    if n < 0 {
      DecimalValueOfNatDigits(-n);
      AtoiAcceptsNegative(NatDigits(-n));
    } else {
      DecimalValueOfNatDigits(n);
      AtoiAcceptsUnsigned(NatDigits(n));
    }
  }

  /** Conversely, a digit string, bare or after '+', is accepted exactly
      when its value fits in an int, and then with that value. */
  lemma {:induction false} AtoiAcceptsUnsigned(d: string)
    requires |d| > 0 && AllDigits(d)
    ensures Atoi(d) == (if DecimalValue(d) <= MaxInt then Some(DecimalValue(d) as int) else None)
    ensures Atoi("+" + d) == Atoi(d)
  {
  }

  /** A digit string after '-' is accepted exactly when its negation fits
      in an int, and then with that negation. */
  lemma {:induction false} AtoiAcceptsNegative(d: string)
    requires |d| > 0 && AllDigits(d)
    ensures Atoi("-" + d) == (if DecimalValue(d) <= -MinInt then Some(0 - (DecimalValue(d) as int)) else None)
  {
  }

  /** Parsing ignores leading zeros: "007" and "7" name the same id. */
  lemma {:induction false} AtoiLeadingZero(s: string)
    requires |s| > 0 && AllDigits(s)
    ensures Atoi("0" + s) == Atoi(s)
  {
    DecimalValueLeadingZero(s);
    assert ("0" + s)[1..] == s;
  }

  lemma {:induction false} DecimalValueLeadingZero(s: string)
    requires AllDigits(s)
    ensures AllDigits("0" + s) && DecimalValue("0" + s) == DecimalValue(s)
  {
    if |s| > 0 {
      var t := "0" + s;
      assert t[..|t| - 1] == "0" + s[..|s| - 1];
      DecimalValueLeadingZero(s[..|s| - 1]);
    }
  }
}
