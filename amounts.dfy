/** The text-to-number conversion the ledger applies to the amount field and
    to the budget field (Python's float() in jj.py), restricted
    to plain decimal notation: an optional sign, decimal digits, and at most
    one decimal point with at least one digit around it. */
module Amounts {
  import opened Wrappers

  predicate IsDigit(c: char) {
    '0' <= c <= '9'
  }

  predicate AllDigits(s: string) {
    forall i :: 0 <= i < |s| ==> IsDigit(s[i])
  }

  predicate IsSign(c: char) {
    c == '-' || c == '+'
  }

  /** The characters a well-formed amount is made of: digits and decimal
      points, after an optional sign. */
  predicate AmountChars(s: string) {
    AllDigitsOrDot(s) || (|s| > 0 && IsSign(s[0]) && AllDigitsOrDot(s[1..]))
  }

  function Pow10(n: nat): (p: nat)
    ensures p >= 1
  {
    if n == 0 then 1 else 10 * Pow10(n - 1)
  }

  /** The natural number denoted by a string of decimal digits (0 for ""). */
  function DigitsValue(s: string): nat
    requires AllDigits(s)
  {
    if s == [] then 0 else DigitsValue(s[..|s| - 1]) * 10 + (s[|s| - 1] as int - '0' as int)
  }

  /** The position of the first decimal point of s, if any. */
  function DotIndex(s: string): (r: Option<nat>)
    ensures r.None? ==> forall i :: 0 <= i < |s| ==> s[i] != '.'
    ensures r.Some? ==> r.value < |s| && s[r.value] == '.'
    ensures r.Some? ==> forall i :: 0 <= i < r.value ==> s[i] != '.'
  {
    if s == [] then None
    else if s[0] == '.' then Some(0)
    else match DotIndex(s[1..])
      case None => None
      case Some(k) => Some(k + 1)
  }

  /** The number written as whole digits, a decimal point and fraction digits. */
  function DecimalValue(whole: string, frac: string): real
    requires AllDigits(whole) && AllDigits(frac)
  {
    DigitsValue(whole) as real + DigitsValue(frac) as real / Pow10(|frac|) as real
  }

  /** An unsigned decimal: digits, optionally split by one decimal point. */
  function ParseUnsigned(s: string): (r: Option<real>)
    ensures r.Some? ==> AllDigitsOrDot(s)
    ensures r.Some? ==> r.value >= 0.0
  {
    match DotIndex(s)
    case None =>
      if s != [] && AllDigits(s) then Some(DigitsValue(s) as real) else None
    case Some(k) =>
      var whole, frac := s[..k], s[k + 1..];
      if (whole != [] || frac != []) && AllDigits(whole) && AllDigits(frac)
      then Some(DecimalValue(whole, frac))
      else None
  }

  predicate AllDigitsOrDot(s: string) {
    forall i :: 0 <= i < |s| ==> IsDigit(s[i]) || s[i] == '.'
  }

  /** The number an amount text denotes, or None when the text is not a number. */
  function ParseAmount(s: string): (r: Option<real>)
    ensures s == [] ==> r == None
    ensures r.Some? ==> AmountChars(s)
    ensures |s| > 0 && AllDigits(s) ==> r == Some(DigitsValue(s) as real)
  {
    if s != [] && IsSign(s[0]) then
      match ParseUnsigned(s[1..])
      case None => None
      case Some(v) => Some(if s[0] == '-' then -v else v)
    else
      ParseUnsigned(s)
  }

  /** In digits, a decimal point, then anything, the first decimal point is
      the one after the digits. */
  lemma DotAfterDigits(whole: string, rest: string)
    requires AllDigits(whole)
    ensures DotIndex(whole + "." + rest) == Some(|whole|)
  {
    var s := whole + "." + rest;
    assert s[|whole|] == '.';
  }

  /** The unsigned reading of digits, a decimal point and digits. */
  lemma UnsignedDecimal(whole: string, frac: string)
    requires AllDigits(whole) && AllDigits(frac) && (whole != [] || frac != [])
    ensures ParseUnsigned(whole + "." + frac)
            == Some(DecimalValue(whole, frac))
  {
    var s := whole + "." + frac;
    DotAfterDigits(whole, frac);
    assert s[..|whole|] == whole;
    assert s[|whole| + 1..] == frac;
  }

  /** A text of digits, one decimal point and digits, with at least one digit,
      is accepted and denotes its whole part plus its fraction. */
  lemma ParseDecimal(whole: string, frac: string)
    requires AllDigits(whole) && AllDigits(frac) && (whole != [] || frac != [])
    ensures ParseAmount(whole + "." + frac)
            == Some(DecimalValue(whole, frac))
  {
    var s := whole + "." + frac;
    UnsignedDecimal(whole, frac);
    assert !IsSign(s[0]) by {
      if whole == [] { assert s[0] == '.'; } else { assert s[0] == whole[0]; }
    }
  }

  /** A leading '-' negates the value of the unsigned text after it, a leading
      '+' keeps it, and both reject what the unsigned text rejects. */
  lemma ParseSigned(u: string)
    requires u == [] || !IsSign(u[0])
    ensures ParseAmount("-" + u) == if ParseAmount(u).Some? then Some(-ParseAmount(u).value) else None
    ensures ParseAmount("+" + u) == ParseAmount(u)
  {
    assert ("-" + u)[1..] == u && ("+" + u)[1..] == u;
  }
}
