/**
 * Python's `float(s)` on a string, restricted to plain decimal numerals:
 * an optional sign, then digits with at most one decimal point and at
 * least one digit in all ("12", "-0.5", "3.", ".25").  Every other string
 * makes `float` raise, which is `None` here.
 */
module Numeral {
  import opened Wrappers

  predicate IsDigit(c: char) {
    '0' <= c <= '9'
  }

  predicate AllDigits(s: string) {
    forall i :: 0 <= i < |s| ==> IsDigit(s[i])
  }

  function DigitValue(c: char): (d: nat)
    requires IsDigit(c)
    ensures d < 10
  {
    c as int - '0' as int
  }

  function DigitChar(d: nat): (c: char)
    requires d < 10
    ensures IsDigit(c) && DigitValue(c) == d
  {
    ('0' as int + d) as char
  }

  /** The natural number a string of decimal digits denotes, most significant digit first. */
  function NatOf(s: string): nat
    requires AllDigits(s)
  {
    if s == [] then 0 else NatOf(s[..|s| - 1]) * 10 + DigitValue(s[|s| - 1])
  }

  /** The position of the first '.' in `s`, or `|s|` when there is none. */
  function DotIndex(s: string): (i: nat)
    ensures i <= |s|
    ensures i < |s| ==> s[i] == '.'
    ensures forall k :: 0 <= k < i ==> s[k] != '.'
  {
    if s == [] || s[0] == '.' then 0 else 1 + DotIndex(s[1..])
  }

  /** The value of the digits after a decimal point, 0.d1d2... */
  function Fraction(frac: string): (f: real)
    requires AllDigits(frac)
    ensures 0.0 <= f < 1.0
    ensures frac == "" ==> f == 0.0
  {
    if frac == [] then 0.0 else (DigitValue(frac[0]) as real + Fraction(frac[1..])) / 10.0
  }

  /** An unsigned numeral: whole digits, optionally a point and fraction digits. */
  function Unsigned(s: string): (r: Option<real>)
    ensures r.Some? ==> r.value >= 0.0
  {
    var i := DotIndex(s);
    DecimalValue(s[..i], if i < |s| then s[i + 1..] else "")
  }

  /** The value of a numeral split at its point into whole and fraction digits; at least one digit is needed. */
  function DecimalValue(whole: string, frac: string): (r: Option<real>)
    ensures r.Some? ==> r.value >= 0.0
  {
    if AllDigits(whole) && AllDigits(frac) && |whole| + |frac| > 0 then
      Some(NatOf(whole) as real + Fraction(frac))
    else
      None
  }

  /** `float(s)` for the decimal numerals described above. */
  function ParseFloat(s: string): (r: Option<real>)
    ensures |s| > 0 && s[0] == '+' ==> r == Unsigned(s[1..])
    ensures |s| > 0 && s[0] == '-' ==> r == (match Unsigned(s[1..])
                                              case Some(v) => Some(-v)
                                              case None => None)
    ensures (|s| == 0 || (s[0] != '+' && s[0] != '-')) ==> r == Unsigned(s)
  {
    if |s| > 0 && s[0] == '-' then
      match Unsigned(s[1..])
      case Some(v) => Some(-v)
      case None => None
    else if |s| > 0 && s[0] == '+' then
      Unsigned(s[1..])
    else
      Unsigned(s)
  }

  /** The decimal digits of `n`, as Python's `str(n)` writes them. */
  function Show(n: nat): (s: string)
    ensures |s| > 0 && AllDigits(s)
  {
    if n < 10 then [DigitChar(n)] else Show(n / 10) + [DigitChar(n % 10)]
  }

  lemma {:induction false} NatOfShow(n: nat)
    ensures NatOf(Show(n)) == n
  {
    if n >= 10 {
      var s := Show(n);
      assert s[..|s| - 1] == Show(n / 10);
      NatOfShow(n / 10);
    }
  }

  lemma DigitsHaveNoDot(s: string)
    requires AllDigits(s)
    ensures DotIndex(s) == |s|
  {
    if s != [] {
      DigitsHaveNoDot(s[1..]);
    }
  }

  /** A bare string of digits denotes the natural number it spells. */
  lemma UnsignedDigits(s: string)
    requires AllDigits(s) && |s| > 0
    ensures Unsigned(s) == Some(NatOf(s) as real)
  {
    DigitsHaveNoDot(s);
    var i := DotIndex(s);
    assert i == |s|;
    assert s[..i] == s;
    var frac: string := "";
    assert AllDigits(frac);
    assert Fraction(frac) == 0.0;
    assert AllDigits(s[..i]);
    assert Unsigned(s) == Some(NatOf(s) as real + Fraction(frac));
  }

  /** Reading back what `str` writes for a natural number gives that number, with or without a sign. */
  lemma ParseShow(n: nat)
    ensures ParseFloat(Show(n)) == Some(n as real)
    ensures ParseFloat("+" + Show(n)) == Some(n as real)
    ensures ParseFloat("-" + Show(n)) == Some(-(n as real))
  {
    var s := Show(n);
    UnsignedDigits(s);
    NatOfShow(n);
    assert ("+" + s)[1..] == s;
    assert ("-" + s)[1..] == s;
  }

  /**
   * A numeral with a decimal point denotes its whole digits plus the
   * fraction digits read as 0.d1d2..., with or without a sign; either
   * part may be empty (".5", "3.") as long as one digit is written.
   */
  lemma {:induction false} ParseFraction(whole: string, frac: string)
    requires AllDigits(whole) && AllDigits(frac) && |whole| + |frac| > 0
    ensures ParseFloat(whole + "." + frac) == Some(NatOf(whole) as real + Fraction(frac))
    ensures ParseFloat("+" + (whole + "." + frac)) == Some(NatOf(whole) as real + Fraction(frac))
    ensures ParseFloat("-" + (whole + "." + frac)) == Some(-(NatOf(whole) as real + Fraction(frac)))
  {
    var s := whole + "." + frac;
    var v := NatOf(whole) as real + Fraction(frac);
    DecimalValueOfDigits(whole, frac);
    SplitAtPoint(whole, frac);
    StartsUnsigned(whole, frac);
    SignedValue(s, v);
  }

  lemma DecimalValueOfDigits(whole: string, frac: string)
    requires AllDigits(whole) && AllDigits(frac) && |whole| + |frac| > 0
    ensures DecimalValue(whole, frac) == Some(NatOf(whole) as real + Fraction(frac))
  {
  }

  /** The first '.' of "whole.frac" splits it back into its two parts. */
  lemma SplitAtPoint(whole: string, frac: string)
    requires AllDigits(whole)
    ensures Unsigned(whole + "." + frac) == DecimalValue(whole, frac)
  {
    var s := whole + "." + frac;
    DotPastDigits(whole, "." + frac);
    assert s == whole + ("." + frac);
    assert s[..|whole|] == whole;
    assert s[|whole| + 1..] == frac;
  }

  /** A numeral made of digits and a point does not start with a sign. */
  lemma StartsUnsigned(whole: string, frac: string)
    requires AllDigits(whole)
    ensures |whole + "." + frac| > 0
    ensures (whole + "." + frac)[0] != '+' && (whole + "." + frac)[0] != '-'
  {
    if whole != [] {
      assert (whole + "." + frac)[0] == whole[0];
    } else {
      assert (whole + "." + frac)[0] == '.';
    }
  }

  /** A sign in front of an unsigned numeral is read as `float` reads it. */
  lemma SignedValue(s: string, v: real)
    requires |s| > 0 && s[0] != '+' && s[0] != '-'
    requires Unsigned(s) == Some(v)
    ensures ParseFloat(s) == Some(v)
    ensures ParseFloat("+" + s) == Some(v)
    ensures ParseFloat("-" + s) == Some(-v)
  {
    assert ("+" + s)[1..] == s;
    assert ("-" + s)[1..] == s;
  }

  lemma DotPastDigits(w: string, rest: string)
    requires AllDigits(w) && |rest| > 0 && rest[0] == '.'
    ensures DotIndex(w + rest) == |w|
  {
    if w != [] {
      assert (w + rest)[1..] == w[1..] + rest;
      DotPastDigits(w[1..], rest);
    }
  }

  /** Strings with no digit at all are rejected. */
  lemma RejectsDigitless()
    ensures ParseFloat("") == None
    ensures ParseFloat(".") == None
    ensures ParseFloat("-") == None
    ensures ParseFloat("-.") == None
  {
    assert "-"[1..] == "";
    assert "-."[1..] == ".";
  }
}
