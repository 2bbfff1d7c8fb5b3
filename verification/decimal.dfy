/**
 * Decimal text <-> integer conversions used by the navigation reconciler and the
 * sign overlay: libc `atoi` (every tag payload is parsed with it) and the "%d"
 * conversion (the overlay prints an unknown sign code as its number).
 * Integers are unbounded here: `atoi`'s behaviour on overflow is not modelled.
 */
module Decimal {

  predicate IsDigit(c: char) {
    '0' <= c <= '9'
  }

  /** The characters C's `isspace` accepts in the "C" locale. */
  predicate IsSpace(c: char) {
    c == ' ' || c == '\t' || c == '\n' || c == '\U{B}' || c == '\U{C}' || c == '\r'
  }

  function DigitValue(c: char): (d: nat)
    requires IsDigit(c)
    ensures d < 10
  {
    (c as int) - ('0' as int)
  }

  function DigitChar(d: nat): (c: char)
    requires d < 10
    ensures IsDigit(c) && DigitValue(c) == d
  {
    (('0' as int) + d) as char
  }

  predicate AllDigits(s: string) {
    forall i :: 0 <= i < |s| ==> IsDigit(s[i])
  }

  /** The longest prefix of `s` made of decimal digits. */
  function DigitPrefix(s: string): (p: string)
    ensures |p| <= |s| && p == s[..|p|]
    ensures AllDigits(p)
    ensures |p| < |s| ==> !IsDigit(s[|p|])
  {
    if s == [] || !IsDigit(s[0]) then [] else [s[0]] + DigitPrefix(s[1..])
  }

  /** The value of a string of digits read most significant first. */
  function DigitsValue(ds: string): (n: nat)
    requires AllDigits(ds)
  {
    if ds == [] then 0 else DigitsValue(ds[..|ds| - 1]) * 10 + DigitValue(ds[|ds| - 1])
  }

  /** Drops the whitespace `atoi` skips before the number. */
  function SkipSpace(s: string): (t: string)
    ensures |t| <= |s| && t == s[|s| - |t|..]
    ensures t == [] || !IsSpace(t[0])
  {
    if s != [] && IsSpace(s[0]) then SkipSpace(s[1..]) else s
  }

  /**
   * libc `atoi`: optional leading whitespace, an optional sign, then the longest run of
   * digits; a string with no such digits reads as 0.
   */
  function Atoi(s: string): (n: int)
    ensures n != 0 ==> exists i :: 0 <= i < |s| && IsDigit(s[i])
  {
    var t := SkipSpace(s);
    var signed := t != [] && (t[0] == '-' || t[0] == '+');
    var rest := if signed then t[1..] else t;
    var v: int := DigitsValue(DigitPrefix(rest));
    var n := if signed && t[0] == '-' then -v else v;
    assert n != 0 ==> DigitPrefix(rest) != [] && IsDigit(s[|s| - |rest|]);
    n
  }

  /** The digits of a natural number, most significant first, without leading zeros. */
  function Digits(n: nat): (ds: string)
    ensures ds != [] && AllDigits(ds)
    ensures ds[0] != '0' || n == 0
    decreases n
  {
    if n < 10 then [DigitChar(n)] else Digits(n / 10) + [DigitChar(n % 10)]
  }

  /** C's "%d" conversion of `n`. */
  function DecimalString(n: int): (s: string)
    ensures s != []
    ensures n < 0 <==> s[0] == '-'
    ensures var magnitude := if n < 0 then s[1..] else s;
      magnitude != [] && AllDigits(magnitude) && (magnitude[0] != '0' || n == 0)
  {
    if n < 0 then "-" + Digits(-n) else Digits(n)
  }

  lemma {:induction false} DigitsValueOfDigits(n: nat)
    ensures DigitsValue(Digits(n)) == n
    decreases n
  {
    if n >= 10 {
      var ds := Digits(n);
      assert ds[..|ds| - 1] == Digits(n / 10);
      DigitsValueOfDigits(n / 10);
    }
  }

  lemma {:induction false} DigitPrefixOfDigits(ds: string)
    requires AllDigits(ds)
    ensures DigitPrefix(ds) == ds
  {
    if ds != [] {
      DigitPrefixOfDigits(ds[1..]);
    }
  }

  /** Parsing what "%d" prints gives the number back. */
  lemma AtoiOfDecimalString(n: int)
    ensures Atoi(DecimalString(n)) == n
  {
    var m: nat := if n < 0 then -n else n;
    var ds := Digits(m);
    DigitsValueOfDigits(m);
    DigitPrefixOfDigits(ds);
    var s := DecimalString(n);
    assert !IsSpace(s[0]);
    assert SkipSpace(s) == s;
    if n < 0 {
      assert s == "-" + ds && s[1..] == ds;
    } else {
      assert s == ds && s[0] != '-' && s[0] != '+';
    }
  }
}
