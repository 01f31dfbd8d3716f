/**
 * String helpers the URL builders and their inverses are written with:
 * the decimal rendering of a natural number (what `format!("{}", id)`
 * produces for a `u32`) and prefix, suffix and separator splitting.
 */
module Text {
  import opened Types

  predicate IsDigit(c: char) { '0' <= c <= '9' }

  predicate AllDigits(s: string) { forall i :: 0 <= i < |s| ==> IsDigit(s[i]) }

  function DigitValue(c: char): nat
    requires IsDigit(c)
  {
    c as int - '0' as int
  }

  function DigitChar(d: nat): (c: char)
    requires d < 10
    ensures IsDigit(c) && DigitValue(c) == d
  {
    ('0' as int + d) as char
  }

  /**
   * The decimal rendering of `n`, most significant digit first, with no
   * leading zero (Rust's `Display` for unsigned integers).
   */
  function Decimal(n: nat): (s: string)
    ensures 1 <= |s| && AllDigits(s)
    ensures (s[0] == '0') == (n == 0)
    decreases n
  {
    if n < 10 then [DigitChar(n)] else Decimal(n / 10) + [DigitChar(n % 10)]
  }

  /** The number a string of decimal digits denotes. */
  function DigitsValue(s: string): nat
    requires AllDigits(s)
    decreases |s|
  {
    if s == [] then 0 else DigitsValue(s[..|s| - 1]) * 10 + DigitValue(s[|s| - 1])
  }

  /** A non-empty digit string without a leading zero (other than "0" itself). */
  predicate Canonical(s: string) {
    1 <= |s| && AllDigits(s) && (s[0] == '0' ==> |s| == 1)
  }

  /** Inverse of `Decimal`: accepts exactly the canonical digit strings. */
  function ParseDecimal(s: string): Option<nat> {
    if Canonical(s) then Some(DigitsValue(s)) else None
  }

  /** Inverse of the decimal rendering of a `u32` identifier. */
  function ParseU32(s: string): Option<u32> {
    var n :- ParseDecimal(s);
    if n < 0x1_0000_0000 then Some(n as u32) else None
  }

  lemma {:induction false} DigitsValueOfDecimal(n: nat)
    ensures DigitsValue(Decimal(n)) == n
    decreases n
  {
    if n >= 10 {
      var s := Decimal(n);
      DigitsValueOfDecimal(n / 10);
      assert s[..|s| - 1] == Decimal(n / 10);
    }
  }

  /** Rendering then parsing gives the number back. */
  lemma DecimalRoundTrip(n: nat)
    ensures ParseDecimal(Decimal(n)) == Some(n)
  {
    DigitsValueOfDecimal(n);
  }

  lemma ParseU32RoundTrip(id: u32)
    ensures ParseU32(Decimal(id as nat)) == Some(id)
  {
    DecimalRoundTrip(id as nat);
  }

  lemma {:induction false} LeadingDigitPositive(s: string)
    requires 1 <= |s| && AllDigits(s) && s[0] != '0'
    ensures DigitsValue(s) >= 1
    decreases |s|
  {
    if |s| > 1 {
      LeadingDigitPositive(s[..|s| - 1]);
    }
  }

  /** Parsing then rendering gives the string back: canonical strings are renderings. */
  lemma {:induction false} DecimalOfDigits(s: string)
    requires Canonical(s)
    ensures Decimal(DigitsValue(s)) == s
    decreases |s|
  {
    if |s| > 1 {
      var t := s[..|s| - 1];
      assert Canonical(t);
      LeadingDigitPositive(t);
      DecimalOfDigits(t);
      var n := DigitsValue(s);
      assert n / 10 == DigitsValue(t) && n % 10 == DigitValue(s[|s| - 1]);
      assert DigitChar(n % 10) == s[|s| - 1];
      assert s == t + [s[|s| - 1]];
    }
  }

  /** `ParseDecimal` and `Decimal` are inverse bijections between nat and canonical strings. */
  lemma ParseDecimalSound(s: string, n: nat)
    ensures ParseDecimal(s) == Some(n) <==> Decimal(n) == s
  {
    if ParseDecimal(s) == Some(n) {
      DecimalOfDigits(s);
    }
    if Decimal(n) == s {
      DecimalRoundTrip(n);
    }
  }

  /** Distinct numbers have distinct renderings. */
  lemma DecimalInjective(m: nat, n: nat)
    requires Decimal(m) == Decimal(n)
    ensures m == n
  {
    DecimalRoundTrip(m);
    DecimalRoundTrip(n);
  }

  /** `s` with prefix `p` removed, when `s` starts with `p`. */
  function StripPrefix(s: string, p: string): (r: Option<string>)
    ensures r.Some? <==> p <= s
    ensures r.Some? ==> s == p + r.value
  {
    if p <= s then Some(s[|p|..]) else None
  }

  /** `s` with suffix `x` removed, when `s` ends with `x`. */
  function StripSuffix(s: string, x: string): (r: Option<string>)
    ensures r.Some? <==> |x| <= |s| && s[|s| - |x|..] == x
    ensures r.Some? ==> s == r.value + x
  {
    if |x| <= |s| && s[|s| - |x|..] == x then Some(s[..|s| - |x|]) else None
  }

  /** `s` split around the first occurrence of `c`. */
  function SplitFirst(s: string, c: char): (r: Option<(string, string)>)
    ensures r.Some? ==> c !in r.value.0 && s == r.value.0 + [c] + r.value.1
    ensures r.None? ==> c !in s
    decreases |s|
  {
    if s == [] then None
    else if s[0] == c then Some(([], s[1..]))
    else match SplitFirst(s[1..], c)
      case None => None
      case Some(split) => Some(([s[0]] + split.0, split.1))
  }

  /**
   * Regrouping a concatenation of four parts, so that its last two are read as one.
   * Stated on variables alone, it keeps the URL proofs within the resource limit.
   */
  lemma Regroup4(a: string, b: string, c: string, d: string)
    ensures a + b + c + d == a + b + (c + d)
  {
  }

  /**
   * Regrouping a concatenation of five parts around its first. Stated on
   * variables alone, it keeps the URL proofs within the resource limit.
   */
  lemma Regroup5(a: string, b: string, c: string, d: string, e: string)
    ensures a + b + c + d + e == a + ((b + c) + (d + e))
  {
  }

  lemma StripPrefixOf(p: string, t: string)
    ensures StripPrefix(p + t, p) == Some(t)
  {
  }

  lemma StripSuffixOf(t: string, x: string)
    ensures StripSuffix(t + x, x) == Some(t)
  {
  }

  /** Splitting finds the separator that follows a part free of it. */
  lemma {:induction false} SplitFirstOf(a: string, c: char, b: string)
    requires c !in a
    ensures SplitFirst(a + [c] + b, c) == Some((a, b))
    decreases |a|
  {
    var s := a + [c] + b;
    if a == [] {
      assert s[1..] == b;
    } else {
      assert s[0] == a[0] && s[1..] == a[1..] + [c] + b;
      SplitFirstOf(a[1..], c, b);
      assert [a[0]] + a[1..] == a;
    }
  }
}
