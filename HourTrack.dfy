/**
 * The track file name of an hour: Swift's string interpolation `"\(hour)"`,
 * the decimal rendering of a non-negative integer, together with the
 * decimal parser that inverts it.
 */
module HourTrack {
  import opened Optional

  predicate IsDigit(c: char) {
    '0' <= c <= '9'
  }

  function DigitChar(d: nat): (c: char)
    requires d < 10
    ensures IsDigit(c) && c as int - '0' as int == d
  {
    ('0' as int + d) as char
  }

  function DigitValue(c: char): (d: nat)
    requires IsDigit(c)
    ensures d < 10 && DigitChar(d) == c
    ensures forall e: nat :: e < 10 && DigitChar(e) == c ==> e == d
  {
    (c as int - '0' as int) as nat
  }

  /** A decimal numeral as interpolation prints it: digits only, no leading zero. */
  predicate Canonical(s: string) {
    |s| >= 1 && (forall i :: 0 <= i < |s| ==> IsDigit(s[i])) && (|s| > 1 ==> s[0] != '0')
  }

  /** The decimal rendering of `n`, most significant digit first. */
  function Decimal(n: nat): (s: string)
    ensures Canonical(s)
    ensures s[0] == '0' <==> n == 0
    decreases n
  {
    if n < 10 then [DigitChar(n)] else Decimal(n / 10) + [DigitChar(n % 10)]
  }

  /** The value of a string of decimal digits (0 for the empty string). */
  function ParseDigits(s: string): nat
    requires forall i :: 0 <= i < |s| ==> IsDigit(s[i])
  {
    if |s| == 0 then 0 else ParseDigits(s[..|s| - 1]) * 10 + DigitValue(s[|s| - 1])
  }

  /** Reads a track file name back as an hour; None unless it is a canonical numeral. */
  function ParseDecimal(s: string): (r: Option<nat>)
    ensures r.Some? <==> Canonical(s)
  {
    if Canonical(s) then Some(ParseDigits(s)) else None
  }

  /** Parsing the rendering of `n` gives back `n`. */
  lemma {:induction false} ParseDecimalOfDecimal(n: nat)
    ensures ParseDecimal(Decimal(n)) == Some(n)
    decreases n
  {
    var s := Decimal(n);
    if n < 10 {
      assert s[..|s| - 1] == [];
      assert ParseDigits(s) == DigitValue(s[0]);
      assert DigitValue(s[0]) == n;
      assert Canonical(s);
    } else {
      ParseDecimalOfDecimal(n / 10);
      assert s[..|s| - 1] == Decimal(n / 10);
    }
  }

  /** A numeral with a non-zero leading digit has a positive value. */
  lemma {:induction false} LeadingNonZeroIsPositive(s: string)
    requires |s| >= 1 && (forall i :: 0 <= i < |s| ==> IsDigit(s[i])) && s[0] != '0'
    ensures ParseDigits(s) >= 1
    decreases |s|
  {
    if |s| > 1 {
      LeadingNonZeroIsPositive(s[..|s| - 1]);
    } else {
      assert ParseDigits(s) == DigitValue(s[0]);
    }
  }

  /** Rendering the value of a canonical numeral gives the numeral back. */
  lemma {:induction false} DecimalOfParseDecimal(s: string)
    requires Canonical(s)
    ensures Decimal(ParseDecimal(s).value) == s
    decreases |s|
  {
    var n := ParseDigits(s);
    if |s| == 1 {
      assert s[..|s| - 1] == [];
      assert n == ParseDigits(s[..|s| - 1]) * 10 + DigitValue(s[0]) == DigitValue(s[0]);
      assert Decimal(n) == [s[0]];
    } else {
      var t := s[..|s| - 1];
      assert Canonical(t);
      LeadingNonZeroIsPositive(t);
      DecimalOfParseDecimal(t);
      assert n / 10 == ParseDigits(t) && n % 10 == DigitValue(s[|s| - 1]);
      assert s == t + [s[|s| - 1]];
    }
  }

  /** Distinct values never share a rendering. */
  lemma DecimalInjective(m: nat, n: nat)
    ensures Decimal(m) == Decimal(n) ==> m == n
  {
    ParseDecimalOfDecimal(m);
    ParseDecimalOfDecimal(n);
  }

  /** `playAudioForCurrentHour`: the track file name for an hour of the day. */
  function HourFileName(hour: nat): (name: string)
    ensures ParseDecimal(name) == Some(hour)
  {
    ParseDecimalOfDecimal(hour);
    Decimal(hour)
  }

  /** An hour of the day renders as one digit before ten and two from ten on. */
  lemma HourFileNameLength(hour: nat)
    requires hour < 24
    ensures |HourFileName(hour)| == if hour < 10 then 1 else 2
  {
    if hour >= 10 {
      assert Decimal(hour / 10) == [DigitChar(hour / 10)];
    }
  }
}
