/** The two JS number/string conversions transKey and Piano rely on, on the
    integers: `Number(s)` reading an octave back from text, and `String(n)`
    writing an integer octave into a key name. */
module JsNumber {
  import opened Wrappers

  predicate IsDigit(c: char) { '0' <= c <= '9' }

  function DigitValue(c: char): (d: nat)
    requires IsDigit(c)
    ensures d < 10
  {
    (c as int) - ('0' as int)
  }

  function DigitChar(d: nat): (c: char)
    requires d < 10
    ensures IsDigit(c) && DigitValue(c) == d
  {
    (('0' as int) + d) as char
  }

  predicate AllDigits(s: string) { forall i :: 0 <= i < |s| ==> IsDigit(s[i]) }

  /** One or more decimal digits. */
  predicate IsDigits(s: string) { |s| > 0 && AllDigits(s) }

  /** The integer numerals this model reads: digits, optionally after a '-'. */
  predicate IsNumeral(s: string) {
    IsDigits(s) || (|s| > 1 && s[0] == '-' && IsDigits(s[1..]))
  }

  /** A numeral as String() writes one: no leading zero, no "-0". */
  predicate IsCanonicalNumeral(s: string) {
    || (IsDigits(s) && (|s| > 1 ==> s[0] != '0'))
    || (|s| > 1 && s[0] == '-' && IsDigits(s[1..]) && s[1] != '0')
  }

  /** The value of a digit string, most significant digit first. */
  function DigitsValue(s: string): nat
    requires AllDigits(s)
    decreases |s|
  {
    if s == [] then 0 else 10 * DigitsValue(s[..|s| - 1]) + DigitValue(s[|s| - 1])
  }

  /** The decimal numeral of a non-negative integer, as `String(n)` writes it. */
  function NatToString(n: nat): (s: string)
    ensures IsDigits(s)
    ensures s[0] == '0' <==> n == 0
    ensures n == 0 ==> s == "0"
  {
    if n < 10 then [DigitChar(n)] else NatToString(n / 10) + [DigitChar(n % 10)]
  }

  /** `String(i)` of an integer-valued number. */
  function IntToString(i: int): (s: string)
    ensures IsNumeral(s)
    ensures s[0] == '-' <==> i < 0
  {
    if i < 0 then "-" + NatToString(-i) else NatToString(i)
  }

  /** `Number(s)` on the texts this model covers: the empty string is 0, a
      numeral is its value, anything else is NaN (None). */
  function ParseNumber(s: string): (r: Option<int>)
    ensures r.Some? <==> s == "" || IsNumeral(s)
    ensures s == "" ==> r == Some(0)
    ensures r.Some? && r.value < 0 ==> s[0] == '-'
  {
    if s == "" then Some(0)
    else if IsDigits(s) then Some(DigitsValue(s))
    else if |s| > 1 && s[0] == '-' && IsDigits(s[1..]) then Some(-(DigitsValue(s[1..]) as int))
    else None
  }

  lemma {:induction false} NatToStringRoundTrip(n: nat)
    ensures DigitsValue(NatToString(n)) == n
  {
    var s := NatToString(n);
    if n < 10 {
      assert s[..0] == [];
    } else {
      NatToStringRoundTrip(n / 10);
      assert s[..|s| - 1] == NatToString(n / 10);
    }
  }

  /** A digit string with a non-zero leading digit has a positive value. */
  lemma {:induction false} LeadingDigitPositive(s: string)
    requires IsDigits(s) && s[0] != '0'
    ensures DigitsValue(s) > 0
  {
    if |s| > 1 {
      LeadingDigitPositive(s[..|s| - 1]);
    } else {
      assert s[..0] == [];
    }
  }

  lemma {:induction false} DigitsRoundTrip(s: string)
    requires IsDigits(s) && (|s| > 1 ==> s[0] != '0')
    ensures NatToString(DigitsValue(s)) == s
  {
    var n := DigitsValue(s);
    var last := s[|s| - 1];
    if |s| == 1 {
      assert s[..|s| - 1] == [];
      assert DigitsValue(s[..|s| - 1]) == 0;
      assert n == DigitValue(last);
      assert DigitChar(DigitValue(last)) == last;
    } else {
      var t := s[..|s| - 1];
      LeadingDigitPositive(t);
      DigitsRoundTrip(t);
      assert n / 10 == DigitsValue(t) && n % 10 == DigitValue(last);
      assert DigitChar(DigitValue(last)) == last;
      assert s == t + [last];
    }
  }

  /** `Number(String(i))` gives `i` back for every integer. */
  lemma IntToStringRoundTrip(i: int)
    ensures ParseNumber(IntToString(i)) == Some(i)
  {
    var s := IntToString(i);
    if i < 0 {
      NatToStringRoundTrip(-i);
      assert s[1..] == NatToString(-i);
    } else {
      NatToStringRoundTrip(i);
    }
  }

  /** `String(Number(s))` gives `s` back for every canonical numeral. */
  lemma ParseNumberRoundTrip(s: string)
    requires IsCanonicalNumeral(s)
    ensures ParseNumber(s).Some? && IntToString(ParseNumber(s).value) == s
  {
    if IsDigits(s) {
      DigitsRoundTrip(s);
    } else {
      var t := s[1..];
      LeadingDigitPositive(t);
      DigitsRoundTrip(t);
      assert s == "-" + t;
    }
  }
}
