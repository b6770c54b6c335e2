/**
 * Amount strings of the shopping list: reading a quantity out of free text such as
 * "ca. 100" or "1,5" (`parseAmount`, with JavaScript's `parseFloat` underneath), and
 * writing a summed quantity back, whole numbers without decimals and everything else with
 * one decimal place and a decimal comma.
 *
 * Quantities are exact rationals (`real`); the source computes with binary doubles.
 */
module Amounts {
  import opened Wrappers
  import opened Text

  /** The amount (and unit) written when an ingredient has none: an em dash. */
  const PLACEHOLDER: string := "\U{2014}"

  predicate IsDigit(c: char) {
    '0' <= c <= '9'
  }

  predicate AllDigits(s: string) {
    forall i :: 0 <= i < |s| ==> IsDigit(s[i])
  }

  function DigitOf(c: char): nat
    requires IsDigit(c)
  {
    c as int - '0' as int
  }

  function DigitChar(d: nat): (c: char)
    requires d < 10
    ensures IsDigit(c) && DigitOf(c) == d
  {
    ('0' as int + d) as char
  }

  /** The number a string of decimal digits denotes; the empty string denotes 0. */
  function DigitsValue(s: string): nat
    requires AllDigits(s)
  {
    if s == [] then 0 else DigitsValue(s[..|s| - 1]) * 10 + DigitOf(s[|s| - 1])
  }

  function Pow10(k: nat): (p: nat)
    ensures p >= 1
  {
    if k == 0 then 1 else 10 * Pow10(k - 1)
  }

  /** The decimal digits of n, without leading zeros (`String(n)` for a whole number). */
  function NatToString(n: nat): (s: string)
    decreases n
  {
    if n < 10 then [DigitChar(n)] else NatToString(n / 10) + [DigitChar(n % 10)]
  }

  /** Writing a number out and reading the digits back gives the number. */
  lemma {:induction false} NatToStringValue(n: nat)
    ensures |NatToString(n)| >= 1 && AllDigits(NatToString(n))
    ensures DigitsValue(NatToString(n)) == n
    decreases n
  {
    if n >= 10 {
      NatToStringValue(n / 10);
      var s := NatToString(n);
      assert s[..|s| - 1] == NatToString(n / 10);
    }
  }

  /** The length of the run of digits at the start of s. */
  function DigitRun(s: string): (k: nat)
    ensures k <= |s| && AllDigits(s[..k])
    ensures k == |s| || !IsDigit(s[k])
  {
    if |s| > 0 && IsDigit(s[0]) then
      var k := 1 + DigitRun(s[1..]);
      assert s[..k] == [s[0]] + s[1..][..k - 1];
      k
    else 0
  }

  /** A run of digits followed by a string that does not start with a digit. */
  lemma {:induction false} DigitRunOfDigits(d: string, t: string)
    requires AllDigits(d)
    requires t == [] || !IsDigit(t[0])
    ensures DigitRun(d + t) == |d|
    decreases |d|
  {
    if d != [] {
      assert (d + t)[1..] == d[1..] + t;
      DigitRunOfDigits(d[1..], t);
    } else {
      assert d + t == t;
    }
  }

  /**
   * A decimal literal as read: sign, all its digits as one number, and the power of ten
   * they are scaled by ("12.5" has digits 125 and exponent -1).
   */
  datatype Decimal = Decimal(negative: bool, digits: nat, exponent: int)

  /** The number a decimal literal denotes. */
  function Value(d: Decimal): real {
    var m := if d.exponent >= 0 then (d.digits * Pow10(d.exponent)) as real
             else d.digits as real / Pow10(-d.exponent) as real;
    if d.negative then -m else m
  }

  predicate HasDigit(s: string) {
    exists i :: 0 <= i < |s| && IsDigit(s[i])
  }

  /** The fraction digits after the integer digits, when a point follows them. */
  function FractionDigits(rest: string): (f: string)
    ensures AllDigits(f)
    ensures |rest| > 0 && rest[0] == '.' ==> |f| < |rest| && f == rest[1..][..|f|]
    ensures !(|rest| > 0 && rest[0] == '.') ==> f == []
  {
    if |rest| > 0 && rest[0] == '.' then rest[1..][..DigitRun(rest[1..])] else []
  }

  /**
   * The longest prefix of s that is an unsigned decimal literal: digits, optionally a point
   * and more digits, at least one digit in all. An exponent part is not read.
   */
  function ParseUnsigned(s: string): Option<Decimal> {
    var k := DigitRun(s);
    var f := FractionDigits(s[k..]);
    if k == 0 && f == [] then None
    else Some(Decimal(false, DigitsValue(s[..k] + f), 0 - |f|))
  }

  /**
   * `parseFloat`: leading whitespace is skipped, then an optional sign and the longest
   * decimal literal that follows; `None` stands for NaN.
   */
  function ParseFloat(s: string): Option<Decimal> {
    var t := TrimStart(s);
    if |t| > 0 && (t[0] == '+' || t[0] == '-') then
      match ParseUnsigned(t[1..])
      case Some(d) => Some(d.(negative := t[0] == '-'))
      case None => None
    else ParseUnsigned(t)
  }

  /** ASCII letters compared without regard to case, as the `i` flag of a regular expression does. */
  predicate SameLetterIgnoringCase(c: char, lower: char) {
    c == lower || ('a' <= lower <= 'z' && c as int == lower as int - 32)
  }

  /** s starts with the lower-case ASCII word w, in any mix of cases. */
  predicate StartsWithIgnoringCase(s: string, w: string) {
    |w| <= |s| && forall i :: 0 <= i < |w| ==> SameLetterIgnoringCase(s[i], w[i])
  }

  /** The amount starts with one of the qualifiers "ca", "circa" or "etwa", in any case. */
  predicate HasQualifier(s: string) {
    StartsWithIgnoringCase(s, "ca") || StartsWithIgnoringCase(s, "circa") || StartsWithIgnoringCase(s, "etwa")
  }

  /** q is what the group `(ca\.?|circa|etwa)` matches under the `i` flag: one of the four words, in any case. */
  predicate IsQualifier(q: string) {
    || (|q| == 2 && StartsWithIgnoringCase(q, "ca"))
    || (|q| == 3 && StartsWithIgnoringCase(q, "ca") && q[2] == '.')
    || (|q| == 5 && StartsWithIgnoringCase(q, "circa"))
    || (|q| == 4 && StartsWithIgnoringCase(q, "etwa"))
  }

  /** How many characters the group `(ca\.?|circa|etwa)` matches at the start of s. */
  function QualifierLength(s: string): (k: nat)
    requires HasQualifier(s)
    ensures 2 <= k <= |s| && IsQualifier(s[..k])
  {
    if StartsWithIgnoringCase(s, "ca") then (if |s| > 2 && s[2] == '.' then 3 else 2)
    else if StartsWithIgnoringCase(s, "circa") then 5
    else 4
  }

  /**
   * `/^(ca\.?|circa|etwa)\s*\/i` replaced by nothing: a leading "ca", "ca.", "circa" or
   * "etwa" is removed with the whitespace after it; anything else is left as it is.
   */
  function StripQualifier(s: string): (r: string)
    ensures !HasQualifier(s) ==> r == s
    ensures HasQualifier(s) ==> |r| <= |s| - 2 && r == s[|s| - |r|..] && (r == [] || !IsWhite(r[0]))
  {
    if HasQualifier(s) then
      var k := QualifierLength(s);
      TrimStartOfSuffix(s, k);
      TrimStart(s[k..])
    else s
  }

  /** What remains after the qualifier is a suffix of the amount. */
  lemma StripQualifierSuffix(s: string)
    ensures |StripQualifier(s)| <= |s| && StripQualifier(s) == s[|s| - |StripQualifier(s)|..]
  {
    if StartsWithIgnoringCase(s, "ca") {
      StripCaSuffix(s);
    } else if StartsWithIgnoringCase(s, "circa") {
      StripLongSuffix(s, "circa");
    } else if StartsWithIgnoringCase(s, "etwa") {
      StripLongSuffix(s, "etwa");
    }
  }

  lemma StripCaSuffix(s: string)
    requires StartsWithIgnoringCase(s, "ca")
    ensures |StripQualifier(s)| <= |s| && StripQualifier(s) == s[|s| - |StripQualifier(s)|..]
  {
    if |s| > 2 && s[2] == '.' {
      TrimStartAfter(s, 3, StripQualifier(s));
    } else {
      TrimStartAfter(s, 2, StripQualifier(s));
    }
  }

  lemma StripLongSuffix(s: string, w: string)
    requires w == "circa" || w == "etwa"
    requires StartsWithIgnoringCase(s, w) && !StartsWithIgnoringCase(s, "ca")
    requires w == "etwa" ==> !StartsWithIgnoringCase(s, "circa")
    ensures |StripQualifier(s)| <= |s| && StripQualifier(s) == s[|s| - |StripQualifier(s)|..]
  {
    StripLongQualifier(s, w, s[|w|..]);
    TrimStartAfter(s, |w|, StripQualifier(s));
  }

  /** Whitespace trimmed from a suffix leaves a suffix. */
  lemma TrimStartAfter(s: string, n: nat, r: string)
    requires n <= |s| && r == TrimStart(s[n..])
    ensures |r| <= |s| && r == s[|s| - |r|..]
  {
    SuffixOfSuffix(s, s[n..], r);
  }

  /** A suffix of a suffix is a suffix. */
  lemma SuffixOfSuffix(s: string, t: string, r: string)
    requires |t| <= |s| && t == s[|s| - |t|..]
    requires |r| <= |t| && r == t[|t| - |r|..]
    ensures r == s[|s| - |r|..]
  {
    assert forall i :: 0 <= i < |r| ==> r[i] == s[|s| - |r| + i];
  }

  /** `s.replace(",", ".")`: only the first comma becomes a point. */
  function ReplaceFirstComma(s: string): (r: string)
    ensures |r| == |s|
    ensures |s| > 0 && s[0] != ',' ==> r[0] == s[0]
  {
    if s == [] then s
    else if s[0] == ',' then "." + s[1..]
    else [s[0]] + ReplaceFirstComma(s[1..])
  }

  /** Replacing the comma leaves every digit where it was, and adds none. */
  lemma {:induction false} ReplaceFirstCommaDigits(s: string)
    ensures forall i :: 0 <= i < |s| ==> (IsDigit(ReplaceFirstComma(s)[i]) <==> IsDigit(s[i]))
    decreases |s|
  {
    if s != [] && s[0] != ',' {
      ReplaceFirstCommaDigits(s[1..]);
      var r := ReplaceFirstComma(s);
      assert r == [s[0]] + ReplaceFirstComma(s[1..]);
      assert forall i :: 1 <= i < |s| ==> r[i] == ReplaceFirstComma(s[1..])[i - 1];
    }
  }

  /** `parseAmount`: the qualifier is dropped, the rest trimmed, a decimal comma read as a point. */
  function ParseAmount(s: string): Option<real> {
    ValueOf(ParseFloat(ReplaceFirstComma(Trim(StripQualifier(s)))))
  }

  /** A parsed literal's number; `None` (NaN) stays `None`. */
  function ValueOf(d: Option<Decimal>): Option<real> {
    match d
    case Some(d) => Some(Value(d))
    case None => None
  }

  /**
   * The amount of an ingredient as a number (as the aggregation loop reads it): `parseAmount`,
   * and when that yields nothing, `parseFloat` of the string with its first comma replaced.
   */
  function NumericValue(s: string): Option<real> {
    match ParseAmount(s)
    case Some(v) => Some(v)
    case None => ValueOf(ParseFloat(ReplaceFirstComma(s)))
  }

  /** A literal needs a digit: an unsigned literal is read only from a string with one. */
  lemma ParseUnsignedNeedsDigit(s: string)
    requires ParseUnsigned(s).Some?
    ensures HasDigit(s)
  {
    var k := DigitRun(s);
    if k > 0 {
      assert IsDigit(s[..k][0]);
    } else {
      var f := FractionDigits(s);
      assert IsDigit(f[0]) && s[1 + 0] == f[0];
    }
  }

  lemma SuffixHasDigit(s: string, t: string)
    requires |t| <= |s| && t == s[|s| - |t|..] && HasDigit(t)
    ensures HasDigit(s)
  {
    var i :| 0 <= i < |t| && IsDigit(t[i]);
    assert s[|s| - |t| + i] == t[i];
  }

  lemma PrefixHasDigit(s: string, t: string)
    requires |t| <= |s| && t == s[..|t|] && HasDigit(t)
    ensures HasDigit(s)
  {
    var i :| 0 <= i < |t| && IsDigit(t[i]);
    assert s[i] == t[i];
  }

  lemma ParseFloatNeedsDigit(s: string)
    requires ParseFloat(s).Some?
    ensures HasDigit(s)
  {
    var t := TrimStart(s);
    if |t| > 0 && (t[0] == '+' || t[0] == '-') {
      ParseUnsignedNeedsDigit(t[1..]);
      SuffixHasDigit(t, t[1..]);
    } else {
      ParseUnsignedNeedsDigit(t);
    }
    SuffixHasDigit(s, t);
  }

  /** `parseAmount` reads a number only from a string containing a digit. */
  lemma ParseAmountNeedsDigit(s: string)
    ensures ParseAmount(s).Some? ==> HasDigit(s)
  {
    if ParseAmount(s).Some? {
      var q := StripQualifier(s);
      StripQualifierSuffix(s);
      var u := TrimStart(q);
      var t := TrimEnd(u);
      assert t == Trim(q);
      var r := ReplaceFirstComma(t);
      ParseFloatNeedsDigit(r);
      var i :| 0 <= i < |r| && IsDigit(r[i]);
      ReplaceFirstCommaDigits(t);
      assert IsDigit(t[i]);
      PrefixHasDigit(u, t);
      SuffixHasDigit(q, u);
      SuffixHasDigit(s, q);
    }
  }

  /** Without a digit there is no number: "—" and "nach Bedarf" are not numeric. */
  lemma NoDigitNoNumber(s: string)
    requires !HasDigit(s)
    ensures ParseAmount(s).None? && NumericValue(s).None?
  {
    ParseAmountNeedsDigit(s);
    if ParseFloat(ReplaceFirstComma(s)).Some? {
      ParseFloatNeedsDigit(ReplaceFirstComma(s));
      var i :| 0 <= i < |s| && IsDigit(ReplaceFirstComma(s)[i]);
      ReplaceFirstCommaDigits(s);
    }
  }

  predicate IsWhole(x: real) {
    x == x.Floor as real
  }

  /** `String(n)` for a whole number n. */
  function IntToString(n: int): string {
    if n < 0 then "-" + NatToString(-n) else NatToString(n)
  }

  /**
   * The tenths `toFixed(1)` keeps of |x|: the nearest multiple of 0.1, and the larger one
   * when x lies exactly half-way.
   */
  function Tenths(x: real): (n: nat)
    ensures n as real <= (if x < 0.0 then -x else x) * 10.0 + 0.5 < n as real + 1.0
  {
    ((if x < 0.0 then -x else x) * 10.0 + 0.5).Floor
  }

  /** The minus sign written before a negative number. */
  function SignText(negative: bool): string {
    if negative then "-" else ""
  }

  /**
   * The amount text for a summed quantity: `String(Math.round(x))` when x is whole, and
   * otherwise `x.toFixed(1)` with its point replaced by a comma. The sign of a negative x
   * is kept even when its tenths round to zero, as `toFixed` does.
   */
  function FormatAmount(x: real): string {
    if IsWhole(x) then IntToString(x.Floor)
    else
      var n := Tenths(x);
      SignText(x < 0.0) + NatToString(n / 10) + "," + [DigitChar(n % 10)]
  }

  /** The quantity the amount text of x stands for: x itself when whole, else x to one decimal place. */
  function Displayed(x: real): real {
    if IsWhole(x) then x
    else if x < 0.0 then -(Tenths(x) as real / 10.0)
    else Tenths(x) as real / 10.0
  }

  /** The displayed quantity is never more than half a tenth away from the sum. */
  lemma DisplayedIsClose(x: real)
    ensures -0.05 <= Displayed(x) - x <= 0.05
    ensures IsWhole(x) ==> Displayed(x) == x
  {
  }

  /** An unsigned literal is its integer digits and fraction digits, scaled by the fraction's length. */
  lemma ParseUnsignedOf(s: string, k: nat, f: string, digits: string, m: nat, e: int)
    requires k == DigitRun(s) && f == FractionDigits(s[k..]) && (k > 0 || f != [])
    requires digits == s[..k] + f && AllDigits(digits) && m == DigitsValue(digits) && e == 0 - |f|
    ensures ParseUnsigned(s) == Some(Decimal(false, m, e))
  {
  }

  /** A string of digits is one run. */
  lemma DigitRunAll(d: string)
    requires AllDigits(d)
    ensures DigitRun(d) == |d|
  {
    DigitRunOfDigits(d, []);
    assert d + [] == d;
  }

  /** Parsing a run of digits with nothing after it reads the digits. */
  lemma ParseUnsignedDigits(d: string)
    requires |d| >= 1 && AllDigits(d)
    ensures ParseUnsigned(d) == Some(Decimal(false, DigitsValue(d), 0))
  {
    DigitRunAll(d);
    assert d[|d|..] == [];
    assert d[..|d|] + [] == d;
    ParseUnsignedOf(d, |d|, [], d, DigitsValue(d), 0);
  }

  /** Parsing "d.e" for a digit string d and one digit e after the point. */
  lemma ParseUnsignedDecimal(d: string, e: char)
    requires |d| >= 1 && AllDigits(d) && IsDigit(e)
    ensures ParseUnsigned(d + "." + [e]) == Some(Decimal(false, DigitsValue(d + [e]), -1))
  {
    DecimalRuns(d, e);
    DigitsValueSnoc(d, e);
    ParseUnsignedOf(d + "." + [e], |d|, [e], d + [e], DigitsValue(d + [e]), -1);
  }

  /** In "d.e" the integer digits are d and the fraction digits are e. */
  lemma DecimalRuns(d: string, e: char)
    requires AllDigits(d) && IsDigit(e)
    ensures DigitRun(d + "." + [e]) == |d|
    ensures FractionDigits((d + "." + [e])[|d|..]) == [e]
    ensures (d + "." + [e])[..|d|] + [e] == d + [e]
  {
    DecimalIntegerRun(d, e);
    DecimalFraction(d, e);
    assert (d + "." + [e])[..|d|] == d;
  }

  lemma DecimalIntegerRun(d: string, e: char)
    requires AllDigits(d)
    ensures DigitRun(d + "." + [e]) == |d|
  {
    DigitRunOfDigits(d, "." + [e]);
    assert d + "." + [e] == d + ("." + [e]);
  }

  lemma DecimalFraction(d: string, e: char)
    requires IsDigit(e)
    ensures FractionDigits((d + "." + [e])[|d|..]) == [e]
  {
    var rest := "." + [e];
    assert (d + "." + [e])[|d|..] == rest;
    assert rest[1..] == [e];
    DigitRunAll([e]);
  }

  /** One more digit multiplies the value by ten and adds the digit. */
  lemma DigitsValueSnoc(d: string, e: char)
    requires AllDigits(d) && IsDigit(e)
    ensures AllDigits(d + [e]) && DigitsValue(d + [e]) == DigitsValue(d) * 10 + DigitOf(e)
  {
    assert (d + [e])[..|d|] == d;
  }

  lemma ValueOfWhole(negative: bool, m: nat)
    ensures Value(Decimal(negative, m, 0)) == if negative then -(m as real) else m as real
  {
    assert Pow10(0) == 1;
  }

  lemma ValueOfTenths(negative: bool, m: nat)
    ensures Value(Decimal(negative, m, -1)) == if negative then -(m as real / 10.0) else m as real / 10.0
  {
    assert Pow10(1) == 10;
  }

  lemma NoQualifierBeforeDigitOrSign(s: string)
    requires |s| > 0 && (IsDigit(s[0]) || s[0] == '-')
    ensures !HasQualifier(s)
  {
    assert !SameLetterIgnoringCase(s[0], 'c');
    assert !SameLetterIgnoringCase(s[0], 'e');
  }

  lemma ReplaceFirstCommaAt(d: string, t: string)
    requires forall i :: 0 <= i < |d| ==> d[i] != ','
    ensures ReplaceFirstComma(d + "," + t) == d + "." + t
    decreases |d|
  {
    var s := d + "," + t;
    if d == [] {
      assert s == [','] + t;
      assert s[1..] == t;
    } else {
      assert s[0] == d[0];
      assert s[1..] == d[1..] + "," + t;
      ReplaceFirstCommaAt(d[1..], t);
      assert d + "." + t == [d[0]] + (d[1..] + "." + t);
    }
  }

  lemma ReplaceFirstCommaNone(d: string)
    requires forall i :: 0 <= i < |d| ==> d[i] != ','
    ensures ReplaceFirstComma(d) == d
    decreases |d|
  {
    if d != [] {
      assert d == [d[0]] + d[1..];
      ReplaceFirstCommaNone(d[1..]);
    }
  }

  /** Without a leading digit or point there is no unsigned literal. */
  lemma ParseUnsignedNone(s: string)
    requires |s| > 0 && !IsDigit(s[0]) && s[0] != '.'
    ensures ParseUnsigned(s) == None
  {
    assert DigitRun(s) == 0;
    assert FractionDigits(s[0..]) == [];
  }

  /** `parseFloat` of a string without leading whitespace or sign reads an unsigned literal. */
  lemma ParseFloatUnsigned(s: string)
    requires |s| > 0 && !IsWhite(s[0]) && s[0] != '+' && s[0] != '-'
    ensures ParseFloat(s) == ParseUnsigned(s)
  {
    assert TrimStart(s) == s;
  }

  /** `parseFloat` finds no number in a string that starts with a letter. */
  lemma ParseFloatOfLetterFirst(r: string)
    requires |r| > 0 && 'A' <= r[0] <= 'z'
    ensures ParseFloat(r) == None
  {
    ParseFloatUnsigned(r);
    ParseUnsignedNone(r);
  }

  /**
   * The fallback of the aggregation, `parseFloat(amount.replace(",", "."))` after a failed
   * `parseAmount`, never finds a number for a trimmed amount: without a qualifier it reads
   * exactly what `parseAmount` read, and with one the text starts with a letter.
   */
  lemma FallbackRedundant(s: string)
    requires IsTrimmed(s)
    ensures NumericValue(s) == ParseAmount(s)
  {
    if HasQualifier(s) {
      assert SameLetterIgnoringCase(s[0], 'c') || SameLetterIgnoringCase(s[0], 'e');
      ParseFloatOfLetterFirst(ReplaceFirstComma(s));
    } else {
      TrimOfTrimmed(s);
    }
  }

  /** A number written from a digit or minus sign to a digit has no qualifier and no surrounding whitespace. */
  lemma PlainNumberText(s: string)
    requires |s| > 0 && (IsDigit(s[0]) || s[0] == '-') && IsDigit(s[|s| - 1])
    ensures StripQualifier(s) == s && Trim(s) == s
  {
    NoQualifierBeforeDigitOrSign(s);
    TrimOfTrimmed(s);
  }

  /** With nothing to strip or trim, `parseAmount` is `parseFloat` after the comma is replaced. */
  lemma ParseAmountOfClean(s: string, d: Decimal)
    requires StripQualifier(s) == s && Trim(s) == s
    requires ParseFloat(ReplaceFirstComma(s)) == Some(d)
    ensures ParseAmount(s) == Some(Value(d))
  {
  }

  /** `parseFloat` of a string that starts with a digit reads an unsigned literal. */
  lemma ParseFloatOfDigitFirst(s: string)
    requires |s| > 0 && IsDigit(s[0])
    ensures ParseFloat(s) == ParseUnsigned(s)
  {
    ParseFloatUnsigned(s);
  }

  /** `parseFloat` of a minus sign and a string that starts with a digit negates the literal. */
  lemma ParseFloatOfMinus(s: string)
    requires |s| > 0 && IsDigit(s[0])
    ensures ParseFloat("-" + s) == match ParseUnsigned(s)
                                   case Some(d) => Some(d.(negative := true))
                                   case None => None
  {
    var p := "-" + s;
    assert TrimStart(p) == p;
    assert p[1..] == s;
  }

  /** `parseFloat` of an optional minus sign and a literal. */
  lemma ParseFloatSigned(negative: bool, s: string, d: Decimal)
    requires |s| > 0 && IsDigit(s[0]) && ParseUnsigned(s) == Some(d) && !d.negative
    ensures ParseFloat(SignText(negative) + s) == Some(d.(negative := negative))
  {
    if negative {
      ParseFloatOfMinus(s);
    } else {
      assert "" + s == s;
      ParseFloatOfDigitFirst(s);
    }
  }

  /** A sign and a run of digits hold no comma. */
  lemma NoCommaInNumber(negative: bool, d: string)
    requires AllDigits(d)
    ensures forall i :: 0 <= i < |SignText(negative) + d| ==> (SignText(negative) + d)[i] != ','
  {
    var sign := SignText(negative);
    forall i | 0 <= i < |sign + d| ensures (sign + d)[i] != ',' {
      if i >= |sign| {
        assert (sign + d)[i] == d[i - |sign|];
      }
    }
  }

  /** A signed run of digits has no qualifier and no surrounding whitespace. */
  lemma DigitsPlain(negative: bool, d: string)
    requires |d| >= 1 && AllDigits(d)
    ensures StripQualifier(SignText(negative) + d) == SignText(negative) + d
    ensures Trim(SignText(negative) + d) == SignText(negative) + d
  {
    var s := SignText(negative) + d;
    assert s[|s| - 1] == d[|d| - 1];
    assert s[0] == (if negative then '-' else d[0]);
    PlainNumberText(s);
  }

  /** A signed run of digits has no comma to replace. */
  lemma DigitsNoComma(negative: bool, d: string)
    requires AllDigits(d)
    ensures ReplaceFirstComma(SignText(negative) + d) == SignText(negative) + d
  {
    NoCommaInNumber(negative, d);
    ReplaceFirstCommaNone(SignText(negative) + d);
  }

  /** `parseFloat` reads all of a signed run of digits. */
  lemma DigitsParseFloat(negative: bool, d: string)
    requires |d| >= 1 && AllDigits(d)
    ensures ParseFloat(SignText(negative) + d) == Some(Decimal(negative, DigitsValue(d), 0))
  {
    ParseUnsignedDigits(d);
    ParseFloatSigned(negative, d, Decimal(false, DigitsValue(d), 0));
  }

  /** A signed run of digits reads back as its number. */
  lemma DigitsTextParses(negative: bool, d: string)
    requires |d| >= 1 && AllDigits(d)
    ensures ParseAmount(SignText(negative) + d) == Some(Value(Decimal(negative, DigitsValue(d), 0)))
  {
    DigitsPlain(negative, d);
    DigitsNoComma(negative, d);
    DigitsParseFloat(negative, d);
    ParseAmountOfClean(SignText(negative) + d, Decimal(negative, DigitsValue(d), 0));
  }

  /** "d,e" with an optional sign is a plain number whose comma becomes a point. */
  lemma DecimalText(negative: bool, d: string, e: char)
    requires |d| >= 1 && AllDigits(d) && IsDigit(e)
    ensures var s := SignText(negative) + d + "," + [e];
            StripQualifier(s) == s && Trim(s) == s &&
            ReplaceFirstComma(s) == SignText(negative) + (d + "." + [e])
  {
    var sign := SignText(negative);
    var s := sign + d + "," + [e];
    NoCommaInNumber(negative, d);
    ReplaceFirstCommaAt(sign + d, [e]);
    assert sign + d + "." + [e] == sign + (d + "." + [e]);
    assert s[|s| - 1] == e;
    assert s[0] == (if negative then '-' else d[0]);
    PlainNumberText(s);
  }

  /** `parseFloat` of "d.e" with an optional sign. */
  lemma ParseFloatDecimal(negative: bool, d: string, e: char)
    requires |d| >= 1 && AllDigits(d) && IsDigit(e)
    ensures ParseFloat(SignText(negative) + (d + "." + [e])) == Some(Decimal(negative, DigitsValue(d + [e]), -1))
  {
    var lit := d + "." + [e];
    assert lit[0] == d[0];
    ParseUnsignedDecimal(d, e);
    ParseFloatSigned(negative, lit, Decimal(false, DigitsValue(d + [e]), -1));
  }

  /** "d,e" with an optional sign reads back as the number d.e. */
  lemma DecimalTextParses(negative: bool, d: string, e: char)
    requires |d| >= 1 && AllDigits(d) && IsDigit(e)
    ensures ParseAmount(SignText(negative) + d + "," + [e]) == Some(Value(Decimal(negative, DigitsValue(d + [e]), -1)))
  {
    DigitsValueSnoc(d, e);
    DecimalText(negative, d, e);
    ParseFloatDecimal(negative, d, e);
    ParseAmountOfClean(SignText(negative) + d + "," + [e], Decimal(negative, DigitsValue(d + [e]), -1));
  }

  lemma IntToStringSigned(n: int)
    ensures IntToString(n) == SignText(n < 0) + NatToString(if n < 0 then -n else n)
  {
  }

  /** The text of a whole number reads back as that number. */
  lemma IntToStringParses(n: int)
    ensures ParseAmount(IntToString(n)) == Some(n as real)
  {
    var a: nat := if n < 0 then -n else n;
    IntToStringSigned(n);
    NatToStringValue(a);
    DigitsTextParses(n < 0, NatToString(a));
    ValueOfWhole(n < 0, a);
  }

  /** A whole sum is written as its integer and read back exactly. */
  lemma FormatThenParseWhole(x: real)
    requires IsWhole(x)
    ensures ParseAmount(FormatAmount(x)) == Some(x)
  {
    IntToStringParses(x.Floor);
  }

  /** The text of a number of tenths reads back as that number. */
  lemma TenthsTextParses(negative: bool, n: nat)
    ensures ParseAmount(SignText(negative) + NatToString(n / 10) + "," + [DigitChar(n % 10)]) ==
            Some(if negative then -(n as real / 10.0) else n as real / 10.0)
  {
    NatToStringValue(n / 10);
    var d := NatToString(n / 10);
    var e := DigitChar(n % 10);
    DigitsValueSnoc(d, e);
    assert DigitsValue(d + [e]) == n;
    DecimalTextParses(negative, d, e);
    ValueOfTenths(negative, n);
    assert Value(Decimal(negative, DigitsValue(d + [e]), -1)) == if negative then -(n as real / 10.0) else n as real / 10.0;
  }

  lemma FractionText(x: real)
    requires !IsWhole(x)
    ensures FormatAmount(x) == SignText(x < 0.0) + NatToString(Tenths(x) / 10) + "," + [DigitChar(Tenths(x) % 10)]
  {
  }

  lemma FractionDisplayed(x: real)
    requires !IsWhole(x)
    ensures Displayed(x) == if x < 0.0 then -(Tenths(x) as real / 10.0) else Tenths(x) as real / 10.0
  {
  }

  lemma FractionTextParses(x: real)
    ensures ParseAmount(SignText(x < 0.0) + NatToString(Tenths(x) / 10) + "," + [DigitChar(Tenths(x) % 10)]) ==
            Some(if x < 0.0 then -(Tenths(x) as real / 10.0) else Tenths(x) as real / 10.0)
  {
    TenthsTextParses(x < 0.0, Tenths(x));
  }

  /** A fractional sum is written with one decimal and read back as that decimal. */
  lemma FormatThenParseFraction(x: real)
    requires !IsWhole(x)
    ensures ParseAmount(FormatAmount(x)) == Some(Displayed(x))
  {
    FractionTextParses(x);
    FractionText(x);
    FractionDisplayed(x);
  }

  /**
   * Round trip: reading back the amount text written for a sum gives the displayed value,
   * so a sum that is later combined with a further numeric amount loses at most the
   * rounding to one decimal place.
   */
  lemma FormatThenParse(x: real)
    ensures ParseAmount(FormatAmount(x)) == Some(Displayed(x))
  {
    if IsWhole(x) {
      FormatThenParseWhole(x);
    } else {
      FormatThenParseFraction(x);
    }
  }

  /** A qualifier word that is "circa" or "etwa" is removed with the whitespace after it. */
  lemma StripLongQualifier(s: string, w: string, rest: string)
    requires w == "circa" || w == "etwa"
    requires StartsWithIgnoringCase(s, w) && !StartsWithIgnoringCase(s, "ca")
    requires w == "etwa" ==> !StartsWithIgnoringCase(s, "circa")
    requires rest == s[|w|..]
    ensures StripQualifier(s) == TrimStart(rest)
  {
  }

  /**
   * The regular expression removes a qualifier written in any case together with the
   * whitespace run after it, however long. After a bare "ca" with no whitespace, a '.'
   * would belong to the qualifier ("ca.5"), so that case is set aside.
   */
  lemma StripQualifierRemoves(q: string, w: string, t: string)
    requires IsQualifier(q) && AllWhite(w)
    requires |q| == 2 && w == [] ==> t == [] || t[0] != '.'
    ensures StripQualifier(q + w + t) == TrimStart(t)
  {
    assert q + w + t == q + (w + t);
    if |q| == 2 {
      assert w != [] ==> (w + t)[0] == w[0] && IsWhite(w[0]);
      StripCaRemoves(q, w + t);
    } else if |q| == 3 {
      StripCaDotRemoves(q, w + t);
    } else if |q| == 5 {
      StripCircaRemoves(q, w + t);
    } else {
      StripEtwaRemoves(q, w + t);
    }
    TrimStartPrependWhite(w, t);
  }

  /** A bare "ca" not followed by a point is removed. */
  lemma StripCaRemoves(q: string, rest: string)
    requires |q| == 2 && StartsWithIgnoringCase(q, "ca")
    requires rest == [] || rest[0] != '.'
    ensures StripQualifier(q + rest) == TrimStart(rest)
  {
    var s := q + rest;
    PrefixIgnoringCase(q, rest, "ca");
    assert s[2..] == rest;
    assert |s| > 2 ==> s[2] == rest[0];
  }

  /** "ca." is removed with its point. */
  lemma StripCaDotRemoves(q: string, rest: string)
    requires |q| == 3 && StartsWithIgnoringCase(q, "ca") && q[2] == '.'
    ensures StripQualifier(q + rest) == TrimStart(rest)
  {
    var s := q + rest;
    PrefixIgnoringCase(q, rest, "ca");
    assert s[3..] == rest;
    assert s[2] == '.';
  }

  /** "circa" is removed. */
  lemma StripCircaRemoves(q: string, rest: string)
    requires |q| == 5 && StartsWithIgnoringCase(q, "circa")
    ensures StripQualifier(q + rest) == TrimStart(rest)
  {
    var s := q + rest;
    PrefixIgnoringCase(q, rest, "circa");
    assert !StartsWithIgnoringCase(s, "ca") by {
      assert SameLetterIgnoringCase(s[1], 'i');
    }
    assert s[5..] == rest;
    StripLongQualifier(s, "circa", rest);
  }

  /** "etwa" is removed. */
  lemma StripEtwaRemoves(q: string, rest: string)
    requires |q| == 4 && StartsWithIgnoringCase(q, "etwa")
    ensures StripQualifier(q + rest) == TrimStart(rest)
  {
    var s := q + rest;
    PrefixIgnoringCase(q, rest, "etwa");
    assert !StartsWithIgnoringCase(s, "ca") && !StartsWithIgnoringCase(s, "circa") by {
      assert SameLetterIgnoringCase(s[0], 'e');
    }
    assert s[4..] == rest;
    StripLongQualifier(s, "etwa", rest);
  }

  /** A prefix that starts with a word (in any case) makes the whole string start with it. */
  lemma PrefixIgnoringCase(q: string, rest: string, word: string)
    requires StartsWithIgnoringCase(q, word)
    ensures StartsWithIgnoringCase(q + rest, word)
  {
    assert forall i :: 0 <= i < |word| ==> (q + rest)[i] == q[i];
  }

  /**
   * A qualifier in any case, and any whitespace after it, do not change the amount read:
   * "CA.100", "ca. 100" and "Etwa  100" read as "100". Only one qualifier is removed, so
   * the rest must not start with another.
   */
  lemma QualifierIgnored(q: string, w: string, t: string)
    requires IsQualifier(q) && AllWhite(w)
    requires |q| == 2 && w == [] ==> t == [] || t[0] != '.'
    requires !HasQualifier(t)
    ensures ParseAmount(q + w + t) == ParseAmount(t)
  {
    StripQualifierRemoves(q, w, t);
    TrimOfTrimStart(t);
  }

  /** The placeholder carries no number. */
  lemma PlaceholderNotNumeric()
    ensures NumericValue(PLACEHOLDER) == None
  {
    assert !HasDigit(PLACEHOLDER) by {
      assert |PLACEHOLDER| == 1 && !IsDigit(PLACEHOLDER[0]);
    }
    NoDigitNoNumber(PLACEHOLDER);
  }
}
