/**
 * The string <-> number conversions the monitor relies on: `String(n)` for a
 * non-negative integer, `padStart(2, '0')`, `x.toFixed(2)`, `parseInt(s, 10)` and
 * `parseFloat(s)`, each with the round trip that makes it useful.
 */
module JsText {
  import opened JsValues

  predicate IsDigit(c: char) {
    '0' <= c <= '9'
  }

  predicate AllDigits(s: string) {
    forall i :: 0 <= i < |s| ==> IsDigit(s[i])
  }

  /** The white space `parseInt` and `parseFloat` skip (the ASCII part: tab, line feed, vertical tab, form feed, carriage return, space). */
  predicate IsSpace(c: char) {
    c == ' ' || c == '\t' || c == '\n' || c == '\U{B}' || c == '\U{C}' || c == '\r'
  }

  function DigitChar(d: nat): (c: char)
    requires d < 10
    ensures IsDigit(c)
  {
    ('0' as int + d) as char
  }

  function DigitValue(c: char): (d: nat)
    requires IsDigit(c)
    ensures d < 10
  {
    c as int - '0' as int
  }

  /** The value of a run of decimal digits, most significant first. */
  function DigitsValue(s: string): nat
    requires AllDigits(s)
  {
    if s == [] then 0 else DigitsValue(s[..|s| - 1]) * 10 + DigitValue(s[|s| - 1])
  }

  /** `String(n)` for a non-negative integer. */
  function NatText(n: nat): (s: string)
    ensures |s| >= 1 && AllDigits(s)
  {
    if n < 10 then [DigitChar(n)] else NatText(n / 10) + [DigitChar(n % 10)]
  }

  /** `String(n).padStart(2, '0')` */
  function PadStart2(n: nat): (s: string)
    ensures |s| >= 2 && AllDigits(s)
  {
    if n < 10 then ['0'] + NatText(n) else NatText(n)
  }

  /** `x.toFixed(2)` for a non-negative x whose rounded value is `units` hundredths. */
  function FixedText2(units: nat): string {
    NatText(units / 100) + "." + PadStart2(units % 100)
  }

  /** `parts.join(sep)` */
  function Join(parts: seq<string>, sep: string): string {
    if parts == [] then "" else if |parts| == 1 then parts[0] else parts[0] + sep + Join(parts[1..], sep)
  }

  /** `s.indexOf(c)`, with |s| standing for "not found". */
  function IndexOf(s: string, c: char): (k: nat)
    ensures k <= |s|
    ensures forall i :: 0 <= i < k ==> s[i] != c
    ensures k < |s| ==> s[k] == c
  {
    if s == [] then 0 else if s[0] == c then 0 else 1 + IndexOf(s[1..], c)
  }

  /** Length of the longest prefix of s made of decimal digits. */
  function DigitRun(s: string): (k: nat)
    ensures k <= |s| && AllDigits(s[..k])
    ensures k < |s| ==> !IsDigit(s[k])
  {
    if s != [] && IsDigit(s[0]) then
      var k := 1 + DigitRun(s[1..]);
      assert s[..k] == [s[0]] + s[1..][..k - 1];
      k
    else 0
  }

  function TrimStart(s: string): (t: string)
    ensures t == [] || !IsSpace(t[0])
  {
    if s != [] && IsSpace(s[0]) then TrimStart(s[1..]) else s
  }

  /** An integer cast to a real is whole. */
  lemma WholeCast(n: int)
    ensures (n as real).Floor as real == n as real
  {
  }

  /** The text after an optional leading sign. */
  function Unsigned(t: string): string {
    if t != [] && (t[0] == '-' || t[0] == '+') then t[1..] else t
  }

  function ApplySign(t: string, magnitude: real): real {
    if t != [] && t[0] == '-' then -magnitude else magnitude
  }

  /**
   * `parseInt(s, 10)`: leading white space, an optional sign, then the longest
   * run of decimal digits; NaN when that run is empty. Trailing text is ignored.
   */
  function ParseIntText(s: string): (r: Number)
    ensures r.Real? ==> r.r.Floor as real == r.r
  {
    var t := TrimStart(s);
    var body := Unsigned(t);
    var k := DigitRun(body);
    if k == 0 then NaN
    else
      var v: int := DigitsValue(body[..k]);
      var n := if t != [] && t[0] == '-' then -v else v;
      WholeCast(n);
      Real(n as real)
  }

  /**
   * `parseFloat(s)` without exponents and without "Infinity": leading white space,
   * an optional sign, digits, optionally a point and more digits; NaN when there
   * is no digit on either side of the point. Trailing text is ignored.
   */
  function ParseFloatText(s: string): (r: Number)
    ensures TrimStart(s) != [] && IsDigit(TrimStart(s)[0]) ==> r.Real?
  {
    var t := TrimStart(s);
    match UnsignedDecimal(Unsigned(t))
    case NaN => NaN
    case Real(m) => Real(ApplySign(t, m))
  }

  /** The unsigned part of `parseFloat`: digits, optionally a point and more digits. */
  function UnsignedDecimal(body: string): Number {
    var k := DigitRun(body);
    var after := if k < |body| && body[k] == '.' then body[k + 1..] else "";
    var f := DigitRun(after);
    if k == 0 && f == 0 then NaN
    else Real(DigitsValue(body[..k]) as real + FractionValue(after[..f]))
  }

  /** The value of the digits after a decimal point: "25" is 0.25. */
  function FractionValue(s: string): real
    requires AllDigits(s)
  {
    if s == [] then 0.0 else (DigitValue(s[0]) as real + FractionValue(s[1..])) / 10.0
  }

  /** `parseInt(v, 10)` on the JSON values a request body can hold. */
  function ParseIntValue(v: Value): (r: Number)
    ensures r.Real? ==> r.r.Floor as real == r.r
    ensures v.Str? ==> r == ParseIntText(v.s)
    ensures !v.Str? && !v.Num? ==> r.NaN?
  {
    match v
    case Num(Real(x)) =>
      var n := if x >= 0.0 then x.Floor else -((-x).Floor);
      WholeCast(n);
      Real(n as real)
    case Str(s) => ParseIntText(s)
    case _ => NaN
  }

  // ---------------------------------------------------------------- round trips

  lemma {:induction false} NatTextValue(n: nat)
    ensures DigitsValue(NatText(n)) == n
  {
    if n >= 10 {
      var s := NatText(n);
      NatTextValue(n / 10);
      assert s[..|s| - 1] == NatText(n / 10);
    }
  }

  lemma PadStart2Value(n: nat)
    requires n < 100
    ensures |PadStart2(n)| == 2 && DigitsValue(PadStart2(n)) == n
  {
    NatTextValue(n);
    if n < 10 {
      var s := PadStart2(n);
      assert s[..1] == "0";
    } else {
      assert NatText(n) == NatText(n / 10) + [DigitChar(n % 10)];
    }
  }

  /** A digit run stops exactly where the digits stop. */
  lemma {:induction false} DigitRunOfDigits(a: string, b: string)
    requires AllDigits(a)
    requires b == [] || !IsDigit(b[0])
    ensures DigitRun(a + b) == |a|
  {
    if a != [] {
      assert (a + b)[1..] == a[1..] + b;
      DigitRunOfDigits(a[1..], b);
    }
  }

  /** `parseInt(String(n) + rest, 10) === n` whenever rest does not continue the digits. */
  lemma ParseIntOfNatText(n: nat, rest: string)
    requires rest == [] || !IsDigit(rest[0])
    ensures ParseIntText(NatText(n) + rest) == Real(n as real)
  {
    var s := NatText(n) + rest;
    assert TrimStart(s) == s;
    assert Unsigned(s) == s;
    DigitRunOfDigits(NatText(n), rest);
    assert s[..|NatText(n)|] == NatText(n);
    NatTextValue(n);
  }

  /** `parseFloat("<digits>.<digits>")` reads both parts. */
  lemma ParseFloatOfDecimal(a: string, p: string)
    requires |a| >= 1 && AllDigits(a) && AllDigits(p)
    ensures ParseFloatText(a + "." + p) == Real(DigitsValue(a) as real + FractionValue(p))
  {
    var s := a + ("." + p);
    assert s == a + "." + p;
    assert IsDigit(s[0]);
    assert TrimStart(s) == s && Unsigned(s) == s;
    UnsignedDecimalOfDecimal(a, p, s);
  }

  lemma UnsignedDecimalOfDecimal(a: string, p: string, s: string)
    requires |a| >= 1 && AllDigits(a) && AllDigits(p) && s == a + ("." + p)
    ensures UnsignedDecimal(s) == Real(DigitsValue(a) as real + FractionValue(p))
  {
    DigitRunOfDigits(a, "." + p);
    var k := DigitRun(s);
    assert k == |a|;
    assert s[k] == '.';
    var after := s[k + 1..];
    assert after == p;
    DigitRunOfDigits(p, []);
    assert p + [] == p;
    var f := DigitRun(after);
    assert f == |p|;
    assert k != 0;
    assert UnsignedDecimal(s) == Real(DigitsValue(s[..k]) as real + FractionValue(after[..f]));
    assert s[..k] == a;
    assert after[..f] == p;
  }

  /** Two padded digits after a point are worth n hundredths. */
  lemma PadStart2Fraction(n: nat)
    requires n < 100
    ensures FractionValue(PadStart2(n)) == n as real / 100.0
  {
    PadStart2Value(n);
    var p := PadStart2(n);
    assert p[1..][1..] == [];
    assert FractionValue(p[1..]) == DigitValue(p[1]) as real / 10.0;
    TwoDigitsValue(p);
  }

  /** A two-digit text is worth ten times its first digit plus its second. */
  lemma TwoDigitsValue(t: string)
    requires |t| == 2 && AllDigits(t)
    ensures DigitsValue(t) == DigitValue(t[0]) * 10 + DigitValue(t[1])
  {
    assert t[..1] == [t[0]] && t[..1][..0] == [];
    assert DigitsValue(t[..1]) == DigitValue(t[0]);
    assert t[..|t| - 1] == t[..1];
  }

  /** `String(n)` of a two-digit number is its two digits. */
  lemma NatTextTwoDigits(a: nat, b: nat)
    requires 1 <= a < 10 && b < 10
    ensures NatText(a * 10 + b) == [DigitChar(a), DigitChar(b)]
  {
    var n := a * 10 + b;
    assert n / 10 == a && n % 10 == b;
  }

  /** `parseFloat(x.toFixed(2))` gives back the rounded value exactly. */
  lemma ParseFloatOfFixedText2(units: nat)
    ensures ParseFloatText(FixedText2(units)) == Real(units as real / 100.0)
  {
    var whole := units / 100;
    var cents := units % 100;
    ParseFloatOfDecimal(NatText(whole), PadStart2(cents));
    NatTextValue(whole);
    PadStart2Fraction(cents);
    assert units == whole * 100 + cents;
    assert units as real / 100.0 == whole as real + cents as real / 100.0;
  }
}
