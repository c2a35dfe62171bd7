/** Python's `decimal.Decimal` as far as the CSV workspace uses it: parsing, the two text
    forms, and arithmetic in the default context (28 digits, round half even). */
module Decimals {
  import opened Text

  const CONTEXT_DIGITS: nat := 28
  const MAX_INPUT_CHARS: nat := 1024
  const MAX_FIXED_DIGITS: nat := 1024

  /** The number (-1)^neg * coeff * 10^exp. */
  datatype Dec = Dec(neg: bool, coeff: nat, exp: int)

  const ZERO := Dec(false, 0, 0)

  // ---------------------------------------------------------------- powers of ten

  function Pow10(n: nat): (r: nat)
    ensures r >= 1
  {
    if n == 0 then 1 else 10 * Pow10(n - 1)
  }

  /** 10^e as an exact real. */
  function Scale(e: int): (r: real)
    ensures r > 0.0
    decreases if e < 0 then -e else e
  {
    if e == 0 then 1.0 else if e > 0 then 10.0 * Scale(e - 1) else Scale(e + 1) / 10.0
  }

  lemma Associate(a: real, b: real, c: real)
    ensures a * (b * c) == (a * b) * c
  {
  }

  lemma {:induction false} ScaleAdd(k: nat, e: int)
    ensures Pow10(k) as real * Scale(e) == Scale(e + k)
  {
    if k == 0 {
    } else {
      ScaleAdd(k - 1, e);
      assert Scale(e + k) == 10.0 * Scale(e + (k - 1));
      Associate(10.0, Pow10(k - 1) as real, Scale(e));
    }
  }

  lemma {:induction false} Pow10Monotone(a: nat, b: nat)
    requires a <= b
    ensures Pow10(a) <= Pow10(b)
  {
    if a == b {
    } else {
      Pow10Monotone(a, b - 1);
    }
  }

  function Signed(d: Dec): int { if d.neg then 0 - d.coeff else d.coeff }

  /** The exact number a Decimal stands for. */
  function Val(d: Dec): real { Signed(d) as real * Scale(d.exp) }

  // ---------------------------------------------------------------- digit strings

  function DigitChar(n: nat): (c: char)
    requires n < 10
    ensures IsDigit(c)
  {
    (n + '0' as int) as char
  }

  function DigitValue(c: char): (n: nat)
    ensures n < 10
  {
    if IsDigit(c) then (c as int) - ('0' as int) else 0
  }

  function Digits(n: nat): (s: string)
    ensures |s| >= 1
  {
    if n < 10 then [DigitChar(n)] else Digits(n / 10) + [DigitChar(n % 10)]
  }

  lemma {:induction false} DigitsAreDigits(n: nat)
    ensures AllDigits(Digits(n))
  {
    if n < 10 {
    } else {
      DigitsAreDigits(n / 10);
    }
  }

  function ParseNat(s: string): nat {
    if s == [] then 0 else 10 * ParseNat(s[..|s| - 1]) + DigitValue(s[|s| - 1])
  }

  lemma ParseSnoc(s: string, c: char)
    ensures ParseNat(s + [c]) == 10 * ParseNat(s) + DigitValue(c)
  {
    assert (s + [c])[..|s|] == s;
  }

  lemma {:induction false} ParseDigits(n: nat)
    ensures ParseNat(Digits(n)) == n
  {
    if n >= 10 {
      ParseDigits(n / 10);
      ParseSnoc(Digits(n / 10), DigitChar(n % 10));
    } else {
      ParseSnoc([], DigitChar(n));
      assert [] + [DigitChar(n)] == [DigitChar(n)];
    }
  }

  lemma {:induction false} DigitsBounds(n: nat)
    ensures n < Pow10(|Digits(n)|)
    ensures n > 0 ==> Pow10(|Digits(n)| - 1) <= n
    ensures n == 0 ==> |Digits(n)| == 1
  {
    if n < 10 {
      assert Pow10(1) == 10 * Pow10(0);
    } else {
      DigitsBounds(n / 10);
    }
  }

  /** The number of digits is at most k exactly when the number is below 10^k. */
  lemma DigitCount(n: nat, k: nat)
    requires k >= 1
    ensures |Digits(n)| <= k <==> n < Pow10(k)
  {
    DigitsBounds(n);
    if |Digits(n)| <= k {
      Pow10Monotone(|Digits(n)|, k);
    } else {
      Pow10Monotone(k, |Digits(n)| - 1);
    }
  }

  lemma {:induction false} ParseZeros(n: nat)
    ensures ParseNat(Repeat('0', n)) == 0
  {
    if n == 0 {
    } else {
      ParseZeros(n - 1);
      ParseSnoc(Repeat('0', n - 1), '0');
    }
  }

  lemma {:induction false} ParseZerosThen(n: nat, s: string)
    ensures ParseNat(Repeat('0', n) + s) == ParseNat(s)
  {
    hide Repeat;
    if s == [] {
      assert Repeat('0', n) + s == Repeat('0', n);
      ParseZeros(n);
    } else {
      hide ParseNat;
      var s', c := s[..|s| - 1], s[|s| - 1];
      ParseZerosThen(n, s');
      ParseSnoc(Repeat('0', n) + s', c);
      ParseSnoc(s', c);
      assert s' + [c] == s;
      assert Repeat('0', n) + s' + [c] == Repeat('0', n) + s;
    }
  }

  lemma DigitsTen(m: nat)
    requires m >= 1
    ensures Digits(10 * m) == Digits(m) + "0"
  {
    assert (10 * m) / 10 == m && (10 * m) % 10 == 0;
  }

  lemma {:induction false} DigitsShift(n: nat, k: nat)
    requires n > 0
    ensures n * Pow10(k) > 0 && Digits(n * Pow10(k)) == Digits(n) + Repeat('0', k)
  {
    if k > 0 {
      DigitsShift(n, k - 1);
      TimesTen(n, Pow10(k - 1));
      DigitsTen(n * Pow10(k - 1));
      assert Repeat('0', k) == Repeat('0', k - 1) + "0";
    } else {
      assert n * 1 == n;
      assert Digits(n) + [] == Digits(n);
    }
  }

  lemma TimesTen(n: nat, p: nat)
    ensures n * (10 * p) == 10 * (n * p)
  {
  }

  // ---------------------------------------------------------------- parsing

  /** Length of the longest prefix of digits. */
  function Span(s: string): (n: nat)
    ensures n <= |s|
  {
    if s != [] && IsDigit(s[0]) then 1 + Span(s[1..]) else 0
  }

  lemma {:induction false} SpanConcat(ds: string, rest: string)
    requires AllDigits(ds)
    requires rest == [] || !IsDigit(rest[0])
    ensures Span(ds + rest) == |ds|
    ensures (ds + rest)[..|ds|] == ds && (ds + rest)[|ds|..] == rest
  {
    if ds == [] {
      assert ds + rest == rest;
    } else {
      assert (ds + rest)[1..] == ds[1..] + rest;
      SpanConcat(ds[1..], rest);
    }
  }

  function ParseSigned(negative: bool, s: string): Option<int> {
    if s != [] && Span(s) == |s| then Some(if negative then 0 - ParseNat(s) else ParseNat(s)) else None
  }

  /** `[-+]?\\d+` */
  function ParseInt(s: string): Option<int> {
    if s != [] && s[0] == '+' then ParseSigned(false, s[1..])
    else if s != [] && s[0] == '-' then ParseSigned(true, s[1..])
    else ParseSigned(false, s)
  }

  /** What may follow the digits: nothing, or an exponent. */
  function ParseExponent(s: string): Option<int> {
    if s == [] then Some(0)
    else if s[0] == 'e' || s[0] == 'E' then ParseInt(s[1..])
    else None
  }

  function Assemble(neg: bool, whole: string, frac: string, e: Option<int>): Option<Dec> {
    if |whole| + |frac| == 0 || e.None? then None
    else Some(Dec(neg, ParseNat(whole + frac), e.value - |frac|))
  }

  function ParseFraction(neg: bool, whole: string, s: string): Option<Dec> {
    if s != [] && s[0] == '.' then
      var n := Span(s[1..]);
      Assemble(neg, whole, s[1..][..n], ParseExponent(s[1..][n..]))
    else
      Assemble(neg, whole, [], ParseExponent(s))
  }

  /** The part after the sign: digits, an optional point with digits, an optional exponent.
      Infinities and NaNs, which the workspace refuses anyway, are not in the grammar. */
  function ParseUnsigned(neg: bool, s: string): Option<Dec> {
    ParseFraction(neg, s[..Span(s)], s[Span(s)..])
  }

  /** `Decimal(text)` for finite numbers written in ASCII. */
  function ParseDec(text: string): Option<Dec> {
    var s := Remove(Strip(text), '_');
    if s != [] && (s[0] == '-' || s[0] == '+') then ParseUnsigned(s[0] == '-', s[1..])
    else ParseUnsigned(false, s)
  }

  function SignText(neg: bool): string { if neg then "-" else "" }

  function ExponentText(e: Option<int>): string {
    match e
    case None => ""
    case Some(n) => if n < 0 then "E-" + Digits(0 - n) else "E+" + Digits(n)
  }

  function FractionText(frac: Option<string>): string {
    match frac
    case None => ""
    case Some(f) => "." + f
  }

  function ExponentValue(e: Option<int>): int { if e.Some? then e.value else 0 }

  function FractionDigits(frac: Option<string>): string { if frac.Some? then frac.value else [] }

  lemma SignedRoundTrip(negative: bool, n: nat)
    ensures ParseSigned(negative, Digits(n)) == Some(if negative then 0 - n else n)
  {
    DigitsAreDigits(n);
    SpanConcat(Digits(n), []);
    assert Digits(n) + [] == Digits(n);
    ParseDigits(n);
  }

  lemma ExponentRoundTrip(e: Option<int>)
    ensures ParseExponent(ExponentText(e)) == Some(ExponentValue(e))
    ensures ExponentText(e) == [] || ExponentText(e)[0] == 'E'
  {
    if e.Some? {
      var n := e.value;
      var s := ExponentText(e);
      if n < 0 {
        SignedRoundTrip(true, 0 - n);
        assert s[1..][1..] == Digits(0 - n);
      } else {
        SignedRoundTrip(false, n);
        assert s[1..][1..] == Digits(n);
      }
    }
  }

  lemma FractionRoundTrip(neg: bool, whole: string, frac: Option<string>, rest: string)
    requires whole != [] && AllDigits(FractionDigits(frac))
    requires rest == [] || rest[0] == 'E'
    ensures ParseFraction(neg, whole, FractionText(frac) + rest)
         == Assemble(neg, whole, FractionDigits(frac), ParseExponent(rest))
  {
    if frac.Some? {
      var s := FractionText(frac) + rest;
      assert s[1..] == frac.value + rest;
      SpanConcat(frac.value, rest);
    } else {
      assert "" + rest == rest;
    }
  }

  lemma UnsignedRoundTrip(neg: bool, whole: string, frac: Option<string>, e: Option<int>)
    requires whole != [] && AllDigits(whole) && AllDigits(FractionDigits(frac))
    ensures ParseUnsigned(neg, whole + (FractionText(frac) + ExponentText(e)))
         == Some(Dec(neg, ParseNat(whole + FractionDigits(frac)),
                     ExponentValue(e) - |FractionDigits(frac)|))
  {
    hide Span, ParseNat, ParseExponent, ExponentText;
    ExponentRoundTrip(e);
    SpanConcat(whole, FractionText(frac) + ExponentText(e));
    FractionRoundTrip(neg, whole, frac, ExponentText(e));
  }

  /** The text of a number given by its parts. */
  function NumberText(neg: bool, whole: string, frac: Option<string>, e: Option<int>): string {
    SignText(neg) + (whole + (FractionText(frac) + ExponentText(e)))
  }

  predicate NumberChar(c: char) {
    IsDigit(c) || c == '.' || c == 'E' || c == '+' || c == '-'
  }

  lemma NumberTextChars(neg: bool, whole: string, frac: Option<string>, e: Option<int>)
    requires whole != [] && AllDigits(whole) && AllDigits(FractionDigits(frac))
    ensures forall c :: c in NumberText(neg, whole, frac, e) ==> NumberChar(c)
    ensures NumberText(neg, whole, frac, e) != []
  {
    if e.Some? {
      DigitsAreDigits(if e.value < 0 then 0 - e.value else e.value);
    }
    assert forall c :: c in ExponentText(e) ==> NumberChar(c);
    assert forall c :: c in FractionText(frac) ==> NumberChar(c);
    assert forall c :: c in whole ==> NumberChar(c);
  }

  lemma NumberCharsStay(s: string)
    requires s != [] && forall c :: c in s ==> NumberChar(c)
    ensures Strip(s) == s && Remove(s, '_') == s
  {
    assert s[0] in s && s[|s| - 1] in s;
    StripFixes(s);
  }

  lemma ParseSignAndBody(neg: bool, body: string)
    requires body != [] && IsDigit(body[0])
    requires forall c :: c in SignText(neg) + body ==> NumberChar(c)
    ensures var s := SignText(neg) + body;
            Strip(s) == s && ParseDec(s) == ParseUnsigned(neg, body)
  {
    hide Strip, Remove, ParseUnsigned;
    var s := SignText(neg) + body;
    NumberCharsStay(s);
    if neg { assert s[1..] == body; } else { assert s == body; }
  }

  /** A number assembled from its parts parses back to exactly those parts. */
  lemma ParseNumberText(neg: bool, whole: string, frac: Option<string>, e: Option<int>)
    requires whole != [] && AllDigits(whole) && AllDigits(FractionDigits(frac))
    ensures var s := NumberText(neg, whole, frac, e);
            Strip(s) == s && s != [] &&
            ParseDec(s) == Some(Dec(neg, ParseNat(whole + FractionDigits(frac)),
                                    ExponentValue(e) - |FractionDigits(frac)|))
  {
    hide ParseNat, ParseUnsigned, ParseDec, Strip, ExponentText, NumberChar;
    NumberTextChars(neg, whole, frac, e);
    UnsignedRoundTrip(neg, whole, frac, e);
    var body := whole + (FractionText(frac) + ExponentText(e));
    assert body[0] == whole[0];
    ParseSignAndBody(neg, body);
  }

  // ---------------------------------------------------------------- text forms

  /** The digits before and after the point in fixed notation. */
  function FixedParts(d: Dec): (string, Option<string>) {
    var ds := Digits(d.coeff);
    if d.exp >= 0 then (if d.coeff == 0 then "0" else ds + Repeat('0', d.exp), None)
    else if |ds| > -d.exp then (ds[..|ds| + d.exp], Some(ds[|ds| + d.exp..]))
    else ("0", Some(Repeat('0', -d.exp - |ds|) + ds))
  }

  /** `format(d, "f")`. */
  function ToFixed(d: Dec): string {
    NumberText(d.neg, FixedParts(d).0, FixedParts(d).1, None)
  }

  /** `str(d)`: plain when the exponent is not positive and the number is not tiny,
      scientific otherwise. */
  function ToSci(d: Dec): string {
    var ds := Digits(d.coeff);
    var left := d.exp + |ds|;
    var plain := d.exp <= 0 && left > -6;
    var dot := if plain then left else 1;
    var e := if plain then None else Some(left - 1);
    if dot <= 0 then NumberText(d.neg, "0", Some(Repeat('0', -dot) + ds), e)
    else if dot >= |ds| then NumberText(d.neg, ds, None, e)
    else NumberText(d.neg, ds[..dot], Some(ds[dot..]), e)
  }

  lemma ParseSplit(neg: bool, ds: string, i: nat, e: Option<int>)
    requires AllDigits(ds) && 0 < i <= |ds|
    ensures var s := NumberText(neg, ds[..i], Some(ds[i..]), e);
            Strip(s) == s && s != [] &&
            ParseDec(s) == Some(Dec(neg, ParseNat(ds), ExponentValue(e) - (|ds| - i)))
  {
    hide ParseNat, ParseDec, NumberText, Strip;
    ParseNumberText(neg, ds[..i], Some(ds[i..]), e);
    assert ds[..i] + ds[i..] == ds;
  }

  lemma LeadingZero(z: nat, ds: string)
    ensures "0" + (Repeat('0', z) + ds) == Repeat('0', z + 1) + ds
    ensures AllDigits(ds) ==> AllDigits(Repeat('0', z) + ds)
  {
    hide Repeat;
    assert "0" + Repeat('0', z) == Repeat('0', z + 1);
    assert "0" + (Repeat('0', z) + ds) == ("0" + Repeat('0', z)) + ds;
  }

  lemma ParseSmall(neg: bool, ds: string, z: nat, e: Option<int>)
    requires AllDigits(ds)
    ensures var s := NumberText(neg, "0", Some(Repeat('0', z) + ds), e);
            Strip(s) == s && s != [] &&
            ParseDec(s) == Some(Dec(neg, ParseNat(ds), ExponentValue(e) - (z + |ds|)))
  {
    hide ParseNat, ParseDec, NumberText, Strip, Repeat;
    var f := Repeat('0', z) + ds;
    LeadingZero(z, ds);
    ParseZerosThen(z + 1, ds);
    ParseNumberText(neg, "0", Some(f), e);
  }

  lemma ParseWhole(neg: bool, ds: string, e: Option<int>)
    requires AllDigits(ds) && ds != []
    ensures var s := NumberText(neg, ds, None, e);
            Strip(s) == s && s != [] && ParseDec(s) == Some(Dec(neg, ParseNat(ds), ExponentValue(e)))
  {
    ParseNumberText(neg, ds, None, e);
    assert ds + [] == ds;
  }

  /** `Decimal(str(d))` is `d`, representation included. */
  lemma ParseSci(d: Dec)
    ensures ParseDec(ToSci(d)) == Some(d)
    ensures Strip(ToSci(d)) == ToSci(d) && ToSci(d) != []
  {
    hide ParseNat, ParseDec, NumberText, Strip, Digits;
    var ds := Digits(d.coeff);
    var left := d.exp + |ds|;
    var plain := d.exp <= 0 && left > -6;
    var dot := if plain then left else 1;
    var e := if plain then None else Some(left - 1);
    DigitsAreDigits(d.coeff);
    ParseDigits(d.coeff);
    if dot <= 0 {
      ParseSmall(d.neg, ds, -dot, e);
    } else if dot >= |ds| {
      ParseWhole(d.neg, ds, e);
    } else {
      ParseSplit(d.neg, ds, dot, e);
    }
  }

  /** `rstrip("0").rstrip(".")` when there is a point. */
  function TrimText(s: string): string {
    if '.' in s then RStripChar(RStripChar(s, '0'), '.') else s
  }

  predicate FitsFixed(d: Dec) {
    var n := |Digits(d.coeff)|;
    var integerDigits := if n + d.exp > 1 then n + d.exp else 1;
    var fractionDigits := if d.exp < 0 then -d.exp else 0;
    n <= MAX_FIXED_DIGITS && integerDigits + fractionDigits <= MAX_FIXED_DIGITS
  }

  /** `_canonical_decimal` on a text. */
  function CanonText(text: string): Option<string> {
    var t := Strip(text);
    if t == [] || |t| > MAX_INPUT_CHARS then None
    else
      match ParseDec(t)
      case None => None
      case Some(d) => if FitsFixed(d) then Some(TrimText(ToFixed(d))) else None
  }

  /** `_canonical_decimal` on a `Decimal`, which goes through `str`. */
  function CanonDec(d: Dec): Option<string> { CanonText(ToSci(d)) }

  // ---------------------------------------------------------------- canonical text is exact

  predicate Normal(d: Dec) { d.exp <= 0 && (d.exp < 0 ==> d.coeff % 10 != 0) }

  /** The representation with no trailing fraction zeros and no positive exponent. */
  function Norm(d: Dec): (r: Dec)
    ensures Normal(r) && r.neg == d.neg
    decreases -d.exp
  {
    if d.exp >= 0 then Dec(d.neg, d.coeff * Pow10(d.exp), 0)
    else if d.coeff % 10 == 0 then Norm(Dec(d.neg, d.coeff / 10, d.exp + 1))
    else d
  }

  lemma SwapTen(c: real, s: real)
    ensures (10.0 * c) * s == c * (10.0 * s)
  {
  }

  lemma ShiftSigned(neg: bool, c: nat, p: nat, e: int, f: int)
    ensures c * p >= 0
    ensures Signed(Dec(neg, c * p, e)) as real == Signed(Dec(neg, c, f)) as real * p as real
  {
    assert (c * p) as real == c as real * p as real;
    assert (0 - c) * p == 0 - c * p;
  }

  lemma WholeValue(d: Dec)
    requires d.exp >= 0
    ensures d.coeff * Pow10(d.exp) >= 0
    ensures Val(Dec(d.neg, d.coeff * Pow10(d.exp), 0)) == Val(d)
  {
    ShiftSigned(d.neg, d.coeff, Pow10(d.exp), 0, d.exp);
    ScaleAdd(d.exp, 0);
    assert Scale(0) == 1.0;
    hide Pow10, Scale, Signed;
  }

  lemma TenthValue(d: Dec)
    requires d.coeff % 10 == 0
    ensures Val(Dec(d.neg, d.coeff / 10, d.exp + 1)) == Val(d)
  {
    var d' := Dec(d.neg, d.coeff / 10, d.exp + 1);
    assert Signed(d) == 10 * Signed(d');
    assert Scale(d.exp + 1) == 10.0 * Scale(d.exp);
    SwapTen(Signed(d') as real, Scale(d.exp));
    hide Scale, Signed;
  }

  lemma {:induction false} NormValue(d: Dec)
    ensures Val(Norm(d)) == Val(d)
    decreases -d.exp
  {
    hide Val;
    if d.exp >= 0 {
      WholeValue(d);
    } else if d.coeff % 10 == 0 {
      TenthValue(d);
      NormValue(Dec(d.neg, d.coeff / 10, d.exp + 1));
    }
  }

  lemma RStripOne(s: string, c: char)
    ensures RStripChar(s + [c], c) == RStripChar(s, c)
  {
    assert (s + [c])[..|s|] == s;
  }

  lemma {:induction false} LastDigit(n: nat)
    ensures Digits(n)[|Digits(n)| - 1] == DigitChar(n % 10)
  {
  }

  lemma PartsShape(d: Dec)
    ensures var (w, f) := FixedParts(d);
            w != [] && AllDigits(w) && AllDigits(FractionDigits(f)) && f.Some? == (d.exp < 0)
            && (f.Some? ==> f.value != [] && f.value[|f.value| - 1] == DigitChar(d.coeff % 10))
  {
    LastDigit(d.coeff);
    DigitsAreDigits(d.coeff);
    hide Digits;
  }

  lemma TextShape(neg: bool, w: string, f: Option<string>)
    requires w != [] && AllDigits(w) && AllDigits(FractionDigits(f))
    requires f.Some? ==> f.value != []
    ensures var s := NumberText(neg, w, f, None);
            s != [] && ('.' in s <==> f.Some?)
            && s[|s| - 1] == (if f.Some? then f.value[|f.value| - 1] else w[|w| - 1])
  {
    assert '.' !in w;
    assert f.Some? ==> NumberText(neg, w, f, None)[|SignText(neg)| + |w|] == '.';
  }

  lemma FixedShape(d: Dec)
    ensures ToFixed(d) != [] && IsDigit(ToFixed(d)[|ToFixed(d)| - 1])
    ensures d.exp >= 0 ==> '.' !in ToFixed(d)
    ensures d.exp < 0 ==> '.' in ToFixed(d) && ToFixed(d)[|ToFixed(d)| - 1] == DigitChar(d.coeff % 10)
  {
    PartsShape(d);
    hide FixedParts, NumberText;
    TextShape(d.neg, FixedParts(d).0, FixedParts(d).1);
  }

  lemma ExtendFraction(neg: bool, w: string, f: string)
    ensures NumberText(neg, w, Some(f + "0"), None) == NumberText(neg, w, Some(f), None) + "0"
  {
  }

  lemma AddFraction(neg: bool, w: string)
    ensures NumberText(neg, w, Some("0"), None) == NumberText(neg, w, None, None) + ".0"
  {
  }

  /** How the parts change when a trailing zero of the coefficient is dropped. */
  lemma PartsStep(d: Dec)
    requires d.exp < 0 && d.coeff % 10 == 0
    ensures var (w, f) := FixedParts(d);
            var (w', f') := FixedParts(Dec(d.neg, d.coeff / 10, d.exp + 1));
            w == w' && (if d.exp == -1 then f == Some("0") && f'.None?
                        else f'.Some? && f == Some(f'.value + "0"))
  {
    if d.coeff >= 10 {
      DigitsTen(d.coeff / 10);
      PartsStepSplit(d, Digits(d.coeff / 10));
    } else {
      assert Digits(0) == "0";
      hide Digits;
      if d.exp == -1 {
        assert Repeat('0', 0) + "0" == "0";
      } else {
        var z := -d.exp - 1;
        assert Repeat('0', z) + "0" == Repeat('0', z - 1) + "0" + "0";
      }
    }
  }

  lemma PartsStepSplit(d: Dec, ds': string)
    requires d.exp < 0 && d.coeff >= 10 && d.coeff % 10 == 0
    requires ds' == Digits(d.coeff / 10) && Digits(d.coeff) == ds' + "0"
    ensures var (w, f) := FixedParts(d);
            var (w', f') := FixedParts(Dec(d.neg, d.coeff / 10, d.exp + 1));
            w == w' && (if d.exp == -1 then f == Some("0") && f'.None?
                        else f'.Some? && f == Some(f'.value + "0"))
  {
    hide Digits, Repeat;
    var ds := ds' + "0";
    if d.exp == -1 {
      assert ds[..|ds| - 1] == ds' && ds[|ds| - 1..] == "0";
      assert ds' + Repeat('0', 0) == ds';
    } else if |ds| > -d.exp {
      assert ds[..|ds| + d.exp] == ds'[..|ds| + d.exp];
      assert ds[|ds| + d.exp..] == ds'[|ds| + d.exp..] + "0";
    } else {
      var r := Repeat('0', -d.exp - |ds|);
      assert r + ds == r + ds' + "0";
    }
  }

  /** Dropping a trailing zero of the coefficient drops one zero of the text, or the
      last zero together with the point. */
  lemma FixedStep(d: Dec)
    requires d.exp < 0 && d.coeff % 10 == 0
    ensures ToFixed(d)
         == ToFixed(Dec(d.neg, d.coeff / 10, d.exp + 1)) + (if d.exp == -1 then ".0" else "0")
  {
    hide FixedParts, NumberText;
    PartsStep(d);
    var (w, f) := FixedParts(Dec(d.neg, d.coeff / 10, d.exp + 1));
    if d.exp == -1 { AddFraction(d.neg, w); } else { ExtendFraction(d.neg, w, f.value); }
  }

  lemma TrimStep(d: Dec)
    requires d.exp < 0 && d.coeff % 10 == 0
    ensures TrimText(ToFixed(d)) == TrimText(ToFixed(Dec(d.neg, d.coeff / 10, d.exp + 1)))
  {
    hide ToFixed, RStripChar;
    var d' := Dec(d.neg, d.coeff / 10, d.exp + 1);
    var s' := ToFixed(d');
    FixedStep(d);
    FixedShape(d);
    FixedShape(d');
    if d.exp == -1 {
      TrimPointZero(s');
      assert ToFixed(d) == (s' + ".") + "0";
    } else {
      RStripOne(s', '0');
    }
  }

  lemma {:induction false} TrimIsNorm(d: Dec)
    ensures TrimText(ToFixed(d)) == ToFixed(Norm(d))
    decreases -d.exp
  {
    hide ToFixed;
    FixedShape(d);
    if d.exp >= 0 {
      WholeFixed(d);
    } else if d.coeff % 10 == 0 {
      hide TrimText;
      TrimStep(d);
      TrimIsNorm(Dec(d.neg, d.coeff / 10, d.exp + 1));
    }
  }

  lemma TrimPointZero(s: string)
    requires s != [] && IsDigit(s[|s| - 1]) && '.' !in s
    ensures TrimText((s + ".") + "0") == TrimText(s)
  {
    var t := s + ".";
    RStripOne(t, '0');
    assert t[|t| - 1] == '.';
    RStripOne(s, '.');
    assert (t + "0")[|s|] == '.';
  }

  lemma WholeFixed(d: Dec)
    requires d.exp >= 0
    ensures ToFixed(d) == ToFixed(Norm(d))
  {
    hide NumberText;
    if d.coeff > 0 {
      DigitsShift(d.coeff, d.exp);
      hide Digits;
      var ds := Digits(d.coeff * Pow10(d.exp));
      assert ds + Repeat('0', 0) == ds;
    }
  }

  /** A Decimal without positive exponent is read back from its fixed text. */
  lemma ParseFixed(d: Dec)
    requires d.exp <= 0
    ensures ParseDec(ToFixed(d)) == Some(d) && Strip(ToFixed(d)) == ToFixed(d) && ToFixed(d) != []
  {
    hide ParseNat, ParseDec, NumberText, Strip;
    var ds := Digits(d.coeff);
    ParseDigits(d.coeff);
    DigitsAreDigits(d.coeff);
    assert d.coeff == 0 ==> ds == "0";
    hide Digits;
    if d.exp == 0 {
      ParseWhole(d.neg, ds, None);
      assert ds + Repeat('0', 0) == ds;
    } else if |ds| > -d.exp {
      ParseSplit(d.neg, ds, |ds| + d.exp, None);
    } else {
      ParseSmall(d.neg, ds, -d.exp - |ds|, None);
    }
  }

  lemma {:induction false} NormFits(d: Dec)
    requires FitsFixed(d)
    ensures FitsFixed(Norm(d))
    decreases -d.exp
  {
    if d.exp >= 0 {
      if d.coeff > 0 { DigitsShift(d.coeff, d.exp); }
    } else if d.coeff % 10 == 0 {
      NormFits(Dec(d.neg, d.coeff / 10, d.exp + 1));
    }
  }

  lemma NormOfNormal(d: Dec)
    requires Normal(d)
    ensures Norm(d) == d
  {
    assert Pow10(0) == 1;
    assert d.coeff * 1 == d.coeff;
  }

  /** The number a text stands for. */
  function TextValue(text: string): real {
    match ParseDec(Strip(text))
    case None => 0.0
    case Some(d) => Val(d)
  }

  /** `_canonical_decimal` keeps the number: its output parses to a Decimal of the same
      value, in normal form. */
  lemma CanonKeepsValue(text: string)
    requires CanonText(text).Some?
    ensures ParseDec(Strip(text)).Some?
    ensures var u := CanonText(text).value;
            Strip(u) == u && ParseDec(u) == Some(Norm(ParseDec(Strip(text)).value))
            && u == ToFixed(Norm(ParseDec(Strip(text)).value))
    ensures TextValue(CanonText(text).value) == TextValue(text)
  {
    var d := ParseDec(Strip(text)).value;
    hide ParseDec, Strip, Norm, ToFixed, TrimText;
    TrimIsNorm(d);
    ParseFixed(Norm(d));
    NormValue(d);
  }

  /** The output is a fixed point exactly when it is short enough to be read back. */
  lemma CanonFixedPoint(text: string)
    requires CanonText(text).Some?
    ensures var u := CanonText(text).value;
            CanonText(u) == Some(u) <==> |u| <= MAX_INPUT_CHARS
  {
    hide ParseDec, Strip, Norm, ToFixed, TrimText, FitsFixed;
    var d := ParseDec(Strip(text)).value;
    CanonKeepsValue(text);
    NormFits(d);
    NormOfNormal(Norm(d));
    TrimIsNorm(Norm(d));
    ParseFixed(Norm(d));
  }

  lemma NormUnique(a: Dec, b: Dec)
    requires Normal(a) && Normal(b)
    requires Val(a) == Val(b) && Signed(a) != 0 && Signed(b) != 0
    ensures a == b
  {
    if a.exp >= b.exp { NormUniqueOrdered(a, b); } else { NormUniqueOrdered(b, a); }
  }

  lemma CancelScale(x: real, p: real, y: real, s: real, t: real)
    requires s > 0.0 && p * s == t && x * t == y * s
    ensures x * p == y
  {
    assert (x * p - y) * s == x * (p * s) - y * s;
  }

  lemma NormUniqueOrdered(a: Dec, b: Dec)
    requires Normal(a) && Normal(b) && a.exp >= b.exp
    requires Val(a) == Val(b) && Signed(a) != 0 && Signed(b) != 0
    ensures a == b
  {
    hide Scale, Pow10, Signed;
    var k := a.exp - b.exp;
    var x, p, y, s := Signed(a) as real, Pow10(k) as real, Signed(b) as real, Scale(b.exp);
    ScaleAdd(k, b.exp);
    CancelScale(x, p, y, s, Scale(a.exp));
    SameShift(a, b, k);
  }

  lemma IntProduct(x: int, p: int, y: int)
    requires x as real * p as real == y as real
    ensures x * p == y
  {
    assert (x * p) as real == x as real * p as real;
  }

  lemma TenTimes(x: int, p: int)
    ensures x * (10 * p) == 10 * (x * p)
  {
  }

  lemma SameShift(a: Dec, b: Dec, k: nat)
    requires Normal(b) && b.exp == a.exp - k && a.exp <= 0
    requires Signed(a) as real * Pow10(k) as real == Signed(b) as real && Signed(a) != 0
    ensures a == b
  {
    IntProduct(Signed(a), Pow10(k), Signed(b));
    if k == 0 {
      assert Signed(a) == Signed(b);
    } else {
      TenTimes(Signed(a), Pow10(k - 1));
      assert false;
    }
  }

  /** Numbers and canonical texts correspond one to one, zero aside. */
  lemma CanonOneText(t1: string, t2: string)
    requires CanonText(t1).Some? && CanonText(t2).Some?
    requires TextValue(t1) != 0.0
    ensures CanonText(t1) == CanonText(t2) <==> TextValue(t1) == TextValue(t2)
  {
    CanonKeepsValue(t1);
    CanonKeepsValue(t2);
    var d1, d2 := ParseDec(Strip(t1)).value, ParseDec(Strip(t2)).value;
    NormValue(d1);
    NormValue(d2);
    if TextValue(t1) == TextValue(t2) {
      NonZero(Norm(d1));
      NonZero(Norm(d2));
      hide ParseDec, Strip, Norm, ToFixed, CanonText, Val;
      NormUnique(Norm(d1), Norm(d2));
    }
  }

  lemma NonZero(d: Dec)
    requires Val(d) != 0.0
    ensures Signed(d) != 0
  {
    var s := Scale(d.exp);
    assert 0.0 * s == 0.0;
  }

  lemma CanonDecKeepsValue(d: Dec)
    requires CanonDec(d).Some?
    ensures ParseDec(CanonDec(d).value) == Some(Norm(d))
    ensures Strip(CanonDec(d).value) == CanonDec(d).value
    ensures CanonDec(d).value == ToFixed(Norm(d))
    ensures TextValue(CanonDec(d).value) == Val(d)
  {
    ParseSci(d);
    CanonKeepsValue(ToSci(d));
    hide ParseDec, Strip, Norm, ToFixed, CanonText, Val, ToSci;
  }

  // ---------------------------------------------------------------- context arithmetic

  /** The quotient of c by p, rounded to the nearest and on a tie to the even one. */
  function HalfEven(c: nat, p: nat): nat
    requires p > 0
  {
    var q, r := c / p, c % p;
    if 2 * r > p || (2 * r == p && q % 2 == 1) then q + 1 else q
  }

  /** Drop the last k digits of the coefficient, rounding half to even. */
  function RoundCoeff(c: nat, k: nat): nat { HalfEven(c, Pow10(k)) }

  function RoundTo(d: Dec, precision: nat): Dec
    requires precision >= 1
  {
    var n := |Digits(d.coeff)|;
    if n <= precision then d
    else
      var k := n - precision;
      var c := RoundCoeff(d.coeff, k);
      if c == Pow10(precision) then Dec(d.neg, Pow10(precision - 1), d.exp + k + 1)
      else Dec(d.neg, c, d.exp + k)
  }

  /** The result of any operation in the default context. */
  function Round28(d: Dec): Dec { RoundTo(d, CONTEXT_DIGITS) }

  function Neg(d: Dec): Dec { Dec(!d.neg && d.coeff != 0, d.coeff, d.exp) }

  /** Unary minus rounds like every other operation. */
  function NegCtx(d: Dec): Dec { Round28(Neg(d)) }

  function Aligned(d: Dec, e: int): int
    requires e <= d.exp
  {
    Signed(d) * Pow10(d.exp - e)
  }

  function AddExact(a: Dec, b: Dec): Dec {
    var e := if a.exp < b.exp then a.exp else b.exp;
    var s := Aligned(a, e) + Aligned(b, e);
    if s < 0 then Dec(true, 0 - s, e)
    else Dec(s == 0 && a.coeff == 0 && b.coeff == 0 && a.neg && b.neg, s, e)
  }

  function AddCtx(a: Dec, b: Dec): Dec { Round28(AddExact(a, b)) }

  /** No significant digit is lost when the number is rounded to 28 digits. */
  predicate FitsContext(d: Dec) {
    var n := |Digits(d.coeff)|;
    n <= CONTEXT_DIGITS || d.coeff % Pow10(n - CONTEXT_DIGITS) == 0
  }

  lemma AlignedValue(d: Dec, e: int)
    requires e <= d.exp
    ensures Aligned(d, e) as real * Scale(e) == Val(d)
  {
    hide Scale, Pow10, Signed;
    var k := d.exp - e;
    ScaleAdd(k, e);
    RealProduct(Signed(d), Pow10(k));
    Associate(Signed(d) as real, Pow10(k) as real, Scale(e));
  }

  lemma RealProduct(x: int, p: int)
    ensures (x * p) as real == x as real * p as real
  {
  }

  lemma Distribute(x: real, y: real, s: real)
    ensures (x + y) * s == x * s + y * s
  {
  }

  lemma AddExactValue(a: Dec, b: Dec)
    ensures Val(AddExact(a, b)) == Val(a) + Val(b)
  {
    hide Scale, Val, Aligned;
    var e := if a.exp < b.exp then a.exp else b.exp;
    AlignedValue(a, e);
    AlignedValue(b, e);
    Distribute(Aligned(a, e) as real, Aligned(b, e) as real, Scale(e));
    var r := AddExact(a, b);
    assert Signed(r) == Aligned(a, e) + Aligned(b, e);
    ValUnfold(r);
  }

  lemma ValUnfold(d: Dec)
    ensures Val(d) == Signed(d) as real * Scale(d.exp)
  {
  }

  lemma HalfEvenNear(c: nat, p: nat)
    requires p > 0
    ensures var m: int := HalfEven(c, p) * p - c;
            0 - p <= 2 * m <= p && (m == 0 <==> c % p == 0)
  {
    DivisionFacts(c, p);
    IntDistribute(c / p, 1, p);
  }

  /** Rounding moves the coefficient by at most half a unit of the last kept digit. */
  lemma RoundCoeffNear(c: nat, k: nat)
    ensures var m: int := RoundCoeff(c, k) * Pow10(k) - c;
            0 - Pow10(k) <= 2 * m <= Pow10(k) && (m == 0 <==> c % Pow10(k) == 0)
  {
    hide Pow10, HalfEven;
    HalfEvenNear(c, Pow10(k));
  }

  lemma DivisionFacts(c: nat, p: nat)
    requires p > 0
    ensures c == (c / p) * p + c % p && 0 <= c % p < p
  {
  }

  /** A shifted coefficient as a multiple of the finer unit. */
  lemma ShiftedValue(neg: bool, c: nat, k: nat, e: int)
    ensures c * Pow10(k) >= 0
    ensures Val(Dec(neg, c, e + k)) == Signed(Dec(neg, c * Pow10(k), e)) as real * Scale(e)
  {
    hide Scale, Pow10, Signed;
    ShiftSigned(neg, c, Pow10(k), e, e + k);
    ScaleAdd(k, e);
    Associate(Signed(Dec(neg, c, e + k)) as real, Pow10(k) as real, Scale(e));
  }

  /** A carry into one more digit renames the number, it does not change it. */
  lemma RoundCarry(d: Dec, precision: nat)
    requires precision >= 1 && |Digits(d.coeff)| > precision
    ensures var k := |Digits(d.coeff)| - precision;
            Val(RoundTo(d, precision)) == Val(Dec(d.neg, RoundCoeff(d.coeff, k), d.exp + k))
  {
    hide RoundCoeff, Digits, Val;
    var k := |Digits(d.coeff)| - precision;
    if RoundCoeff(d.coeff, k) == Pow10(precision) {
      assert Pow10(precision) == 10 * Pow10(precision - 1);
      TenthValue(Dec(d.neg, Pow10(precision), d.exp + k));
    }
  }

  /** Rounding is exact exactly when every dropped digit is zero. */
  lemma RoundToExact(d: Dec, precision: nat)
    requires precision >= 1
    ensures Val(RoundTo(d, precision)) == Val(d)
        <==> (|Digits(d.coeff)| <= precision
              || d.coeff % Pow10(|Digits(d.coeff)| - precision) == 0)
  {
    var n := |Digits(d.coeff)|;
    if n > precision {
      RoundCarry(d, precision);
      RoundedValue(d, n - precision);
      hide Digits, Val, RoundTo;
    }
  }

  lemma RoundedValue(d: Dec, k: nat)
    requires k >= 1
    ensures Val(Dec(d.neg, RoundCoeff(d.coeff, k), d.exp + k)) == Val(d) <==> d.coeff % Pow10(k) == 0
  {
    hide RoundCoeff, Scale, Val, Pow10;
    RoundCoeffNear(d.coeff, k);
    var c := RoundCoeff(d.coeff, k);
    ShiftedValue(d.neg, c, k, d.exp);
    ValUnfold(d);
    SameScaled(Signed(Dec(d.neg, c * Pow10(k), d.exp)) as real, Signed(d) as real, Scale(d.exp));
  }

  lemma RoundExact(d: Dec)
    ensures Val(Round28(d)) == Val(d) <==> FitsContext(d)
  {
    RoundToExact(d, CONTEXT_DIGITS);
    hide RoundTo, Digits, Val, Pow10;
  }

  lemma SameScaled(x: real, y: real, s: real)
    requires s > 0.0
    ensures x * s == y * s <==> x == y
  {
    assert (x - y) * s == x * s - y * s;
  }

  // ---------------------------------------------------------------- sums

  lemma {:induction false} Pow10Add(a: nat, b: nat)
    ensures Pow10(a) * Pow10(b) == Pow10(a + b)
  {
    if a == 0 {
    } else {
      Pow10Add(a - 1, b);
      IntAssociate(10, Pow10(a - 1), Pow10(b));
    }
  }

  lemma IntAssociate(a: int, b: int, c: int)
    ensures a * (b * c) == (a * b) * c
  {
  }

  lemma IntDistribute(x: int, y: int, s: int)
    ensures (x + y) * s == x * s + y * s
  {
  }

  /** The number in units of 10^-f, for numbers with at most f fraction digits. */
  function Units(d: Dec, f: nat): int
    requires d.exp >= 0 - f
  {
    Aligned(d, 0 - f)
  }

  lemma UnitsOfAligned(d: Dec, e: int, f: nat)
    requires 0 - f <= e <= d.exp
    ensures Aligned(d, e) * Pow10(e + f) == Units(d, f)
  {
    hide Pow10, Signed;
    Pow10Add(d.exp - e, e + f);
    IntAssociate(Signed(d), Pow10(d.exp - e), Pow10(e + f));
  }

  lemma AddUnits(a: Dec, b: Dec, f: nat)
    requires a.exp >= 0 - f && b.exp >= 0 - f
    ensures AddExact(a, b).exp >= 0 - f
    ensures Units(AddExact(a, b), f) == Units(a, f) + Units(b, f)
  {
    hide Pow10;
    var e := if a.exp < b.exp then a.exp else b.exp;
    UnitsOfAligned(a, e, f);
    UnitsOfAligned(b, e, f);
    var r := AddExact(a, b);
    assert Signed(r) == Aligned(a, e) + Aligned(b, e);
    hide Aligned, Signed, AddExact;
    IntDistribute(Aligned(a, e), Aligned(b, e), Pow10(e + f));
    AlignedUnfold(r, 0 - f);
  }

  lemma AlignedUnfold(d: Dec, e: int)
    requires e <= d.exp
    ensures Aligned(d, e) == Signed(d) * Pow10(d.exp - e)
  {
  }

  /** Fewer than 10^28 units of 10^-f: the number needs no rounding. */
  predicate Within(units: int) { 0 - Pow10(CONTEXT_DIGITS) < units < Pow10(CONTEXT_DIGITS) }

  lemma RoundIsIdentity(d: Dec, f: nat)
    requires d.exp >= 0 - f && Within(Units(d, f))
    ensures Round28(d) == d
  {
    hide Pow10;
    AlignedUnfold(d, 0 - f);
    Grows(d.coeff, Pow10(d.exp + f));
    MirrorProduct(d.coeff, Pow10(d.exp + f));
    DigitCount(d.coeff, CONTEXT_DIGITS);
    hide Digits;
  }

  lemma Grows(c: nat, p: nat)
    requires p >= 1
    ensures c * p >= c
  {
  }

  lemma MirrorProduct(c: nat, p: nat)
    ensures (0 - c) * p == 0 - c * p
  {
  }

  /** `sum(...)`, and `+=` from `Decimal("0")`: every step rounds. */
  function SumCtx(ds: seq<Dec>): Dec {
    if ds == [] then ZERO else AddCtx(SumCtx(ds[..|ds| - 1]), ds[|ds| - 1])
  }

  predicate FractionWithin(ds: seq<Dec>, f: nat) { forall d :: d in ds ==> d.exp >= 0 - f }

  function TotalUnits(ds: seq<Dec>, f: nat): int
    requires FractionWithin(ds, f)
  {
    if ds == [] then 0 else TotalUnits(ds[..|ds| - 1], f) + Units(ds[|ds| - 1], f)
  }

  /** Every running total stays below 10^(28 - f). */
  predicate TotalsWithin(ds: seq<Dec>, f: nat)
    requires FractionWithin(ds, f)
  {
    ds != [] ==> Within(TotalUnits(ds, f)) && TotalsWithin(ds[..|ds| - 1], f)
  }

  /** A sum whose running totals stay small is exact: no step rounds. */
  lemma {:induction false} SumExact(ds: seq<Dec>, f: nat)
    requires FractionWithin(ds, f) && TotalsWithin(ds, f)
    ensures SumCtx(ds).exp >= 0 - f && Units(SumCtx(ds), f) == TotalUnits(ds, f)
  {
    if ds == [] {
    } else {
      var init, last := ds[..|ds| - 1], ds[|ds| - 1];
      SumExact(init, f);
      hide Units, Within, AddExact, Round28;
      AddUnits(SumCtx(init), last, f);
      RoundIsIdentity(AddExact(SumCtx(init), last), f);
    }
  }

  lemma OneAfterZeros(k: nat)
    ensures |Digits(10 * Pow10(k) + 1)| == k + 2
  {
    DigitsShift(1, k);
    var p := Pow10(k);
    assert (10 * p + 1) / 10 == p && (10 * p + 1) % 10 == 1;
    hide Repeat, Pow10;
    assert 1 * p == p;
  }

  lemma PowOne()
    ensures Pow10(1) == 10
  {
  }

  lemma OneAfterZerosRounds(k: nat)
    ensures var d := Dec(true, 10 * Pow10(k) + 1, 0); Val(RoundTo(d, k + 1)) != Val(d)
  {
    hide Val, RoundTo, Digits, Pow10;
    OneAfterZeros(k);
    RoundToExact(Dec(true, 10 * Pow10(k) + 1, 0), k + 1);
    PowOne();
    var p := Pow10(k);
    assert (10 * p + 1) % 10 == 1;
  }

  /** The 29-digit amount 10^28 + 1 loses its last digit when it is negated. */
  lemma LongAmountRounds()
    ensures var d := Dec(false, 10 * Pow10(27) + 1, 0);
            |Digits(d.coeff)| == 29 && Val(NegCtx(d)) != -Val(d)
  {
    hide Val, RoundTo, Digits, Pow10;
    var d := Dec(false, 10 * Pow10(27) + 1, 0);
    OneAfterZeros(27);
    OneAfterZerosRounds(27);
    NegValue(d);
  }

  lemma NegValue(d: Dec)
    ensures Val(Neg(d)) == -Val(d)
  {
    hide Scale;
    var x, s := Signed(d) as real, Scale(d.exp);
    assert (0.0 - x) * s == -(x * s);
  }

  /** Unary minus is exact exactly when the number fits the context. */
  lemma NegCtxExact(d: Dec)
    ensures Val(NegCtx(d)) == -Val(d) <==> FitsContext(d)
  {
    NegValue(d);
    RoundExact(Neg(d));
    hide Val, Round28, Digits;
  }

  /** A short input whose canonical text is too long to be accepted as input again. */
  lemma CanonTooLongForItself()
    ensures CanonText("-1E-1022").Some?
    ensures CanonText(CanonText("-1E-1022").value) == None
  {
    hide ParseDec, Strip, ToFixed, TrimText, Digits;
    var t := "-1E-1022";
    var d := Dec(true, 1, -1022);
    TinyParses();
    TinyLength();
    TrimIsNorm(d);
    NormOfNormal(d);
    CanonFixedPoint(t);
    CanonKeepsValue(t);
  }

  lemma TinyText()
    ensures NumberText(true, "1", None, Some(-1022)) == "-1E-1022"
  {
    assert Digits(1022) == "1022";
  }

  lemma TinyParses()
    ensures Strip("-1E-1022") == "-1E-1022" && ParseDec("-1E-1022") == Some(Dec(true, 1, -1022))
  {
    hide ParseDec, Strip, Digits, ParseNat, NumberText;
    TinyText();
    ParseSnoc([], '1');
    ParseZeros(0);
    assert [] + ['1'] == "1";
    ParseWhole(true, "1", Some(-1022));
  }

  lemma TinyLength()
    ensures |ToFixed(Dec(true, 1, -1022))| == 1025 && |Digits(1)| == 1
  {
    assert Digits(1) == "1";
    hide Repeat, Digits;
    assert |Repeat('0', 1021) + "1"| == 1022;
  }
}
