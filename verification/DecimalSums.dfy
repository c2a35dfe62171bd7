/** Running sums in the 28-digit context: when they are exact, and when the total is too long to
    be written down. */
module DecimalSums {
  import opened Text
  import opened Decimals

  // ---------------------------------------------------------------- exact totals

  function ExactSum(ds: seq<Dec>): real {
    if ds == [] then 0.0 else ExactSum(ds[..|ds| - 1]) + Val(ds[|ds| - 1])
  }

  lemma ExactSnoc(ds: seq<Dec>, d: Dec)
    ensures ExactSum(ds + [d]) == ExactSum(ds) + Val(d)
  {
    hide Val;
    assert (ds + [d])[..|ds|] == ds;
  }

  lemma {:induction false} TotalIsExact(ds: seq<Dec>, f: nat)
    requires FractionWithin(ds, f)
    ensures TotalUnits(ds, f) as real * Scale(0 - f) == ExactSum(ds)
  {
    hide Scale, Val, Aligned;
    if ds == [] {
    } else {
      var init, last := ds[..|ds| - 1], ds[|ds| - 1];
      TotalIsExact(init, f);
      AlignedValue(last, 0 - f);
      Distribute(TotalUnits(init, f) as real, Units(last, f) as real, Scale(0 - f));
    }
  }

  /** While the running totals stay below 10^(28 - f) the rounded sum is the exact one. */
  lemma SumIsExact(ds: seq<Dec>, f: nat)
    requires FractionWithin(ds, f) && TotalsWithin(ds, f)
    ensures Val(SumCtx(ds)) == ExactSum(ds)
  {
    hide SumCtx, TotalUnits, TotalsWithin, FractionWithin, ExactSum, Scale, Val, Aligned;
    SumExact(ds, f);
    TotalIsExact(ds, f);
    AlignedValue(SumCtx(ds), 0 - f);
  }

  // ---------------------------------------------------------------- totals that fit

  lemma RoundedDigits(d: Dec, precision: nat)
    requires precision >= 1
    ensures |Digits(RoundTo(d, precision).coeff)| <= precision
  {
    hide Digits, HalfEven, Pow10;
    var n := |Digits(d.coeff)|;
    if n > precision {
      DigitCount(d.coeff, n);
      RoundCoeffBound(d.coeff, n - precision, precision);
      DigitCount(RoundCoeff(d.coeff, n - precision), precision);
      TenMore(precision - 1);
      DigitCount(Pow10(precision - 1), precision);
    }
  }

  lemma TenMore(k: nat)
    ensures Pow10(k) < Pow10(k + 1) == 10 * Pow10(k)
  {
  }

  /** A rounded coefficient has the digits it was rounded to, or is the next power of ten. */
  lemma RoundCoeffBound(c: nat, k: nat, p: nat)
    requires c < Pow10(k + p)
    ensures RoundCoeff(c, k) <= Pow10(p)
  {
    hide Pow10, RoundCoeff;
    RoundCoeffNear(c, k);
    Pow10Add(k, p);
    NextMultiple(RoundCoeff(c, k), Pow10(p), Pow10(k), c);
  }

  lemma NextMultiple(q: nat, m: nat, p: nat, c: nat)
    requires p > 0 && c < p * m && 2 * (q * p - c) <= p
    ensures q <= m
  {
    if q > m {
      IntDistribute(q - m - 1, m + 1, p);
      IntDistribute(m, 1, p);
      NotNegative(q - m - 1, p);
      Commute(m, p);
    }
  }

  lemma NotNegative(x: nat, p: nat)
    ensures x * p >= 0
  {
  }

  lemma Commute(x: int, y: int)
    ensures x * y == y * x
  {
  }

  lemma SumDigits(ds: seq<Dec>)
    ensures |Digits(SumCtx(ds).coeff)| <= CONTEXT_DIGITS
  {
    if ds == [] {
    } else {
      RoundedDigits(AddExact(SumCtx(ds[..|ds| - 1]), ds[|ds| - 1]), CONTEXT_DIGITS);
    }
  }

  /** `_canonical_decimal` on a `Decimal` refuses it for its length only. */
  lemma CanonDecFits(d: Dec)
    ensures CanonDec(d).Some? <==> |ToSci(d)| <= MAX_INPUT_CHARS && FitsFixed(d)
  {
    hide ToSci, ParseDec, Strip, FitsFixed, ToFixed, TrimText;
    ParseSci(d);
  }

  lemma ExponentDigits(e: int)
    requires -2000 <= e <= 2000
    ensures |ExponentText(Some(e))| <= 7
  {
    var n: nat := if e < 0 then -e else e;
    assert Pow10(4) == 10000 by { FourZeros(); }
    DigitCount(n, 4);
    hide Digits, Pow10;
  }

  lemma FourZeros()
    ensures Pow10(4) == 10000
  {
    assert Pow10(1) == 10 && Pow10(2) == 100 && Pow10(3) == 1000;
  }

  /** A number of 28 digits that fits is written in few characters. */
  lemma SciIsShort(d: Dec)
    requires |Digits(d.coeff)| <= CONTEXT_DIGITS && FitsFixed(d)
    ensures |ToSci(d)| <= MAX_INPUT_CHARS
  {
    var left := d.exp + |Digits(d.coeff)|;
    assert -2000 <= left - 1 <= 2000;
    hide Digits;
    ExponentDigits(left - 1);
    hide ExponentText;
  }

  /** A total is too long to be reported exactly when it does not fit in fixed notation. */
  lemma TotalFits(ds: seq<Dec>)
    ensures CanonDec(SumCtx(ds)).Some? <==> FitsFixed(SumCtx(ds))
  {
    hide SumCtx, CanonDec, FitsFixed, ToSci, Digits;
    SumDigits(ds);
    CanonDecFits(SumCtx(ds));
    if FitsFixed(SumCtx(ds)) { SciIsShort(SumCtx(ds)); }
  }

  // ---------------------------------------------------------------- two amounts whose sum is too long

  /** Nine followed by k zeros. */
  function Nine(k: nat): Dec { Dec(false, 9 * Pow10(k), 0) }

  lemma HalfEvenExact(a: nat, p: nat)
    requires p > 0
    ensures a * p >= 0 && HalfEven(a * p, p) == a
  {
    hide HalfEven;
    NotNegative(a, p);
    HalfEvenNear(a * p, p);
    var h := HalfEven(a * p, p);
    IntDistribute(h - a, a, p);
    SmallMultiple(h - a, p);
  }

  lemma SmallMultiple(x: int, p: nat)
    requires p > 0 && 0 - p <= 2 * (x * p) <= p
    ensures x == 0
  {
    if x >= 1 {
      NotNegative(x - 1, p);
      IntDistribute(x - 1, 1, p);
    } else if x <= -1 {
      NotNegative(0 - x - 1, p);
      IntDistribute(x, 1, p);
      IntDistribute(x + 1, 0 - x - 1, p);
    }
  }

  /** Trailing zeros beyond 28 digits move into the exponent. */
  lemma RoundShifted(a: nat, k: nat, neg: bool, e: int)
    requires a > 0 && k >= 1 && |Digits(a)| == CONTEXT_DIGITS
    ensures a * Pow10(k) >= 0 && Round28(Dec(neg, a * Pow10(k), e)) == Dec(neg, a, e + k)
  {
    hide Digits, HalfEven, Pow10, Repeat;
    DigitsShift(a, k);
    HalfEvenExact(a, Pow10(k));
    DigitCount(a, CONTEXT_DIGITS);
  }

  lemma ShortDigits()
    ensures |Digits(9)| == 1 && |Digits(18)| == 2
  {
    assert Digits(18) == Digits(1) + [DigitChar(8)];
  }

  /** n * 10^k as a 28-digit coefficient and a power of ten. */
  lemma SplitZeros(n: nat, j: nat, k: nat)
    requires j <= k && n > 0
    ensures n * Pow10(j) > 0 && (n * Pow10(j)) * Pow10(k - j) == n * Pow10(k)
    ensures |Digits(n * Pow10(j))| == |Digits(n)| + j
  {
    hide Digits, Pow10;
    DigitsShift(n, j);
    Pow10Add(j, k - j);
    IntAssociate(n, Pow10(j), Pow10(k - j));
  }

  lemma AddWhole(a: Dec, b: Dec, x: nat, y: nat)
    requires a.exp >= 0 && b.exp >= 0 && (a.exp == 0 || b.exp == 0)
    requires Aligned(a, 0) == x && Aligned(b, 0) == y && x + y > 0
    ensures AddExact(a, b) == Dec(false, x + y, 0)
  {
    hide Aligned;
  }

  lemma WholeAligned(n: nat)
    ensures Aligned(Dec(false, n, 0), 0) == n
  {
    PowZero();
    hide Pow10;
  }

  lemma NothingPlus(k: nat)
    ensures AddExact(ZERO, Nine(k)) == Nine(k)
  {
    hide Pow10, Aligned, AddExact;
    SplitZeros(9, 0, k);
    PowZero();
    WholeAligned(0);
    WholeAligned(9 * Pow10(k));
    NotNegative(9, Pow10(k));
    NinePositive(k);
    AddWhole(ZERO, Nine(k), 0, 9 * Pow10(k));
  }

  lemma NinePositive(k: nat)
    ensures 9 * Pow10(k) > 0
  {
    hide Digits;
    DigitsShift(9, k);
  }

  lemma PowZero()
    ensures Pow10(0) == 1
  {
  }

  lemma NinePlusNine(j: nat, k: nat)
    requires j <= k
    ensures 9 * Pow10(j) >= 0 && AddExact(Dec(false, 9 * Pow10(j), k - j), Nine(k)) == Dec(false, 18 * Pow10(k), 0)
  {
    hide Pow10, Digits, Aligned, AddExact;
    SplitZeros(9, j, k);
    NinePositive(k);
    var a := Dec(false, 9 * Pow10(j), k - j);
    AlignedUnfold(a, 0);
    WholeAligned(9 * Pow10(k));
    AddWhole(a, Nine(k), 9 * Pow10(k), 9 * Pow10(k));
  }

  /** The running sum of nine and nine, each followed by k zeros. */
  lemma TwoNines(k: nat)
    requires k > 27
    ensures 18 * Pow10(26) >= 0 && SumCtx([Nine(k), Nine(k)]) == Dec(false, 18 * Pow10(26), k - 26)
    ensures |Digits(18 * Pow10(26))| == CONTEXT_DIGITS
  {
    hide Pow10, Digits, AddExact, Round28, SumCtx;
    ShortDigits();
    SplitZeros(9, 27, k);
    SplitZeros(18, 26, k);
    NothingPlus(k);
    RoundShifted(9 * Pow10(27), k - 27, false, 0);
    NinePlusNine(27, k);
    RoundShifted(18 * Pow10(26), k - 26, false, 0);
    SumOfTwo(Nine(k), Nine(k));
  }

  lemma SumSnoc(ds: seq<Dec>, d: Dec)
    ensures SumCtx(ds + [d]) == AddCtx(SumCtx(ds), d)
  {
    hide AddCtx;
    assert (ds + [d])[..|ds|] == ds;
  }

  lemma SumOfTwo(a: Dec, b: Dec)
    ensures SumCtx([a, b]) == AddCtx(AddCtx(ZERO, a), b)
  {
    hide AddCtx;
    assert [a, b] == [a] + [b] && [a] == [] + [a];
    SumSnoc([], a);
    SumSnoc([a], b);
  }

  /** Their sum is too long to be reported. */
  lemma TwoNinesAreTooLong()
    ensures CanonDec(SumCtx([Nine(1023), Nine(1023)])) == None
  {
    hide Pow10, Digits, SumCtx, CanonDec;
    TwoNines(1023);
    TotalFits([Nine(1023), Nine(1023)]);
  }

  /** Each of them is accepted as an amount. */
  lemma NineIsAccepted()
    ensures CanonText("9E+1023") == Some(ToFixed(Nine(1023)))
    ensures CanonDec(Nine(1023)) == Some(ToFixed(Nine(1023)))
    ensures Strip(ToFixed(Nine(1023))) == ToFixed(Nine(1023)) && ParseDec(ToFixed(Nine(1023))) == Some(Nine(1023))
  {
    hide ParseDec, Strip, ToFixed, TrimText, Digits, ToSci, CanonDec, Pow10;
    NineParses();
    ShortDigits();
    CanonKeepsValue("9E+1023");
    NineIsShort(1023);
    CanonDecFits(Nine(1023));
    CanonDecKeepsValue(Nine(1023));
    assert Norm(Nine(1023)) == Nine(1023) by { hide Norm; NormOfNormal(Nine(1023)); }
    assert Norm(Dec(false, 9, 1023)) == Nine(1023);
  }

  lemma NineParses()
    ensures Strip("9E+1023") == "9E+1023" && ParseDec("9E+1023") == Some(Dec(false, 9, 1023))
  {
    hide ParseDec, Strip, Digits, ParseNat, NumberText;
    NineText();
    ParseSnoc([], '9');
    ParseZeros(0);
    assert [] + ['9'] == "9";
    ParseWhole(false, "9", Some(1023));
  }

  lemma NineText()
    ensures NumberText(false, "9", None, Some(1023)) == "9E+1023"
  {
    assert Digits(1023) == "1023";
  }

  lemma NineIsShort(k: nat)
    requires k < MAX_INPUT_CHARS
    ensures |ToSci(Nine(k))| == k + 1 && FitsFixed(Nine(k))
  {
    ShortDigits();
    SplitZeros(9, k, k);
    hide Digits, Pow10;
  }
}
