/** The currency type: a whole part and sixteen decimal digits, added with a
    carry cut out of a decimal text, subtracted with a borrow, multiplied on
    digit strings, printed to eight decimals and parsed back. */
module Currency {
  import opened Amounts
  import opened DecimalText
  import opened Outcome
  import NumberTheory

  const PRECISION: nat := 16
  const DEC_NO_LIMIT: nat := 9999999999999999
  const LIMIT_PRECISION: nat := 8

  datatype C = C(whole: nat, dec: nat)

  predicate Valid(c: C)
  {
    c.whole <= WHOLE_LIMIT && c.dec <= DEC_NO_LIMIT
  }

  function Units(c: C): Amount
  {
    c.whole * SCALE + c.dec
  }

  lemma UnitsInRange(c: C)
    requires c.dec <= DEC_NO_LIMIT
    ensures Units(c) / SCALE == c.whole && Units(c) % SCALE == c.dec
    ensures InRange(Units(c)) <==> c.whole <= WHOLE_LIMIT
  {
  }

  /** The limits `number` imposes on every operand and result. */
  function Number(whole: nat, dec: nat): Result<C>
  {
    if whole > WHOLE_LIMIT || dec > DEC_NO_LIMIT then Raised else Ok(C(whole, dec))
  }

  /** The checks at the end of `math`; cutting an over-long fraction is a type
      error in the source, so it raises. */
  function Finished(whole: int, dec: int): Result<C>
  {
    if whole > WHOLE_LIMIT || whole < 0 then Raised
    else if dec < 0 || |Str(dec)| > PRECISION then Raised
    else Number(whole, dec)
  }

  lemma FractionLength(dec: nat)
    ensures |Str(dec)| > PRECISION <==> dec > DEC_NO_LIMIT
  {
    StrLength(dec, PRECISION);
    PowPrecision();
  }

  lemma PowPrecision()
    ensures Pow10(PRECISION) == SCALE && Pow10(LIMIT_PRECISION) == SATOSHI
  {
    Pow10Add(8, 8);
    assert Pow10(4) == 10000;
    Pow10Add(4, 4);
  }

  // ----- addition, subtraction, comparison --------------------------------------

  /** The carry out of a sum of fractions, and the fraction left, cut from its text. */
  function Carried(sum: nat): (nat, nat)
  {
    if sum > DEC_NO_LIMIT then
      FractionLength(sum);
      var text := Str(sum);
      var cut := |text| - PRECISION;
      (Int(text[..cut]), Int(text[cut..]))
    else
      (0, sum)
  }

  function Add(a: C, b: C): Result<C>
  {
    var (carry, dec) := Carried(a.dec + b.dec);
    Finished(a.whole + b.whole + carry, dec)
  }

  function Subtract(a: C, b: C): Result<C>
  {
    var dec := a.dec - b.dec;
    if dec < 0 then
      var borrowed := Int("1" + Zeros(PRECISION)) + dec;
      Finished(a.whole - b.whole - 1, if borrowed < 0 then -borrowed else borrowed)
    else
      Finished(a.whole - b.whole, dec)
  }

  lemma FinishedIs(whole: int, dec: nat)
    requires dec <= DEC_NO_LIMIT
    ensures Finished(whole, dec) == if 0 <= whole <= WHOLE_LIMIT then Ok(C(whole, dec)) else Raised
  {
    FractionLength(dec);
  }

  lemma CarriedIs(sum: nat)
    ensures Carried(sum) == (sum / SCALE, sum % SCALE)
  {
    if sum > DEC_NO_LIMIT {
      FractionLength(sum);
      PowPrecision();
      IntSplit(Str(sum), |Str(sum)| - PRECISION);
      StrRoundTrip(sum);
    }
  }

  /** Addition is exact and raises exactly when the sum is out of range. */
  lemma AddRefines(a: C, b: C)
    requires Valid(a) && Valid(b)
    ensures Add(a, b).Ok? <==> InRange(Units(a) + Units(b))
    ensures Add(a, b).Ok? ==> Valid(Add(a, b).value) && Units(Add(a, b).value) == Units(a) + Units(b)
  {
    SumIs(a, b);
    UnitsInRange(Sum(a, b));
  }

  /** The sum with its carry, not yet in range. */
  function Sum(a: C, b: C): (c: C)
    ensures Units(c) == Units(a) + Units(b)
  {
    C(a.whole + b.whole + (a.dec + b.dec) / SCALE, (a.dec + b.dec) % SCALE)
  }

  lemma SumIs(a: C, b: C)
    ensures Add(a, b) == if Sum(a, b).whole <= WHOLE_LIMIT then Ok(Sum(a, b)) else Raised
  {
    CarriedIs(a.dec + b.dec);
    FinishedIs(Sum(a, b).whole, Sum(a, b).dec);
  }

  lemma BorrowedTen()
    ensures Int("1" + Zeros(PRECISION)) == SCALE
  {
    PowPrecision();
    IntZerosRight("1", PRECISION);
    assert Int("1") == 1;
  }

  /** Subtraction is exact and raises exactly when the result would be negative. */
  lemma SubtractRefines(a: C, b: C)
    requires Valid(a) && Valid(b)
    ensures Subtract(a, b).Ok? <==> Units(a) >= Units(b)
    ensures Subtract(a, b).Ok? ==>
              Valid(Subtract(a, b).value) && Units(Subtract(a, b).value) == Units(a) - Units(b)
  {
    BorrowedTen();
    if a.dec < b.dec {
      FinishedIs(a.whole - b.whole - 1, SCALE + a.dec - b.dec);
    } else {
      FinishedIs(a.whole - b.whole, a.dec - b.dec);
    }
  }

  lemma AddThenSubtract(a: C, b: C)
    requires Valid(a) && Valid(b) && InRange(Units(a) + Units(b))
    ensures Add(a, b).Ok? && Subtract(Add(a, b).value, b) == Ok(a)
  {
    AddRefines(a, b);
    SubtractRefines(Add(a, b).value, b);
    UnitsInRange(Subtract(Add(a, b).value, b).value);
    UnitsInRange(a);
  }

  /** The branch that would cut an over-long fraction is never taken: not by a
      sum, with or without a carry, */
  lemma NoSumIsCut(a: C, b: C)
    ensures |Str(Carried(a.dec + b.dec).1)| <= PRECISION
  {
    CarriedIs(a.dec + b.dec);
    FractionLength((a.dec + b.dec) % SCALE);
  }

  /** nor by a difference, with or without a borrow. */
  lemma NoDifferenceIsCut(a: C, b: C)
    requires Valid(a) && Valid(b)
    ensures |Str(if a.dec < b.dec then SCALE + a.dec - b.dec else a.dec - b.dec)| <= PRECISION
  {
    FractionLength(if a.dec < b.dec then SCALE + a.dec - b.dec else a.dec - b.dec);
  }

  predicate Less(a: C, b: C)
  {
    if a.whole < b.whole then true
    else if a.whole == b.whole then a.dec < b.dec else false
  }

  predicate Greater(a: C, b: C)
  {
    if a.whole > b.whole then true
    else if a.whole == b.whole then a.dec > b.dec else false
  }

  predicate Equal(a: C, b: C)
  {
    if a.whole == b.whole then a.dec == b.dec else false
  }

  predicate NotEqual(a: C, b: C)
  {
    !Equal(a, b)
  }

  predicate GreaterOrEqual(a: C, b: C)
  {
    Greater(a, b) || Equal(a, b)
  }

  predicate LessOrEqual(a: C, b: C)
  {
    Less(a, b) || Equal(a, b)
  }

  /** The six comparisons are those of the numbers. */
  lemma ComparisonsRefine(a: C, b: C)
    requires Valid(a) && Valid(b)
    ensures Less(a, b) <==> Units(a) < Units(b)
    ensures Greater(a, b) <==> Units(a) > Units(b)
    ensures Equal(a, b) <==> Units(a) == Units(b)
    ensures NotEqual(a, b) <==> Units(a) != Units(b)
    ensures LessOrEqual(a, b) <==> Units(a) <= Units(b)
    ensures GreaterOrEqual(a, b) <==> Units(a) >= Units(b)
  {
    UnitsInRange(a);
    UnitsInRange(b);
  }

  // ----- text --------------------------------------------------------------------

  method PadDecWithZeros(dec: string, left: bool, precision: nat) returns (padded: string)
    ensures var missing := if |dec| < precision then precision - |dec| else 0;
            padded == if left then Zeros(missing) + dec else dec + Zeros(missing)
  {
    padded := dec;
    if |dec| < precision {
      for i := |dec| to precision
        invariant padded == if left then Zeros(i - |dec|) + dec else dec + Zeros(i - |dec|)
      {
        if left {
          padded := "0" + padded;
        } else {
          padded := padded + "0";
        }
      }
    }
  }

  method NoToStr(c: C) returns (text: string)
    ensures text == Str(c.whole) + "." + Padded(c.dec, PRECISION)
  {
    var dec := PadDecWithZeros(Str(c.dec), true, PRECISION);
    text := Str(c.whole) + "." + dec;
  }

  /** Where the first point is; the length when there is none. */
  function Point(s: string): (p: nat)
    ensures p <= |s|
    ensures forall i :: 0 <= i < p ==> s[i] != '.'
    ensures p < |s| ==> s[p] == '.'
  {
    if s == "" || s[0] == '.' then 0 else 1 + Point(s[1..])
  }

  lemma PointOf(whole: string, dec: string)
    requires AllDigits(whole) && AllDigits(dec)
    ensures Point(whole + "." + dec) == |whole|
  {
    var s := whole + "." + dec;
    assert forall i :: 0 <= i < |whole| ==> s[i] == whole[i];
    assert s[|whole|] == '.';
  }

  lemma TrimBehindPoint(whole: string, dec: string)
    requires AllDigits(whole) && AllDigits(dec) && Int(dec) != 0
    ensures TrimZeros(whole + "." + dec) == whole + "." + TrimZeros(dec)
    decreases |dec|
  {
    var s := whole + "." + dec;
    if dec[|dec| - 1] == '0' {
      var shorter := dec[..|dec| - 1];
      assert s[..|s| - 1] == whole + "." + shorter;
      TrimBehindPoint(whole, shorter);
    }
  }

  method TruncateInsignificant(s: string, ghost whole: string, ghost dec: string)
      returns (cut: string)
    requires AllDigits(whole) && AllDigits(dec) && dec != "" && s == whole + "." + dec
    ensures cut == if Int(dec) == 0 then whole else whole + "." + TrimZeros(dec)
  {
    PointOf(whole, dec);
    var p := Point(s);
    assert s[p + 1..] == dec && s[..p] == whole;
    if Int(s[p + 1..]) == 0 { return s[..p]; }
    var zeros := 0;
    assert s[..|s|] == s;
    while zeros < |s| && s[|s| - 1 - zeros] == '0'
      invariant zeros <= |s|
      invariant TrimZeros(s) == TrimZeros(s[..|s| - zeros])
    {
      assert s[..|s| - zeros][..|s| - zeros - 1] == s[..|s| - zeros - 1];
      zeros := zeros + 1;
    }
    cut := s[..|s| - zeros];
    TrimBehindPoint(whole, dec);
  }

  // ----- multiplication ------------------------------------------------------------

  /** Splits at the point and joins the parts. */
  method JoinParts(text: string, ghost whole: string, ghost dec: string)
      returns (digits: string, places: nat)
    requires AllDigits(whole) && AllDigits(dec)
    requires text == whole + "." + dec || (dec == "" && text == whole)
    ensures digits == whole + dec && places == |dec|
  {
    if text == whole {
      NoPoint(whole);
    } else {
      PointOf(whole, dec);
    }
    var p := Point(text);
    if p == |text| {
      digits, places := text, 0;
    } else {
      digits, places := text[..p] + text[p + 1..], |text| - p - 1;
    }
  }

  lemma PaddedFraction(c: C)
    requires Valid(c)
    ensures var dec := Padded(c.dec, PRECISION);
            var kept := if c.dec == 0 then "" else TrimZeros(dec);
            |dec| == PRECISION && Int(dec) == c.dec && AllDigits(kept) && |kept| <= PRECISION &&
            c.dec == Int(kept) * Pow10(PRECISION - |kept|)
  {
    PowPrecision();
    PaddedValue(c.dec, PRECISION);
    TrimZerosValue(Padded(c.dec, PRECISION));
  }

  /** The fraction digits multiplication works on. */
  ghost function Kept(c: C): (kept: string)
    ensures AllDigits(kept)
  {
    if c.dec == 0 then "" else KeptDigits(Padded(c.dec, PRECISION))
  }

  ghost function KeptDigits(dec: string): (kept: string)
    requires AllDigits(dec)
    ensures AllDigits(kept) && kept == TrimZeros(dec)
  {
    TrimZerosValue(dec);
    TrimZeros(dec)
  }

  lemma JoinedValue(c: C)
    requires Valid(c)
    ensures AllDigits(Str(c.whole) + Kept(c)) && |Kept(c)| <= PRECISION
    ensures Int(Str(c.whole) + Kept(c)) * Pow10(PRECISION - |Kept(c)|) == Units(c)
  {
    PaddedFraction(c);
    StrRoundTrip(c.whole);
    JoinedDigits(c, Str(c.whole), Kept(c));
  }

  lemma JoinedDigits(c: C, whole: string, kept: string)
    requires AllDigits(whole) && AllDigits(kept) && |kept| <= PRECISION
    requires Int(whole) == c.whole && c.dec == Int(kept) * Pow10(PRECISION - |kept|)
    ensures AllDigits(whole + kept) && Int(whole + kept) * Pow10(PRECISION - |kept|) == Units(c)
  {
    IntConcat(whole, kept);
    OperandValue(c, Int(kept), |kept|);
  }

  /** The digits of a number without its point and without zeros at the end of
      the fraction, and how many of them are decimals. */
  method Operand(c: C) returns (digits: string, places: nat)
    requires Valid(c)
    ensures places <= PRECISION && AllDigits(digits)
    ensures Int(digits) * Pow10(PRECISION - places) == Units(c)
  {
    var text := NoToStr(c);
    PaddedFraction(c);
    text := TruncateInsignificant(text, Str(c.whole), Padded(c.dec, PRECISION));
    digits, places := JoinParts(text, Str(c.whole), Kept(c));
    JoinedValue(c);
  }

  lemma NoPoint(s: string)
    requires AllDigits(s)
    ensures Point(s) == |s|
  {
  }

  lemma OperandValue(c: C, kept: nat, places: nat)
    requires places <= PRECISION && c.dec == kept * Pow10(PRECISION - places)
    ensures (c.whole * Pow10(places) + kept) * Pow10(PRECISION - places) == Units(c)
  {
    Pow10Add(places, PRECISION - places);
    PowPrecision();
    PaddedTotal(c.whole * Pow10(places) + kept, c.whole, Pow10(places), kept, Pow10(PRECISION - places));
  }

  /** A fraction of so many digits, padded or cut to a precision. */
  function AtPrecision(fraction: int, places: nat, precision: nat): int
  {
    if places <= precision then fraction * Pow10(precision - places)
    else fraction / Pow10(places - precision)
  }

  lemma PaddedProduct(total: nat, places: nat, precision: nat, scale: nat, q: nat, r: nat)
    requires places <= precision && scale == Pow10(precision)
    requires total == q * Pow10(places) + r && r < Pow10(places)
    ensures 0 <= r * Pow10(precision - places) < scale
    ensures q * scale + r * Pow10(precision - places) == total * Pow10(2 * precision - places) / scale
  {
    Pow10Add(places, precision - places);
    Pow10Add(precision, precision - places);
    PaddedArithmetic(total, Pow10(places), Pow10(precision - places), scale, q, r);
  }

  lemma CutProduct(total: nat, places: nat, precision: nat, scale: nat, q: nat, r: nat)
    requires precision < places <= 2 * precision && scale == Pow10(precision)
    requires total == q * Pow10(places) + r && r < Pow10(places)
    ensures 0 <= r / Pow10(places - precision) < scale
    ensures q * scale + r / Pow10(places - precision) == total * Pow10(2 * precision - places) / scale
  {
    Pow10Add(places - precision, precision);
    Pow10Add(places - precision, 2 * precision - places);
    CutArithmetic(total, Pow10(places), Pow10(places - precision), Pow10(2 * precision - places), scale, q, r);
  }

  lemma PaddedArithmetic(total: nat, m: nat, k: nat, scale: nat, q: nat, r: nat)
    requires k > 0 && 0 < scale == m * k && total == q * m + r && r < m
    ensures 0 <= r * k < scale
    ensures q * scale + r * k == total * (scale * k) / scale
  {
    RemainderFits(m, k, r);
    PaddedTotal(total, q, m, r, k);
    ScaledBack(total, scale, k);
  }

  lemma RemainderFits(m: nat, k: nat, r: nat)
    requires k > 0 && r < m
    ensures 0 <= r * k < m * k
  {
    NumberTheory.Distribute(k, m, r);
    NumberTheory.MultipleSize(m - r, k);
  }

  lemma ScaledBack(total: nat, scale: nat, k: nat)
    requires scale > 0
    ensures total * (scale * k) / scale == total * k
  {
    NumberTheory.Associate(total, scale, k);
    assert 0 <= total * k;
    FactorCancels(total * k, scale);
  }

  lemma FactorCancels(n: nat, d: nat)
    requires d > 0
    ensures d * n / d == n
  {
    QuotientRemainder(d * n, n, d, 0);
  }

  lemma PaddedTotal(total: nat, q: nat, m: nat, r: nat, k: nat)
    requires total == q * m + r
    ensures q * (m * k) + r * k == total * k
  {
    NumberTheory.Distribute(k, q * m, r);
    NumberTheory.Associate(q, m, k);
  }

  lemma QuotientBelow(r: nat, k: nat, scale: nat)
    requires k > 0 && r < k * scale
    ensures 0 <= r / k < scale
  {
    var e := r / k;
    assert r == e * k + r % k;
    NumberTheory.Distribute(k, e, scale);
    NumberTheory.MultipleSize(e - scale, k);
  }

  lemma CutTotal(total: nat, q: nat, k: nat, scale: nat, r: nat)
    requires k > 0 && total == q * (k * scale) + r
    ensures q * scale + r / k == total / k
  {
    var e, f := r / k, r % k;
    assert r == e * k + f;
    NumberTheory.Associate(q, k, scale);
    NumberTheory.Associate(k, q, scale);
    NumberTheory.Distribute(k, q * scale, e);
    assert q * scale >= 0 && e >= 0;
    QuotientRemainder(total, q * scale + e, k, f);
  }

  lemma ScaledDivision(total: nat, k: nat, w: nat, q: nat, r: nat)
    requires w > 0 && total == q * k + r && r < k
    ensures total * w == q * (k * w) + r * w && 0 <= r * w < k * w
  {
    PaddedTotal(total, q, k, r, w);
    NumberTheory.Distribute(w, k, r);
    NumberTheory.MultipleSize(k - r, w);
  }

  /** Multiplying numerator and denominator by w changes no quotient. */
  lemma ScaleDown(total: nat, k: nat, w: nat, scale: nat, q: nat, r: nat)
    requires w > 0 && scale == k * w && total == q * k + r && r < k
    ensures 0 < scale && total * w / scale == q
  {
    ScaledDivision(total, k, w, q, r);
    assert 0 <= total * w;
    QuotientRemainder(total * w, q, scale, r * w);
  }

  lemma CutArithmetic(total: nat, m: nat, k: nat, w: nat, scale: nat, q: nat, r: nat)
    requires k > 0 && w > 0 && m == k * scale && scale == k * w && total == q * m + r && r < m
    ensures 0 < scale && 0 <= r / k < scale
    ensures q * scale + r / k == total * w / scale
  {
    QuotientBelow(r, k, scale);
    CutTotal(total, q, k, scale, r);
    assert total == (total / k) * k + total % k;
    ScaleDown(total, k, w, scale, total / k, total % k);
  }

  lemma ProductOfOperands(x: nat, i: nat, y: nat, j: nat)
    requires i <= PRECISION && j <= PRECISION
    ensures (x * Pow10(PRECISION - i)) * (y * Pow10(PRECISION - j))
            == (x * y) * Pow10(2 * PRECISION - (i + j))
  {
    var p, q := Pow10(PRECISION - i), Pow10(PRECISION - j);
    Pow10Add(PRECISION - i, PRECISION - j);
    NumberTheory.Associate(x * p, y, q);
    NumberTheory.Associate(x, p, y);
    NumberTheory.Associate(x, y, p);
    NumberTheory.Associate(x * y, p, q);
  }

  method PadProduct(total: string, places: nat) returns (padded: string)
    requires |total| <= places
    ensures padded == Zeros(places - |total|) + total
  {
    padded := total;
    for n := 0 to places - |total|
      invariant padded == Zeros(n) + total
    {
      padded := "0" + padded;
    }
  }

  lemma SplitProduct(total: string, places: nat, whole: string, dec: string)
    requires AllDigits(total) && places < |total|
    requires whole == total[..|total| - places] && dec == total[|total| - places..]
    ensures AllDigits(whole) && AllDigits(dec)
    ensures Int(total) == Int(whole) * Pow10(places) + Int(dec) && Int(dec) < Pow10(places)
  {
    assert whole + dec == total;
    IntConcat(whole, dec);
    IntBound(dec);
  }

  lemma ShortProduct(total: string, places: nat, padded: string)
    requires AllDigits(total) && |total| <= places && padded == Zeros(places - |total|) + total
    ensures AllDigits(padded) && Int(padded) == Int(total) < Pow10(places)
    ensures Int("0") * Pow10(places) == 0
  {
    IntZerosLeft(total, places - |total|);
    IntBound(padded);
    assert Int("0") == 0;
  }

  /** Re-inserts the point `places` digits from the end of the product. */
  method PlacePoint(product: nat, places: nat) returns (whole: string, dec: string)
    ensures AllDigits(whole) && AllDigits(dec)
    ensures product == Int(whole) * Pow10(places) + Int(dec) && Int(dec) < Pow10(places)
    ensures |dec| == if places == 0 then 1 else places
  {
    var total := Str(product);
    StrRoundTrip(product);
    if places != 0 {
      if |total| <= places {
        var padded := PadProduct(total, places);
        ShortProduct(total, places, padded);
        total := "0." + padded;
        whole, dec := total[..|total| - places - 1], total[|total| - places..];
        assert whole == "0" && dec == padded;
      } else {
        whole, dec := total[..|total| - places], total[|total| - places..];
        SplitProduct(total, places, whole, dec);
      }
    } else {
      whole, dec := total, "0";
    }
  }

  method SixteenDecimals(dec: string) returns (fixed: string)
    requires AllDigits(dec)
    ensures AllDigits(fixed) && Int(fixed) == AtPrecision(Int(dec), |dec|, PRECISION)
  {
    if |dec| > PRECISION {
      IntSplit(dec, PRECISION);
      fixed := dec[..PRECISION];
    } else {
      fixed := PadDecWithZeros(dec, false, PRECISION);
      IntZerosRight(dec, PRECISION - |dec|);
    }
  }

  /** Multiplication on digit strings is multiplication truncated to sixteen
      decimals; it raises exactly when the whole part is over the limit. */
  method Multiply(a: C, b: C) returns (r: Result<C>)
    requires Valid(a) && Valid(b)
    ensures r.Ok? <==> InRange(Times(Units(a), Units(b)))
    ensures r.Ok? ==> Valid(r.value) && Units(r.value) == Times(Units(a), Units(b))
  {
    var x, i := Operand(a);
    var y, j := Operand(b);
    var product := Int(x) * Int(y);
    ProductOfOperands(Int(x), i, Int(y), j);
    var whole, dec := PlacePoint(product, i + j);
    var fixed := SixteenDecimals(dec);
    PowPrecision();
    FixedProduct(product, i + j, Int(whole), Int(dec), |dec|, PRECISION, SCALE);
    r := Finished(Int(whole), Int(fixed));
    FinishedIs(Int(whole), Int(fixed));
    UnitsInRange(C(Int(whole), Int(fixed)));
  }

  lemma FixedProduct(product: nat, places: nat, q: nat, r: nat, length: nat, precision: nat, scale: nat)
    requires product == q * Pow10(places) + r && r < Pow10(places)
    requires 1 <= precision && places <= 2 * precision && scale == Pow10(precision)
    requires length == if places == 0 then 1 else places
    ensures 0 <= AtPrecision(r, length, precision) < scale
    ensures q * scale + AtPrecision(r, length, precision) == product * Pow10(2 * precision - places) / scale
  {
    if places <= precision {
      PaddedProduct(product, places, precision, scale, q, r);
      if places == 0 { assert r == 0; }
    } else {
      CutProduct(product, places, precision, scale, q, r);
    }
  }

  // ----- printing and parsing --------------------------------------------------------

  /** as_str: all digits, cut after the eighth decimal. */
  function AsStr(c: C): string
    requires c.dec <= DEC_NO_LIMIT
  {
    PaddedLength(c.dec);
    Str(c.whole) + "." + Padded(c.dec, PRECISION)[..LIMIT_PRECISION]
  }

  lemma PaddedLength(dec: nat)
    requires dec <= DEC_NO_LIMIT
    ensures |Padded(dec, PRECISION)| == PRECISION
  {
    PowPrecision();
    PaddedValue(dec, PRECISION);
  }

  /** str(c): zeros at the end removed, but always with a point. */
  method ToStr(c: C) returns (text: string)
    requires Valid(c)
    ensures text == Text(c)
  {
    var full := AsStr(c);
    PaddedLength(c.dec);
    ghost var decimals := Padded(c.dec, PRECISION)[..LIMIT_PRECISION];
    text := TruncateInsignificant(full, Str(c.whole), decimals);
    if |text| != |full| {
      if Point(text) == |text| {
        text := text + ".00";
      }
    }
    if Int(decimals) == 0 {
      NoPoint(Str(c.whole));
    } else {
      PointOf(Str(c.whole), TrimZeros(decimals));
    }
  }

  function Text(c: C): string
    requires c.dec <= DEC_NO_LIMIT
  {
    PaddedLength(c.dec);
    var decimals := Padded(c.dec, PRECISION)[..LIMIT_PRECISION];
    Str(c.whole) + "." + if Int(decimals) == 0 then "00" else TrimZeros(decimals)
  }

  lemma {:induction false} TrimZerosEnds(s: string)
    ensures TrimZeros(s) != "" ==> TrimZeros(s)[|TrimZeros(s)| - 1] != '0'
    decreases |s|
  {
    if s != "" && s[|s| - 1] == '0' { TrimZerosEnds(s[..|s| - 1]); }
  }

  /** Printed text has a whole part, a point and up to eight decimals, of which the
      last is no zero unless they are the two zeros of a whole number. */
  lemma TextIsShort(c: C)
    requires Valid(c)
    ensures var (text, whole) := (Text(c), Str(c.whole));
            |whole| + 1 < |text| <= |whole| + 1 + LIMIT_PRECISION && text[..|whole| + 1] == whole + "." &&
            var decimals := text[|whole| + 1..];
            AllDigits(decimals) && (decimals == "00" || decimals[|decimals| - 1] != '0')
  {
    PaddedLength(c.dec);
    var decimals := Padded(c.dec, PRECISION)[..LIMIT_PRECISION];
    var kept := if Int(decimals) == 0 then "00" else TrimZeros(decimals);
    TrimZerosEnds(decimals);
    TrimZerosValue(decimals);
    Cut(Str(c.whole) + ".", kept);
  }

  /** How many characters at the start satisfy a test. */
  function Span(s: string, test: char -> bool): (n: nat)
    ensures n <= |s|
    ensures forall i :: 0 <= i < n ==> test(s[i])
    ensures n < |s| ==> !test(s[n])
  {
    if s == "" || !test(s[0]) then 0 else 1 + Span(s[1..], test)
  }

  function DigitSpan(s: string): (n: nat)
    ensures n <= |s| && AllDigits(s[..n])
    ensures n < |s| ==> !IsDigit(s[n])
  {
    if s == "" || !IsDigit(s[0]) then 0
    else
      assert s == [s[0]] + s[1..];
      1 + DigitSpan(s[1..])
  }

  predicate IsSpace(c: char)
  {
    c in {' ', '\t', '\n', '\r', '\U{0B}', '\U{0C}', '\U{1C}', '\U{1D}', '\U{1E}', '\U{1F}'}
  }

  predicate IsLetter(c: char)
  {
    'a' <= c <= 'z' || 'A' <= c <= 'Z'
  }

  /** What may follow the number: nothing, or spaces and a currency code; then
      the end of the text or of its line. */
  predicate IsSuffix(s: string)
  {
    var spaces := Span(s, IsSpace);
    var letters := Span(s[spaces..], IsLetter);
    s in {"", "\n"} || (letters > 0 && s[spaces + letters..] in {"", "\n"})
  }

  predicate All(s: string, test: char -> bool)
  {
    forall i :: 0 <= i < |s| ==> test(s[i])
  }

  /** Spaces if there is a code, the code if any, the end of the line if any. */
  predicate SuffixParts(s: string, spaces: string, code: string, end: string)
  {
    s == spaces + (code + end) && All(spaces, IsSpace) && All(code, IsLetter) && (code == "" ==> spaces == "") &&
    (end == "" || end == "\n")
  }

  lemma {:induction false} SpanOf(a: string, rest: string, test: char -> bool)
    requires All(a, test) && (rest == "" || !test(rest[0]))
    ensures Span(a + rest, test) == |a|
    decreases |a|
  {
    if a == "" {
      assert a + rest == rest;
    } else {
      assert (a + rest)[1..] == a[1..] + rest;
      SpanOf(a[1..], rest, test);
    }
  }

  lemma SuffixIff(s: string)
    ensures IsSuffix(s) <==> exists spaces, code, end :: SuffixParts(s, spaces, code, end)
  {
    if IsSuffix(s) { SuffixHasParts(s); }
    forall spaces, code, end | SuffixParts(s, spaces, code, end) ensures IsSuffix(s) {
      PartsAreSuffix(s, spaces, code, end);
    }
  }

  lemma SuffixHasParts(s: string)
    requires IsSuffix(s)
    ensures exists spaces, code, end :: SuffixParts(s, spaces, code, end)
  {
    if s == "" || s == "\n" {
      assert SuffixParts(s, "", "", s);
    } else {
      var spaces := Span(s, IsSpace);
      var rest := s[spaces..];
      var letters := Span(rest, IsLetter);
      assert rest == rest[..letters] + rest[letters..] && s == s[..spaces] + rest;
      assert s[spaces + letters..] == rest[letters..];
      assert SuffixParts(s, s[..spaces], rest[..letters], rest[letters..]);
    }
  }

  lemma PartsAreSuffix(s: string, spaces: string, code: string, end: string)
    requires SuffixParts(s, spaces, code, end)
    ensures IsSuffix(s)
  {
    if code == "" {
      assert s == end;
    } else {
      assert IsLetter(code[0]);
      SpanOf(spaces, code + end, IsSpace);
      Cut(spaces, code + end);
      SpanOf(code, end, IsLetter);
      assert s[|spaces| + |code|..] == end;
    }
  }

  /** `number` on a text: digits, perhaps a point and more digits, a suffix. */
  function Parse(s: string): Result<C>
  {
    var n := DigitSpan(s);
    if n == 0 then Raised else ParseRest(Int(s[..n]), s[n..])
  }

  function ParseRest(whole: nat, rest: string): Result<C>
  {
    var tail := if rest != "" && rest[0] == '.' then rest[1..] else "";
    var n := DigitSpan(tail);
    if n > 0 then
      if IsSuffix(tail[n..]) then Number(whole, DecimalPart(tail[..n])) else Raised
    else
      if IsSuffix(rest) then Number(whole, 0) else Raised
  }

  /** int(pad_dec_with_zeros(text, "right")) */
  function DecimalPart(text: string): nat
    requires AllDigits(text)
  {
    Int(text + Zeros(if |text| < PRECISION then PRECISION - |text| else 0))
  }

  lemma {:induction false} SpanDigits(a: string, b: string)
    requires AllDigits(a) && (b == "" || !IsDigit(b[0]))
    ensures DigitSpan(a + b) == |a|
  {
    if a == "" {
      assert a + b == b;
    } else {
      assert (a + b)[1..] == a[1..] + b;
      SpanDigits(a[1..], b);
    }
  }

  /** A number as text: its digits, a point and a fraction if there is one, and
      what follows. */
  function NumberText(whole: string, dec: string, suffix: string): string
  {
    whole + AfterWhole(dec, suffix)
  }

  function AfterWhole(dec: string, suffix: string): string
  {
    if dec == "" then suffix else "." + (dec + suffix)
  }

  lemma SuffixStarts(suffix: string)
    requires IsSuffix(suffix) && suffix != ""
    ensures !IsDigit(suffix[0]) && suffix[0] != '.'
  {
    var spaces := Span(suffix, IsSpace);
    if spaces > 0 {
      assert IsSpace(suffix[0]);
    } else if suffix != "\n" {
      assert IsLetter(suffix[spaces..][0]);
    }
  }

  lemma ParseFraction(whole: nat, dec: string, suffix: string)
    requires AllDigits(dec) && IsSuffix(suffix)
    ensures ParseRest(whole, AfterWhole(dec, suffix)) == Number(whole, DecimalPart(dec))
  {
    if suffix != "" { SuffixStarts(suffix); }
    if dec == "" {
      assert "" + Zeros(PRECISION) == Zeros(PRECISION);
      IntZeros(PRECISION);
    } else {
      Cut(".", dec + suffix);
      SpanDigits(dec, suffix);
      Cut(dec, suffix);
    }
  }

  lemma ParseDigits(whole: string, dec: string, suffix: string)
    requires AllDigits(whole) && AllDigits(dec) && whole != "" && IsSuffix(suffix)
    ensures Parse(NumberText(whole, dec, suffix)) == Number(Int(whole), DecimalPart(dec))
  {
    var rest := AfterWhole(dec, suffix);
    if suffix != "" { SuffixStarts(suffix); }
    SpanDigits(whole, rest);
    Cut(whole, rest);
    ParseFraction(Int(whole), dec, suffix);
  }

  lemma Cut(a: string, b: string)
    ensures (a + b)[..|a|] == a && (a + b)[|a|..] == b
  {
  }

  /** There are no other texts that parse. */
  lemma ParsedIsNumberText(s: string)
    requires Parse(s).Ok?
    ensures exists whole, dec, suffix ::
              s == NumberText(whole, dec, suffix) && whole != "" &&
              AllDigits(whole) && AllDigits(dec) && IsSuffix(suffix)
  {
    var n := DigitSpan(s);
    var (whole, rest) := (s[..n], s[n..]);
    var (dec, suffix) := RestParts(Int(whole), rest);
    assert s == whole + rest;
    assert s == NumberText(whole, dec, suffix);
  }

  function RestParts(whole: nat, rest: string): (r: (string, string))
    requires ParseRest(whole, rest).Ok?
    ensures AllDigits(r.0) && IsSuffix(r.1) && rest == AfterWhole(r.0, r.1)
  {
    var tail := if rest != "" && rest[0] == '.' then rest[1..] else "";
    var d := DigitSpan(tail);
    if d == 0 then ("", rest)
    else
      PointAndTail(rest, d);
      (tail[..d], tail[d..])
  }

  lemma PointAndTail(rest: string, d: nat)
    requires rest != "" && rest[0] == '.' && 0 < d < |rest|
    ensures AfterWhole(rest[1..][..d], rest[1..][d..]) == rest
  {
    assert rest == ["."[0]] + rest[1..];
    assert rest[1..] == rest[1..][..d] + rest[1..][d..];
  }

  /** The parsed fraction, sixteen digits long, stands for the text's value. */
  ghost predicate ExactFraction(dec: nat, text: string)
    requires AllDigits(text)
  {
    dec <= DEC_NO_LIMIT && dec * Pow10(|text|) == Int(text) * SCALE
  }

  lemma ShortFractionIsExact(dec: string)
    requires AllDigits(dec) && |dec| <= PRECISION
    ensures ExactFraction(DecimalPart(dec), dec)
  {
    PowPrecision();
    var k := PRECISION - |dec|;
    IntZerosRight(dec, k);
    IntBound(dec + Zeros(k));
    Pow10Add(k, |dec|);
    NumberTheory.Associate(Int(dec), Pow10(k), Pow10(|dec|));
  }

  lemma OnlyZeroAbsorbs(n: nat, k: nat, scale: nat)
    requires k >= 2 && scale > 0
    ensures n * (k * scale) == n * scale <==> n == 0
  {
    NumberTheory.Associate(n, k, scale);
    NumberTheory.Associate(k, n, scale);
    NumberTheory.Distribute(n * scale, k, 1);
    if n > 0 {
      NumberTheory.MultipleSize(n, scale);
      NumberTheory.MultipleSize(k - 1, n * scale);
    }
  }

  lemma LongFractionIsMisread(dec: string)
    requires AllDigits(dec) && |dec| > PRECISION
    ensures ExactFraction(DecimalPart(dec), dec) <==> Int(dec) == 0
  {
    PowPrecision();
    assert dec + Zeros(0) == dec;
    var extra := |dec| - PRECISION;
    Pow10Add(extra, PRECISION);
    assert Pow10(extra) == 10 * Pow10(extra - 1);
    OnlyZeroAbsorbs(Int(dec), Pow10(extra), SCALE);
  }

  /** Parsing gives the exact decimal value exactly when there are at most sixteen
      fraction digits or the fraction is zero (and the whole part is in range); any
      other over-long fraction raises or is misread. */
  lemma ParseIsExact(whole: string, dec: string, suffix: string)
    requires AllDigits(whole) && AllDigits(dec) && whole != "" && IsSuffix(suffix)
    ensures var r := Parse(NumberText(whole, dec, suffix));
            (r.Ok? && r.value.whole == Int(whole) && ExactFraction(r.value.dec, dec))
            <==> Int(whole) <= WHOLE_LIMIT && (|dec| <= PRECISION || Int(dec) == 0)
  {
    ParseDigits(whole, dec, suffix);
    if |dec| <= PRECISION {
      ShortFractionIsExact(dec);
    } else {
      LongFractionIsMisread(dec);
    }
  }

  /** An amount with the digits after the eighth decimal removed. */
  function Truncated(c: C): C
  {
    C(c.whole, c.dec / SATOSHI * SATOSHI)
  }

  lemma KeptDecimals(dec: nat)
    requires dec <= DEC_NO_LIMIT
    ensures |Padded(dec, PRECISION)| == PRECISION
    ensures Int(Padded(dec, PRECISION)[..LIMIT_PRECISION]) == dec / SATOSHI
  {
    PaddedLength(dec);
    PowPrecision();
    PaddedValue(dec, PRECISION);
    IntSplit(Padded(dec, PRECISION), LIMIT_PRECISION);
  }

  lemma DecimalsRoundTrip(decimals: string)
    requires AllDigits(decimals) && |decimals| == LIMIT_PRECISION
    ensures var kept := if Int(decimals) == 0 then "00" else TrimZeros(decimals);
            kept != "" && AllDigits(kept) && DecimalPart(kept) == Int(decimals) * SATOSHI
  {
    PowPrecision();
    if Int(decimals) == 0 {
      assert "00" == Zeros(2);
      assert "00" + Zeros(14) == Zeros(16);
      IntZeros(16);
    } else {
      var kept := TrimZeros(decimals);
      TrimZerosValue(decimals);
      IntZerosRight(kept, PRECISION - |kept|);
      Pow10Add(LIMIT_PRECISION - |kept|, LIMIT_PRECISION);
      NumberTheory.Associate(Int(kept), Pow10(LIMIT_PRECISION - |kept|), SATOSHI);
    }
  }

  /** Parsing what was printed gives the amount cut after eight decimals. */
  lemma PrintThenParse(c: C)
    requires Valid(c)
    ensures Parse(Text(c)) == Ok(Truncated(c))
  {
    KeptDecimals(c.dec);
    var decimals := Padded(c.dec, PRECISION)[..LIMIT_PRECISION];
    DecimalsRoundTrip(decimals);
    var kept := if Int(decimals) == 0 then "00" else TrimZeros(decimals);
    assert NumberText(Str(c.whole), kept, "") == Text(c);
    ParseDigits(Str(c.whole), kept, "");
    StrRoundTrip(c.whole);
  }

  /** Printing once more after parsing changes nothing. */
  lemma PrintingIsIdempotent(c: C)
    requires Valid(c)
    ensures Parse(Text(c)).Ok? && Valid(Parse(Text(c)).value)
    ensures Text(Parse(Text(c)).value) == Text(c)
  {
    PrintThenParse(c);
    KeptDecimals(c.dec);
    KeptDecimals(Truncated(c).dec);
    SameLengthSameText(Padded(c.dec, PRECISION)[..LIMIT_PRECISION],
                       Padded(Truncated(c).dec, PRECISION)[..LIMIT_PRECISION]);
  }
}
