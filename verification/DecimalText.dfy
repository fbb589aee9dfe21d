/** Decimal text: str() and int() on non-negative numbers, and what slicing and
    padding with zeros do to the value of a digit string. */
module DecimalText {
  import NumberTheory

  predicate IsDigit(c: char)
  {
    '0' <= c <= '9'
  }

  predicate AllDigits(s: string)
  {
    forall i :: 0 <= i < |s| ==> IsDigit(s[i])
  }

  function DigitChar(d: nat): (c: char)
    requires d < 10
    ensures IsDigit(c)
  {
    ('0' as int + d) as char
  }

  function DigitValue(c: char): nat
    requires IsDigit(c)
  {
    c as int - '0' as int
  }

  /** int(s); the empty text counts as 0 here, where int() would raise. */
  function Int(s: string): nat
    requires AllDigits(s)
  {
    if s == "" then 0 else Int(s[..|s| - 1]) * 10 + DigitValue(s[|s| - 1])
  }

  /** str(n) */
  function Str(n: nat): (s: string)
    ensures AllDigits(s) && s != ""
  {
    if n < 10 then [DigitChar(n)] else Str(n / 10) + [DigitChar(n % 10)]
  }

  function Pow10(k: nat): (p: nat)
    ensures p > 0
  {
    if k == 0 then 1 else 10 * Pow10(k - 1)
  }

  function Zeros(k: nat): (s: string)
    ensures |s| == k && AllDigits(s)
    ensures forall i :: 0 <= i < k ==> s[i] == '0'
  {
    seq(k, _ => '0')
  }

  lemma {:induction false} StrRoundTrip(n: nat)
    ensures Int(Str(n)) == n
  {
    if n >= 10 {
      StrRoundTrip(n / 10);
      assert Str(n)[..|Str(n)| - 1] == Str(n / 10);
    }
  }

  lemma {:induction false} Pow10Add(a: nat, b: nat)
    ensures Pow10(a + b) == Pow10(a) * Pow10(b)
  {
    if a > 0 {
      Pow10Add(a - 1, b);
      assert Pow10(a + b) == 10 * (Pow10(a - 1) * Pow10(b));
    }
  }

  lemma {:induction false} IntBound(s: string)
    requires AllDigits(s)
    ensures Int(s) < Pow10(|s|)
  {
    if s != "" { IntBound(s[..|s| - 1]); }
  }

  lemma {:induction false} IntConcat(a: string, b: string)
    requires AllDigits(a) && AllDigits(b)
    ensures AllDigits(a + b) && Int(a + b) == Int(a) * Pow10(|b|) + Int(b)
  {
    if b == "" {
      assert a + b == a;
    } else {
      var b' := b[..|b| - 1];
      IntConcat(a, b');
      assert (a + b)[..|a + b| - 1] == a + b' && (a + b)[|a + b| - 1] == b[|b| - 1];
      AppendDigit(Int(a), Pow10(|b'|), Int(b'), DigitValue(b[|b| - 1]));
    }
  }

  lemma AppendDigit(n: nat, p: nat, y: nat, d: nat)
    ensures (n * p + y) * 10 + d == n * (10 * p) + (y * 10 + d)
  {
    NumberTheory.Associate(n, 10, p);
  }

  lemma {:induction false} IntZeros(k: nat)
    ensures Int(Zeros(k)) == 0
  {
    if k > 0 {
      IntZeros(k - 1);
      assert Zeros(k)[..k - 1] == Zeros(k - 1);
    }
  }

  /** Leading zeros do not change a value. */
  lemma IntZerosLeft(s: string, k: nat)
    requires AllDigits(s)
    ensures AllDigits(Zeros(k) + s) && Int(Zeros(k) + s) == Int(s)
  {
    IntZeros(k);
    IntConcat(Zeros(k), s);
  }

  /** Trailing zeros shift a value. */
  lemma IntZerosRight(s: string, k: nat)
    requires AllDigits(s)
    ensures AllDigits(s + Zeros(k)) && Int(s + Zeros(k)) == Int(s) * Pow10(k)
  {
    IntZeros(k);
    IntConcat(s, Zeros(k));
  }

  lemma QuotientRemainder(n: nat, q: nat, d: nat, r: nat)
    requires d > 0 && n == q * d + r && r < d
    ensures n / d == q && n % d == r
  {
    var e := n / d - q;
    assert e * d == r - n % d by { assert n == (n / d) * d + n % d; }
    NumberTheory.MultipleSize(e, d);
  }

  /** Cutting a digit string divides its value by a power of ten. */
  lemma IntSplit(s: string, k: nat)
    requires AllDigits(s) && k <= |s|
    ensures Int(s[..k]) == Int(s) / Pow10(|s| - k)
    ensures Int(s[k..]) == Int(s) % Pow10(|s| - k)
  {
    assert s == s[..k] + s[k..];
    IntConcat(s[..k], s[k..]);
    IntBound(s[k..]);
    QuotientRemainder(Int(s), Int(s[..k]), Pow10(|s| - k), Int(s[k..]));
  }

  lemma {:induction false} StrLength(n: nat, k: nat)
    requires k >= 1
    ensures |Str(n)| <= k <==> n < Pow10(k)
  {
    if k == 1 {
      assert Pow10(1) == 10 * Pow10(0);
    } else if n >= 10 {
      StrLength(n / 10, k - 1);
    } else {
      assert Pow10(k) == 10 * Pow10(k - 1);
    }
  }

  lemma {:induction false} SameLengthSameText(a: string, b: string)
    requires AllDigits(a) && AllDigits(b) && |a| == |b| && Int(a) == Int(b)
    ensures a == b
  {
    if a != "" {
      SameLengthSameText(a[..|a| - 1], b[..|b| - 1]);
      assert a == a[..|a| - 1] + [a[|a| - 1]] && b == b[..|b| - 1] + [b[|b| - 1]];
    }
  }

  /** The text with the zeros at its end removed. */
  function TrimZeros(s: string): (t: string)
    ensures t <= s
  {
    if s != "" && s[|s| - 1] == '0' then TrimZeros(s[..|s| - 1]) else s
  }

  lemma {:induction false} TrimZerosRest(s: string)
    ensures s == TrimZeros(s) + Zeros(|s| - |TrimZeros(s)|)
  {
    if s != "" && s[|s| - 1] == '0' {
      TrimZerosRest(s[..|s| - 1]);
    }
  }

  lemma TrimZerosValue(s: string)
    requires AllDigits(s)
    ensures AllDigits(TrimZeros(s))
    ensures Int(s) == Int(TrimZeros(s)) * Pow10(|s| - |TrimZeros(s)|)
  {
    TrimZerosRest(s);
    IntZerosRight(TrimZeros(s), |s| - |TrimZeros(s)|);
  }

  /** n written with at least `width` digits. */
  function Padded(n: nat, width: nat): (s: string)
    ensures AllDigits(s)
  {
    var t := Str(n);
    if |t| < width then Zeros(width - |t|) + t else t
  }

  lemma PaddedValue(n: nat, width: nat)
    requires width >= 1
    ensures Int(Padded(n, width)) == n
    ensures n < Pow10(width) ==> |Padded(n, width)| == width
  {
    StrRoundTrip(n);
    StrLength(n, width);
    PaddingKeepsValue(n, Str(n), width);
  }

  lemma PaddingKeepsValue(n: nat, t: string, width: nat)
    requires t == Str(n) && Int(t) == n
    ensures Int(Padded(n, width)) == n
  {
    if |t| < width { IntZerosLeft(t, width - |t|); }
  }
}
