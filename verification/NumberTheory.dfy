/** Elementary number theory behind square roots modulo a prime: binomial
    coefficients, Euclid's lemma and Fermat's little theorem. */
module NumberTheory {

  ghost function Pow(b: int, e: nat): int
  {
    if e == 0 then 1 else b * Pow(b, e - 1)
  }

  ghost predicate IsPrime(p: int)
  {
    p >= 2 && forall d :: 2 <= d < p ==> !Divides(d, p)
  }

  ghost predicate Divides(d: int, n: int)
    requires d > 0
  {
    n % d == 0
  }

  // ----- products -------------------------------------------------------------

  lemma Associate(a: int, b: int, c: int)
    ensures a * (b * c) == (a * b) * c == b * (a * c)
  {
  }

  lemma Distribute(a: int, b: int, c: int)
    ensures a * (b + c) == a * b + a * c == (b + c) * a
    ensures a * (b - c) == a * b - a * c == (b - c) * a
  {
  }

  // ----- divisibility, phrased with % ---------------------------------------

  lemma MultipleSize(k: int, d: int)
    requires d > 0
    ensures k >= 1 ==> k * d >= d
    ensures k <= -1 ==> k * d <= -d
  {
    if k >= 1 {
      assert (k - 1) * d >= 0;
    } else if k <= -1 {
      assert (-k - 1) * d >= 0;
    }
  }

  lemma MultipleHasNoRemainder(k: int, d: int)
    requires d > 0
    ensures (k * d) % d == 0
  {
    var q, r := (k * d) / d, (k * d) % d;
    assert (k - q) * d == r by { assert k * d == q * d + r; }
    MultipleSize(k - q, d);
  }

  lemma SmallRemainder(n: int, d: int)
    requires 0 <= n < d
    ensures n % d == n
  {
  }

  lemma RemainderZeroIsMultiple(n: int, d: int) returns (k: int)
    requires d > 0 && n % d == 0
    ensures n == k * d
  {
    k := n / d;
  }

  lemma DividesSum(a: int, b: int, d: int)
    requires d > 0 && a % d == 0 && b % d == 0
    ensures (a + b) % d == 0 && (a - b) % d == 0
  {
    var j := RemainderZeroIsMultiple(a, d);
    var k := RemainderZeroIsMultiple(b, d);
    assert a + b == (j + k) * d && a - b == (j - k) * d;
    MultipleHasNoRemainder(j + k, d);
    MultipleHasNoRemainder(j - k, d);
  }

  lemma DividesProduct(a: int, b: int, d: int)
    requires d > 0 && a % d == 0
    ensures (a * b) % d == 0 && (b * a) % d == 0
  {
    var k := RemainderZeroIsMultiple(a, d);
    assert a * b == (k * b) * d by { assert (k * d) * b == (k * b) * d; }
    MultipleHasNoRemainder(k * b, d);
  }

  /** Two numbers leave the same remainder exactly when their difference is a multiple. */
  lemma SameRemainder(a: int, b: int, d: int)
    requires d > 0
    ensures a % d == b % d <==> (a - b) % d == 0
  {
    var q, r := a / d - b / d, a % d - b % d;
    assert a - b == q * d + r by {
      assert (a / d) * d - (b / d) * d == q * d;
    }
    MultipleHasNoRemainder(q, d);
    if (a - b) % d == 0 {
      DividesSum(a - b, q * d, d);
      var k := RemainderZeroIsMultiple(r, d);
      MultipleSize(k, d);
    }
  }

  lemma DropMultiple(q: int, d: int, r: int, b: int)
    requires d > 0
    ensures ((q * d + r) * b) % d == (r * b) % d
  {
    assert (q * d + r) * b - r * b == (q * b) * d by {
      assert (q * d + r) * b == (q * d) * b + r * b;
      assert (q * d) * b == (q * b) * d;
    }
    MultipleHasNoRemainder(q * b, d);
    SameRemainder((q * d + r) * b, r * b, d);
  }

  lemma ReduceProduct(a: int, b: int, d: int)
    requires d > 0
    ensures ((a % d) * b) % d == (a * b) % d
    ensures (b * (a % d)) % d == (b * a) % d
  {
    assert a == (a / d) * d + a % d;
    DropMultiple(a / d, d, a % d, b);
    assert (a % d) * b == b * (a % d) && a * b == b * a;
  }

  lemma ReducePower(a: int, d: int, e: nat)
    requires d > 0
    ensures Pow(a % d, e) % d == Pow(a, e) % d
  {
    if e > 0 {
      ReducePower(a, d, e - 1);
      ReduceProduct(a, Pow(a % d, e - 1), d);
      ReduceProduct(Pow(a % d, e - 1), a, d);
      ReduceProduct(Pow(a, e - 1), a, d);
    }
  }

  lemma {:induction false} PowAdd(a: int, m: nat, n: nat)
    ensures Pow(a, m + n) == Pow(a, m) * Pow(a, n)
  {
    if m > 0 {
      PowAdd(a, m - 1, n);
      Associate(a, Pow(a, m - 1), Pow(a, n));
    }
  }

  lemma {:induction false} PowSquare(a: int, e: nat)
    ensures Pow(a * a, e) == Pow(a, 2 * e)
  {
    if e > 0 {
      PowSquare(a, e - 1);
      var w := Pow(a, 2 * e - 2);
      assert Pow(a, 2 * e - 1) == a * w;
      assert Pow(a, 2 * e) == a * (a * w);
      Associate(a, a, w);
    }
  }

  lemma PowNonNegative(a: nat, e: nat)
    ensures Pow(a, e) >= 0
  {
    if e > 0 { PowNonNegative(a, e - 1); }
  }

  /** Euclid's lemma for a factor below the prime, by descent on p % a. */
  lemma EuclidBelow(p: int, a: int, b: int)
    requires IsPrime(p) && 0 < a < p && (a * b) % p == 0
    ensures b % p == 0
    decreases a
  {
    if a > 1 {
      var q, r := p / a, p % a;
      assert !Divides(a, p);
      assert r == p - q * a;
      Distribute(b, p, q * a);
      Associate(q, a, b);
      MultipleHasNoRemainder(b, p);
      DividesProduct(a * b, q, p);
      DividesSum(b * p, q * (a * b), p);
      EuclidBelow(p, r, b);
    }
  }

  lemma {:induction false} Euclid(p: int, a: int, b: int)
    requires IsPrime(p) && (a * b) % p == 0
    ensures a % p == 0 || b % p == 0
  {
    ReduceProduct(a, b, p);
    if a % p != 0 { EuclidBelow(p, a % p, b); }
  }

  // ----- binomial coefficients ----------------------------------------------

  ghost function Choose(n: nat, k: nat): nat
  {
    if k == 0 then 1 else if n == 0 then 0 else Choose(n - 1, k - 1) + Choose(n - 1, k)
  }

  lemma ChooseBeyond(n: nat, k: nat)
    requires k > n
    ensures Choose(n, k) == 0
  {
  }

  lemma ChooseSelf(n: nat)
    ensures Choose(n, n) == 1
  {
    if n > 0 {
      ChooseSelf(n - 1);
      ChooseBeyond(n - 1, n);
    }
  }

  lemma AbsorptionArithmetic(n: int, k: int, c: int, d: int, e: int, f: int)
    requires c == f + e && k * d == (n - 1) * e && (k - 1) * c == (n - 1) * f
    ensures k * (c + d) == n * c
  {
    Distribute(n - 1, f, e);
    Distribute(k, c, d);
    Distribute(c, k, 1);
    Distribute(c, n, 1);
  }

  lemma {:induction false} Absorption(n: nat, k: nat)
    requires n >= 1 && k >= 1
    ensures k * Choose(n, k) == n * Choose(n - 1, k - 1)
  {
    if n == 1 {
      if k > 1 { ChooseBeyond(1, k); ChooseBeyond(0, k - 1); }
    } else {
      Absorption(n - 1, k);
      if k > 1 {
        Absorption(n - 1, k - 1);
        AbsorptionArithmetic(n, k, Choose(n - 1, k - 1), Choose(n - 1, k),
                             Choose(n - 2, k - 1), Choose(n - 2, k - 2));
      }
    }
  }

  /** The partial binomial expansion of (a + 1)^n up to the power m. */
  ghost function Expansion(n: nat, a: int, m: nat): int
  {
    if m == 0 then 1 else Expansion(n, a, m - 1) + Choose(n, m) * Pow(a, m)
  }

  lemma {:induction false} ExpansionStep(n: nat, a: int, m: nat)
    ensures Expansion(n + 1, a, m + 1) == Expansion(n, a, m + 1) + a * Expansion(n, a, m)
  {
    var c, d, w := Choose(n, m), Choose(n, m + 1), Pow(a, m);
    assert Pow(a, m + 1) == a * w;
    Distribute(a * w, c, d);
    Associate(c, a, w);
    if m > 0 {
      ExpansionStep(n, a, m - 1);
      Distribute(a, Expansion(n, a, m - 1), c * w);
    } else {
      assert Expansion(n + 1, a, 1) == 1 + Choose(n + 1, 1) * (a * w);
      assert Expansion(n, a, 1) == 1 + d * (a * w);
    }
  }

  lemma {:induction false} BinomialTheorem(n: nat, a: int)
    ensures Expansion(n, a, n) == Pow(a + 1, n)
  {
    if n > 0 {
      BinomialTheorem(n - 1, a);
      ExpansionGrows(n, a);
      PowOfNext(a, n);
    }
  }

  lemma ExpansionGrows(n: nat, a: int)
    requires n > 0
    ensures Expansion(n, a, n) == Expansion(n - 1, a, n - 1) + a * Expansion(n - 1, a, n - 1)
  {
    ExpansionStep(n - 1, a, n - 1);
    ChooseBeyond(n - 1, n);
  }

  lemma PowOfNext(a: int, n: nat)
    requires n > 0
    ensures Pow(a + 1, n) == Pow(a + 1, n - 1) + a * Pow(a + 1, n - 1)
  {
    Distribute(Pow(a + 1, n - 1), a, 1);
  }

  lemma CancelBelowPrime(p: int, k: int, c: int, d: int)
    requires IsPrime(p) && 0 < k < p && k * c == p * d
    ensures c % p == 0
  {
    MultipleHasNoRemainder(d, p);
    EuclidBelow(p, k, c);
  }

  lemma PrimeDividesChoose(p: int, k: nat)
    requires IsPrime(p) && 0 < k < p
    ensures Choose(p, k) % p == 0
  {
    Absorption(p, k);
    CancelBelowPrime(p, k, Choose(p, k), Choose(p - 1, k - 1));
  }

  lemma AddMultiple(sum: int, c: int, w: int, p: int)
    requires p > 0 && (sum - 1) % p == 0 && c % p == 0
    ensures (sum + c * w - 1) % p == 0
  {
    DividesProduct(c, w, p);
    DividesSum(sum - 1, c * w, p);
  }

  lemma {:induction false} MiddleTermsVanish(p: int, a: int, m: nat)
    requires IsPrime(p) && m < p
    ensures (Expansion(p, a, m) - 1) % p == 0
  {
    if m > 0 {
      MiddleTermsVanish(p, a, m - 1);
      PrimeDividesChoose(p, m);
      AddMultiple(Expansion(p, a, m - 1), Choose(p, m), Pow(a, m), p);
    }
  }

  lemma LastTerm(p: nat, a: int)
    requires p > 0
    ensures Expansion(p, a, p) == Expansion(p, a, p - 1) + Pow(a, p)
  {
    ChooseSelf(p);
  }

  lemma FermatStep(p: int, sum: int, next: int, last: int, a: int)
    requires p > 0 && next == sum + last && (sum - 1) % p == 0 && (last - a) % p == 0
    ensures (next - (a + 1)) % p == 0
  {
    DividesSum(sum - 1, last - a, p);
  }

  lemma PowZero(e: nat)
    requires e > 0
    ensures Pow(0, e) == 0
  {
    assert Pow(0, e) == 0 * Pow(0, e - 1);
  }

  lemma {:induction false} FermatForNaturals(p: int, a: nat)
    requires IsPrime(p)
    ensures (Pow(a, p) - a) % p == 0
  {
    if a == 0 {
      PowZero(p);
    } else {
      FermatForNaturals(p, a - 1);
      BinomialTheorem(p, a - 1);
      LastTerm(p, a - 1);
      MiddleTermsVanish(p, a - 1, p - 1);
      FermatStep(p, Expansion(p, a - 1, p - 1), Pow(a, p), Pow(a - 1, p), a - 1);
    }
  }

  lemma FactorOut(a: int, w: int)
    ensures a * w - a == a * (w - 1)
  {
  }

  lemma CancelFactor(p: int, a: int, w: int)
    requires IsPrime(p) && a % p != 0 && (a * w - a) % p == 0
    ensures w % p == 1
  {
    FactorOut(a, w);
    Euclid(p, a, w - 1);
    OneMoreThanMultiple(w, p);
  }

  lemma OneMoreThanMultiple(w: int, p: int)
    requires p > 1 && (w - 1) % p == 0
    ensures w % p == 1
  {
    SameRemainder(w, 1, p);
  }

  /** Fermat's little theorem. */
  lemma {:induction false} Fermat(p: int, a: nat)
    requires IsPrime(p) && a % p != 0
    ensures Pow(a, p - 1) % p == 1
  {
    FermatForNaturals(p, a);
    CancelFactor(p, a, Pow(a, p - 1));
  }

  lemma DifferenceOfSquares(r: int, y: int)
    ensures (r - y) * (r + y) == r * r - y * y
  {
    Distribute(r + y, r, y);
    Distribute(r, r, y);
    Distribute(y, r, y);
  }

  lemma OnlyMultipleNearZero(p: int, n: int)
    requires p > 0 && -p < n < p && n % p == 0
    ensures n == 0
  {
    var k := RemainderZeroIsMultiple(n, p);
    MultipleSize(k, p);
  }

  lemma OnlyMultipleBetween(p: int, n: int)
    requires p > 0 && 0 < n < 2 * p && n % p == 0
    ensures n == p
  {
    DividesSum(n, 1 * p, p);
    OnlyMultipleNearZero(p, n - p);
  }

  /** A number below a prime whose square agrees with that of y is y or its negative. */
  lemma TwoRoots(p: int, r: int, y: int)
    requires IsPrime(p) && 0 <= r < p && 0 < y < p && (r * r) % p == (y * y) % p
    ensures r == y || r == p - y
  {
    assert ((r - y) * (r + y)) % p == 0 by {
      SameRemainder(r * r, y * y, p);
      DifferenceOfSquares(r, y);
    }
    Euclid(p, r - y, r + y);
    if (r - y) % p == 0 {
      OnlyMultipleNearZero(p, r - y);
    } else {
      OnlyMultipleBetween(p, r + y);
    }
  }

  lemma PowTwo(y: int)
    ensures Pow(y, 2) == y * y
  {
    assert Pow(y, 2) == y * Pow(y, 1) && Pow(y, 1) == y * Pow(y, 0);
  }

  lemma SquareOfRemainder(h: int, p: int)
    requires p > 0
    ensures ((h % p) * (h % p)) % p == (h * h) % p
  {
    ReduceProduct(h, h, p);
    ReduceProduct(h, h % p, p);
  }

  lemma RootPower(p: nat, y: int, e: nat)
    requires p > 0 && 4 * e == p + 1
    ensures Pow(y, 2 * e) * Pow(y, 2 * e) == Pow(y, p - 1) * (y * y)
  {
    PowAdd(y, 2 * e, 2 * e);
    PowAdd(y, p - 1, 2);
    PowTwo(y);
  }

  lemma DropUnit(w: int, s: int, p: int)
    requires p > 1 && w % p == 1
    ensures (w * s) % p == s % p
  {
    ReduceProduct(w, s, p);
  }

  /** With 4e = p + 1, the square of y^(2e) agrees with that of y. */
  lemma SquareOfRoot(p: int, y: nat, e: nat)
    requires IsPrime(p) && 0 < y < p && 4 * e == p + 1
    ensures var r := Pow(y, 2 * e) % p; (r * r) % p == (y * y) % p
  {
    RootPower(p, y, e);
    SmallRemainder(y, p);
    Fermat(p, y);
    DropUnit(Pow(y, p - 1), y * y, p);
    SquareOfRemainder(Pow(y, 2 * e), p);
  }

  /** For a prime p = 3 (mod 4), raising a square to the power (p + 1) / 4
      gives one of its two roots. */
  lemma RootOfSquare(p: int, y: nat)
    requires IsPrime(p) && p % 4 == 3 && y < p
    ensures var r := Pow(y * y, (p + 1) / 4) % p;
            r == y || (y > 0 && r == p - y)
  {
    var e := (p + 1) / 4;
    PowSquare(y, e);
    if y == 0 {
      PowZero(2 * e);
    } else {
      SquareOfRoot(p, y, e);
      TwoRoots(p, Pow(y, 2 * e) % p, y);
    }
  }
}
