/** secp256k1 public keys: modular exponentiation, compression to 33 bytes and
    decompression by a modular square root. Keys are the hexadecimal digits the
    source works on after hexlify. */
module KeyCompression {
  import opened Outcome
  import opened NumberTheory

  // ----- modular exponentiation ----------------------------------------------

  lemma EvenPower(number: int, x: int, y: nat, z: int)
    requires z > 0 && y > 0 && y % 2 == 0
    ensures (number * Pow(x * x % z, y / 2)) % z == (number * Pow(x, y)) % z
  {
    var w := Pow(x * x % z, y / 2);
    ReducePower(x * x, z, y / 2);
    PowSquare(x, y / 2);
    assert w % z == Pow(x, y) % z;
    ReduceProduct(w, number, z);
    ReduceProduct(Pow(x, y), number, z);
  }

  lemma OddPower(number: int, x: int, y: nat, z: int)
    requires z > 0 && y % 2 == 1
    ensures ((number * x % z) * Pow(x * x % z, y / 2)) % z == (number * Pow(x, y)) % z
  {
    var w := Pow(x * x % z, y / 2);
    if y == 1 {
      assert Pow(x, 1) == x * Pow(x, 0);
    } else {
      EvenPower(number * x % z, x, y - 1, z);
      ReduceProduct(number * x, Pow(x, y - 1), z);
      Associate(number, x, Pow(x, y - 1));
    }
  }

  /** Square-and-multiply. The result is the residue of x^y, except that nothing
      is reduced when the exponent is 0. */
  method PowMod(x: int, y: nat, z: int) returns (number: int)
    requires z > 0
    ensures number == if y == 0 then 1 else Pow(x, y) % z
  {
    number := 1;
    var base, exponent := x, y;
    while exponent != 0
      invariant (number * Pow(base, exponent)) % z == Pow(x, y) % z
      invariant exponent != y ==> exponent > 0 || number == number % z
      invariant exponent == y ==> number == 1
      decreases exponent
    {
      if exponent % 2 == 1 {
        OddPower(number, base, exponent, z);
        number := number * base % z;
        SmallRemainder(number, z);
      } else {
        EvenPower(number, base, exponent, z);
      }
      exponent := exponent / 2;
      base := base * base % z;
    }
  }

  /** The loop computes x^y mod z on all arguments but one family: exponent 0 modulo 1. */
  lemma PowModMeetsItsDocstring(x: int, y: nat, z: int)
    requires z > 0
    ensures (if y == 0 then 1 else Pow(x, y) % z) == Pow(x, y) % z <==> !(y == 0 && z == 1)
  {
  }

  // ----- hexadecimal text ------------------------------------------------------

  type HexDigit = n: nat | n < 16
  type Hex = seq<HexDigit>

  /** int(s, 16) */
  function HexValue(s: Hex): nat
  {
    if s == [] then 0 else HexValue(s[..|s| - 1]) * 16 + s[|s| - 1]
  }

  /** "{0:0{1}x}".format(x, width) for a number that fits the width */
  function FormatHex(x: nat, width: nat): (s: Hex)
    ensures |s| == width
  {
    if width == 0 then [] else FormatHex(x / 16, width - 1) + [x % 16]
  }

  function HexBound(width: nat): nat
  {
    if width == 0 then 1 else 16 * HexBound(width - 1)
  }

  lemma {:induction false} HexValueInRange(s: Hex)
    ensures HexValue(s) < HexBound(|s|)
  {
    if s != [] { HexValueInRange(s[..|s| - 1]); }
  }

  lemma {:induction false} HexRoundTrip(x: nat, width: nat)
    requires x < HexBound(width)
    ensures HexValue(FormatHex(x, width)) == x
  {
    if width > 0 {
      HexRoundTrip(x / 16, width - 1);
      assert FormatHex(x, width)[..width - 1] == FormatHex(x / 16, width - 1);
    }
  }

  lemma {:induction false} HexTextRoundTrip(s: Hex)
    ensures FormatHex(HexValue(s), |s|) == s
  {
    if s != [] { HexTextRoundTrip(s[..|s| - 1]); }
  }

  /** Dropping the leading digit of a text of two or more digits keeps the parity. */
  lemma {:induction false} ParityIgnoresLeadingDigit(s: Hex)
    requires |s| >= 2
    ensures HexValue(s[1..]) % 2 == HexValue(s) % 2
  {
    var t := s[1..];
    assert s[|s| - 1] == t[|t| - 1];
    assert HexValue(t) == HexValue(t[..|t| - 1]) * 16 + t[|t| - 1];
  }

  // ----- compression -----------------------------------------------------------

  /** Hexadecimal digits of one coordinate. */
  const COORDINATE: nat := 64

  const SECP256K1_P: nat := 0xfffffffffffffffffffffffffffffffffffffffffffffffffffffffefffffc2f

  /** The uncompressed form with its 04 prefix. */
  function Encoded(x: nat, y: nat): (key: Hex)
    ensures |key| == 130
  {
    [0, 4] + FormatHex(x, COORDINATE) + FormatHex(y, COORDINATE)
  }

  /** The uncompressed form with or without its prefix. */
  function Uncompressed(x: nat, y: nat, prefixed: bool): (key: Hex)
    ensures |key| == if prefixed then 130 else 128
  {
    if prefixed then Encoded(x, y) else Encoded(x, y)[2..]
  }

  /** Reads x, and y from its second digit on; keeps x and the parity of y. */
  function CompressPublicKey(key: Hex): Hex
    requires |key| == 128 || |key| == 130
  {
    var offset := if |key| == 128 then 0 else 2;
    var x := HexValue(key[offset..64 + offset]);
    var y := HexValue(key[65 + offset..]);
    (if y % 2 == 1 then [0, 3] else [0, 2]) + FormatHex(x, COORDINATE)
  }

  lemma UncompressedParts(x: nat, y: nat, prefixed: bool)
    ensures var key := Uncompressed(x, y, prefixed);
            var offset := if prefixed then 2 else 0;
            key[offset..64 + offset] == FormatHex(x, COORDINATE) && key[65 + offset..] == FormatHex(y, COORDINATE)[1..]
  {
    var key := Uncompressed(x, y, prefixed);
    var offset := if prefixed then 2 else 0;
    assert key[offset..64 + offset] == FormatHex(x, COORDINATE);
    assert key[65 + offset..] == FormatHex(y, COORDINATE)[1..];
  }

  /** x is recovered from its digits, as every number of at most 64 digits is. */
  ghost predicate Fits(x: nat)
  {
    HexValue(FormatHex(x, COORDINATE)) == x
  }

  lemma BelowBoundFits(x: nat)
    requires x < HexBound(COORDINATE)
    ensures Fits(x)
  {
    HexRoundTrip(x, COORDINATE);
  }

  lemma CompressReadsParity(x: nat, y: nat, prefixed: bool)
    requires Fits(x) && Fits(y)
    ensures CompressPublicKey(Uncompressed(x, y, prefixed)) == [0, 2 + y % 2] + FormatHex(x, COORDINATE)
  {
    var digits := FormatHex(y, COORDINATE);
    UncompressedParts(x, y, prefixed);
    ParityIgnoresLeadingDigit(digits);
    CompressedFrom(Uncompressed(x, y, prefixed), x, HexValue(digits[1..]), if prefixed then 2 else 0);
  }

  lemma CompressedFrom(key: Hex, x: nat, y: nat, offset: nat)
    requires |key| == 128 + offset && (offset == 0 || offset == 2)
    requires HexValue(key[offset..64 + offset]) == x && HexValue(key[65 + offset..]) == y
    ensures CompressPublicKey(key) == [0, 2 + y % 2] + FormatHex(x, COORDINATE)
  {
  }

  // ----- decompression -----------------------------------------------------------

  ghost function CurveSide(p: int, x: nat): int
    requires p > 0
  {
    (Pow(x, 3) % p + 7) % p
  }

  /** The candidate square root of x^3 + 7. */
  ghost function CandidateRoot(p: int, x: nat): (root: nat)
    requires p > 0
    ensures root < p
  {
    Pow(CurveSide(p, x), (p + 1) / 4) % p
  }

  function PickRoot(p: int, root: nat, parity: int): (r: nat)
    requires p > 0
    ensures r < p || r == root
  {
    if root % 2 != parity then (-(root as int)) % p else root
  }

  /** The candidate root with the wanted parity; the parity digits are read in
      base 10, so a letter among them is an error. */
  ghost function Decompressed(p: int, key: Hex): Option<Hex>
    requires p > 0 && |key| == 66
  {
    if key[0] >= 10 || key[1] >= 10 then None else
    var parity := 10 * (key[0] as int) + (key[1] as int) - 2;
    var x := HexValue(key[2..]);
    Some(Encoded(x, PickRoot(p, CandidateRoot(p, x), parity)))
  }

  method DecompressPublicKey(p: int, key: Hex) returns (ret: Option<Hex>)
    requires p > 3 && |key| == 66
    ensures ret == Decompressed(p, key)
  {
    if key[0] >= 10 || key[1] >= 10 { return None; }
    var parity := 10 * (key[0] as int) + (key[1] as int) - 2;
    var x := HexValue(key[2..]);
    var cube := PowMod(x, 3, p);
    var a := (cube + 7) % p;
    var y := PowMod(a, (p + 1) / 4, p);
    if y % 2 != parity { y := -y % p; }
    ret := Some(Encoded(x, y));
  }

  ghost predicate FieldPrime(p: int)
  {
    IsPrime(p) && p % 4 == 3 && p <= HexBound(COORDINATE)
  }

  ghost predicate OnCurve(p: int, x: nat, y: nat)
  {
    IsPrime(p) && x < p && y < p && (y * y) % p == (Pow(x, 3) + 7) % p
  }

  lemma ReduceSum(a: int, c: int, p: int)
    requires p > 0
    ensures (a % p + c) % p == (a + c) % p
  {
    assert (a % p + c) - (a + c) == (-(a / p)) * p;
    MultipleHasNoRemainder(-(a / p), p);
    SameRemainder(a % p + c, a + c, p);
  }

  lemma NegativeRemainder(r: int, p: int)
    requires 0 <= r < p
    ensures (-r) % p == if r == 0 then 0 else p - r
  {
    if r > 0 {
      SameRemainder(-r, p - r, p);
      MultipleHasNoRemainder(-1, p);
      SmallRemainder(p - r, p);
    } else {
      SmallRemainder(0, p);
    }
  }

  lemma NegationFlipsParity(p: int, root: nat, parity: int)
    requires p % 2 == 1 && root < p
    ensures PickRoot(p, root, parity) == if root % 2 == parity || root == 0 then root else p - root
  {
    NegativeRemainder(root, p);
  }

  lemma RootOfResidue(p: int, y: nat, a: int)
    requires IsPrime(p) && p % 4 == 3 && y < p && a == (y * y) % p
    ensures var root := Pow(a, (p + 1) / 4) % p; root == y || (y > 0 && root == p - y)
  {
    ReducePower(y * y, p, (p + 1) / 4);
    RootOfSquare(p, y);
  }

  lemma CandidateOnCurve(p: int, x: nat, y: nat)
    requires OnCurve(p, x, y) && p % 4 == 3
    ensures CandidateRoot(p, x) == y || (y > 0 && CandidateRoot(p, x) == p - y)
  {
    ReduceSum(Pow(x, 3), 7, p);
    RootOfResidue(p, y, CurveSide(p, x));
  }

  lemma PickedParity(p: int, root: nat, y: nat)
    requires p % 2 == 1 && root < p && y < p && (root == y || (y > 0 && root == p - y))
    ensures PickRoot(p, root, y % 2) == y
  {
    NegationFlipsParity(p, root, y % 2);
  }

  /** A compressed text names x and a parity. */
  lemma DecompressedText(p: int, x: nat, parity: nat)
    requires p > 0 && Fits(x) && parity < 2
    ensures Decompressed(p, [0, 2 + parity] + FormatHex(x, COORDINATE))
            == Some(Encoded(x, PickRoot(p, CandidateRoot(p, x), parity)))
  {
    var key := [0, 2 + parity] + FormatHex(x, COORDINATE);
    assert key[2..] == FormatHex(x, COORDINATE);
  }

  lemma PointGivesY(p: int, x: nat, y: nat)
    requires OnCurve(p, x, y) && p % 4 == 3
    ensures PickRoot(p, CandidateRoot(p, x), y % 2) == y
  {
    CandidateOnCurve(p, x, y);
    PickedParity(p, CandidateRoot(p, x), y);
  }

  lemma CoordinatesFit(p: int, x: nat, y: nat)
    requires FieldPrime(p) && x < p && y < p
    ensures Fits(x) && Fits(y)
  {
    BelowBoundFits(x);
    BelowBoundFits(y);
  }

  /** SEC 1, sections 2.3.3 and 2.3.4: for every curve point, compressing its
      uncompressed form (with or without the 04 prefix) and decompressing the
      result gives the prefixed uncompressed form back. */
  lemma CompressionRoundTrip(p: int, x: nat, y: nat, prefixed: bool)
    requires FieldPrime(p) && OnCurve(p, x, y)
    ensures Decompressed(p, CompressPublicKey(Uncompressed(x, y, prefixed))) == Some(Encoded(x, y))
  {
    var short := CompressPublicKey(Uncompressed(x, y, prefixed));
    assert short == [0, 2 + y % 2] + FormatHex(x, COORDINATE)
           && Decompressed(p, short) == Some(Encoded(x, PickRoot(p, CandidateRoot(p, x), y % 2))) by {
      CoordinatesFit(p, x, y);
      CompressReadsParity(x, y, prefixed);
      DecompressedText(p, x, y % 2);
    }
    PointGivesY(p, x, y);
  }

  lemma PickedParityIff(p: int, root: nat, parity: nat)
    requires p % 2 == 1 && root < p && parity < 2
    ensures PickRoot(p, root, parity) < p
    ensures PickRoot(p, root, parity) % 2 == parity <==> !(parity == 1 && root == 0)
  {
    NegationFlipsParity(p, root, parity);
  }

  /** The other direction, for every 33-byte text with prefix 02 or 03, on the
      curve or not: compressing the decompressed key gives the text back, unless
      an odd root of zero was asked for. */
  lemma DecompressionRoundTrip(p: int, x: nat, parity: nat)
    requires p % 2 == 1 && 0 < p <= HexBound(COORDINATE) && Fits(x) && parity < 2
    ensures var key := [0, 2 + parity] + FormatHex(x, COORDINATE);
            Decompressed(p, key).Some? && |Decompressed(p, key).value| == 130 &&
            (CompressPublicKey(Decompressed(p, key).value) == key
             <==> !(parity == 1 && CandidateRoot(p, x) == 0))
  {
    var y := PickRoot(p, CandidateRoot(p, x), parity);
    DecompressedText(p, x, parity);
    PickedParityIff(p, CandidateRoot(p, x), parity);
    BelowBoundFits(y);
    CompressReadsParity(x, y, true);
    var key, again := [0, 2 + parity] + FormatHex(x, COORDINATE), [0, 2 + y % 2] + FormatHex(x, COORDINATE);
    assert key == again <==> key[1] == again[1];
  }

  /** The field prime of SEC 2, section 2.4.1, is 3 modulo 4 and fits 64 digits. */
  lemma Secp256k1Shape()
    ensures SECP256K1_P % 4 == 3 && SECP256K1_P <= HexBound(COORDINATE)
  {
    assert HexBound(8) == 0x1_0000_0000;
    HexBoundAdd(8, 8);
    HexBoundAdd(16, 16);
    HexBoundAdd(32, 32);
  }

  lemma {:induction false} HexBoundAdd(m: nat, n: nat)
    ensures HexBound(m + n) == HexBound(m) * HexBound(n)
  {
    if m > 0 {
      HexBoundAdd(m - 1, n);
      Associate(16, HexBound(m - 1), HexBound(n));
    }
  }

  lemma Secp256k1RoundTrip(x: nat, y: nat, prefixed: bool)
    requires IsPrime(SECP256K1_P) && OnCurve(SECP256K1_P, x, y)
    ensures Decompressed(SECP256K1_P, CompressPublicKey(Uncompressed(x, y, prefixed)))
            == Some(Encoded(x, y))
  {
    Secp256k1Shape();
    CompressionRoundTrip(SECP256K1_P, x, y, prefixed);
  }
}
