/** Coin amounts as whole numbers of 10^-16, the storage precision of the
    currency type, and the two roundings every other part relies on:
    multiplication truncates to 10^-16, transactions truncate to a satoshi. */
module Amounts {

  type Amount = nat

  const SCALE: nat := 1_0000_0000_0000_0000
  const SATOSHI: nat := 1_0000_0000
  const WHOLE_LIMIT: nat := 18446744073709551610

  /** The largest whole part is not exceeded. */
  predicate InRange(a: Amount)
  {
    a / SCALE <= WHOLE_LIMIT
  }

  /** a * b at precision 10^-16, truncated. */
  function Times(a: Amount, b: Amount): Amount
  {
    a * b / SCALE
  }

  /** as_decimal * COIN: the satoshi count written into a transaction output. */
  function InSatoshi(a: Amount): nat
  {
    a / SATOSHI
  }

  predicate WholeSatoshi(a: Amount)
  {
    a % SATOSHI == 0
  }

  lemma TimesMonotone(a: Amount, b: Amount, a': Amount, b': Amount)
    requires a <= a' && b <= b'
    ensures Times(a, b) <= Times(a', b')
  {
    assert a * b <= a' * b by { assert (a' - a) * b >= 0; }
    assert a' * b <= a' * b' by { assert a' * (b' - b) >= 0; }
  }

  lemma FloorSuperadditive(x: nat, y: nat)
    ensures x / SCALE + y / SCALE <= (x + y) / SCALE
  {
  }

  /** Truncating part by part never exceeds truncating the whole. */
  lemma TimesSuperadditive(a: Amount, b: Amount, price: Amount)
    ensures Times(a, price) + Times(b, price) <= Times(a + b, price)
  {
    FloorSuperadditive(a * price, b * price);
    assert (a + b) * price == a * price + b * price;
  }

  /** Multiplying by a rate of at most one does not increase an amount. */
  lemma RateAtMostOne(a: Amount, rate: Amount)
    requires rate <= SCALE
    ensures Times(a, rate) <= a
  {
    TimesMonotone(a, rate, a, SCALE);
  }
}
