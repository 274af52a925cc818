/** Exact six-decimal arithmetic.

Every amount of money and every quantity is an integer number of micro-units
(one millionth). `RoundHalfEven(n, d)` is the rational n/d rounded to a whole
number, ties going to the even neighbour.
 */
module Rounding {

  function RoundHalfEven(n: int, d: int): (r: int)
    requires 0 < d
    ensures Nearest(n, d, r)
  {
    var q, rest := n / d, n % d;
    assert n == q * d + rest;
    assert (q + 1) * d == q * d + d;
    if 2 * rest < d || (2 * rest == d && q % 2 == 0) then q else q + 1
  }

  /** r is nearest to n/d, and even when two whole numbers are equally near. */
  predicate Nearest(n: int, d: int, r: int)
    requires 0 < d
  {
    && -d <= 2 * (n - r * d) <= d
    && (2 * (n - r * d) in {-d, d} ==> r % 2 == 0)
  }

  lemma NearestIsUnique(n: int, d: int, r: int, s: int)
    requires 0 < d && Nearest(n, d, r) && Nearest(n, d, s) && r <= s
    ensures r == s
  {
    var low, high := r * d, s * d;
    assert high - low == (s - r) * d;
    if s - r >= 2 {
      ProductGrows(2, s - r, d);
    } else if s == r + 1 {
      assert false;
    }
  }

  /** `Nearest` leaves one possible result. */
  lemma RoundingIsUnique(n: int, d: int, r: int)
    requires 0 < d && Nearest(n, d, r)
    ensures r == RoundHalfEven(n, d)
  {
    var s := RoundHalfEven(n, d);
    if r <= s {
      NearestIsUnique(n, d, r, s);
    } else {
      NearestIsUnique(n, d, s, r);
    }
  }

  lemma ProductGrows(a: int, b: int, c: int)
    requires a <= b && 0 <= c
    ensures a * c <= b * c
  {}

  lemma RoundingIsMonotone(m: int, n: int, d: int)
    requires 0 < d && m <= n
    ensures RoundHalfEven(m, d) <= RoundHalfEven(n, d)
  {
    var r, s := RoundHalfEven(m, d), RoundHalfEven(n, d);
    if s < r {
      assert (r - s) * d == r * d - s * d;
      ProductGrows(1, r - s, d);
    }
  }

  lemma RoundingWholeIsExact(k: int, d: int)
    requires 0 < d
    ensures RoundHalfEven(k * d, d) == k
  {
    RoundingIsUnique(k * d, d, k);
  }

  /** The value of a quantity at a unit price, both in micro-units. */
  function MoneyFromUnitPrice(price: int, quantity: int): (value: int)
    ensures -500_000 <= price * quantity - value * 1_000_000 <= 500_000
    ensures 0 <= price && 0 <= quantity ==> 0 <= value
    ensures quantity == 0 ==> value == 0
  {
    RoundHalfEven(price * quantity, 1_000_000)
  }

  lemma ValueIsMonotone(price: int, price': int, quantity: int, quantity': int)
    requires 0 <= price <= price' && 0 <= quantity <= quantity'
    ensures MoneyFromUnitPrice(price, quantity) <= MoneyFromUnitPrice(price', quantity')
  {
    ProductGrows(price, price', quantity);
    ProductGrows(quantity, quantity', price');
    RoundingIsMonotone(price * quantity, price' * quantity', 1_000_000);
  }

  /** Splitting a quantity in two moves its value by at most one micro-unit. */
  lemma SplittingMovesOneMicro(price: int, quantity: int, part: int)
    ensures -1 <= MoneyFromUnitPrice(price, quantity)
                  - MoneyFromUnitPrice(price, quantity - part)
                  - MoneyFromUnitPrice(price, part) <= 1
  {
    assert price * quantity == price * (quantity - part) + price * part;
  }

  /** The share `part/whole` of an amount, as the ledger allocates cost. */
  function Scale(amount: int, part: int, whole: int): (share: int)
    requires 0 < whole
    ensures 0 <= amount && 0 <= part <= whole ==> 0 <= share <= amount
  {
    var share := RoundHalfEven(amount * part, whole);
    assert 0 <= amount && 0 <= part <= whole ==> 0 <= share <= amount by {
      if 0 <= amount && 0 <= part <= whole {
        ScaleStaysWithin(amount, part, whole);
      }
    }
    share
  }

  lemma ScaleStaysWithin(amount: int, part: int, whole: int)
    requires 0 < whole && 0 <= amount && 0 <= part <= whole
    ensures 0 <= RoundHalfEven(amount * part, whole) <= amount
  {
    ProductGrows(part, whole, amount);
    ProductGrows(0, part, amount);
    RoundingIsMonotone(amount * part, amount * whole, whole);
    RoundingWholeIsExact(amount, whole);
    RoundingIsMonotone(0 * whole, amount * part, whole);
    RoundingWholeIsExact(0, whole);
  }

  // ---- Decimals and micro-units ----

  /** The nearest whole number, ties to even. */
  function NearestWhole(x: real): (r: int)
    ensures -0.5 <= x - r as real <= 0.5
    ensures x - r as real in {-0.5, 0.5} ==> r % 2 == 0
  {
    var q := x.Floor;
    var rest := x - q as real;
    if rest < 0.5 || (rest == 0.5 && q % 2 == 0) then q else q + 1
  }

  /** `r` is the whole number nearest to `x`, the even one of two as near. */
  predicate RoundsTo(x: real, r: int) {
    -0.5 <= x - r as real <= 0.5 && (x - r as real in {-0.5, 0.5} ==> r % 2 == 0)
  }

  lemma NearestWholeIsUnique(x: real, r: int)
    requires RoundsTo(x, r)
    ensures r == NearestWhole(x)
  {}

  function FromMicro(micro: int): real {
    micro as real / 1_000_000.0
  }

  function ToMicro(price: real): int {
    NearestWhole(price * 1_000_000.0)
  }

  /** A whole number of micro-units survives being written out as a decimal. */
  lemma MicroUnitsSurvive(micro: int)
    ensures ToMicro(FromMicro(micro)) == micro
  {
    assert FromMicro(micro) * 1_000_000.0 == micro as real;
  }
}
