/** Exact VND rounding of one priced energy amount (money.py). */
module Money {
  import opened Prelude

  // Energy is kept in micro-Wh, the resolution of the stored Numeric(24,6) columns.
  const UWH_PER_WH: int := 1_000_000
  const UWH_PER_KWH: int := 1_000_000_000

  /** Nearest integer to num/den; a tie goes away from zero. */
  function RoundHalfUp(num: int, den: int): (r: int)
    requires den > 0
  {
    var whole := Abs(num) / den;
    var remainder := Abs(num) % den;
    var amount := whole + if 2 * remainder >= den then 1 else 0;
    if num < 0 then -amount else amount
  }

  /** `tien_dong`: micro-Wh times VND/kWh, in whole VND. */
  function RoundedVnd(energy: int, price: int): int {
    RoundHalfUp(energy * price, UWH_PER_KWH)
  }

  /** The integer characterised without division: it brackets num between the two half-way points. */
  ghost predicate IsNearest(r: int, num: int, den: int) {
    if num >= 0 then r >= 0 && (2 * r - 1) * den <= 2 * num < (2 * r + 1) * den
    else r <= 0 && (2 * r - 1) * den < 2 * num <= (2 * r + 1) * den
  }

  lemma MulOrder(a: int, b: int, k: int)
    requires k > 0
    ensures a < b ==> a * k + k <= b * k
    ensures a <= b <==> a * k <= b * k
    ensures a < b <==> a * k < b * k
  {
    var d := b - a;
    assert b * k == a * k + d * k;
    if d >= 1 {
      assert d * k >= k;
    } else if d <= -1 {
      assert d * k <= -k;
    }
  }

  lemma DivMod(a: nat, den: int)
    requires den > 0
    ensures a == (a / den) * den + a % den && 0 <= a % den < den && a / den >= 0
  {
  }

  lemma RoundIsNearest(num: int, den: int)
    requires den > 0
    ensures IsNearest(RoundHalfUp(num, den), num, den)
  {
    var a := Abs(num);
    DivMod(a, den);
    var whole, rem := a / den, a % den;
    QuotientIsNearest(a, den, whole, rem);
    if num < 0 {
      NearestNegated(whole + if 2 * rem >= den then 1 else 0, a, den);
    }
  }

  lemma NearestNegated(r: int, num: int, den: int)
    requires den > 0 && num > 0 && IsNearest(r, num, den)
    ensures IsNearest(-r, -num, den)
  {
    Distribute(r, den);
    Distribute(-r, den);
    MulNeg(r, den);
  }

  lemma QuotientIsNearest(a: nat, den: int, whole: int, rem: int)
    requires den > 0 && a == whole * den + rem && 0 <= rem < den && whole >= 0
    ensures IsNearest(whole + if 2 * rem >= den then 1 else 0, a, den)
  {
    Distribute(whole, den);
    Distribute(whole + 1, den);
    assert (whole + 1) * den == whole * den + den;
  }

  lemma MulNeg(x: int, y: int)
    ensures (-x) * y == -(x * y)
  {
  }

  lemma Distribute(q: int, den: int)
    ensures (2 * q - 1) * den == 2 * (q * den) - den
    ensures (2 * q + 1) * den == 2 * (q * den) + den
  {
  }

  /** Exactly one integer is nearest, so the bracket determines the rounding. */
  lemma NearestUnique(r: int, s: int, num: int, den: int)
    requires den > 0 && IsNearest(r, num, den) && IsNearest(s, num, den)
    ensures r == s
  {
    MulOrder(2 * r, 2 * s - 1, den);
    MulOrder(2 * s, 2 * r - 1, den);
    Distribute(r, den);
    Distribute(s, den);
    assert 2 * r * den == 2 * (r * den) && 2 * s * den == 2 * (s * den);
  }

  /** Scaling numerator and denominator together changes nothing, so a reduced
      `as_integer_ratio` and an unreduced micro-Wh count round alike. */
  lemma RoundScale(k: int, num: int, den: int)
    requires den > 0 && k > 0
    ensures den * k > 0
    ensures RoundHalfUp(num * k, den * k) == RoundHalfUp(num, den)
  {
    var r := RoundHalfUp(num, den);
    RoundIsNearest(num, den);
    MulOrder(0, den, k);
    NearestScale(r, k, num, den);
    RoundIsNearest(num * k, den * k);
    NearestUnique(r, RoundHalfUp(num * k, den * k), num * k, den * k);
  }

  lemma NearestScale(r: int, k: int, num: int, den: int)
    requires den > 0 && k > 0 && IsNearest(r, num, den)
    ensures IsNearest(r, num * k, den * k)
  {
    var lo, hi := (2 * r - 1) * den, (2 * r + 1) * den;
    MulOrder(lo, 2 * num, k);
    MulOrder(2 * num, hi, k);
    MulOrder(num, 0, k);
    MulAssoc(2 * r - 1, den, k);
    MulAssoc(2 * r + 1, den, k);
    MulAssoc(2, num, k);
  }

  lemma MulAssoc(a: int, b: int, c: int)
    ensures (a * b) * c == a * (b * c)
  {
  }

  lemma RoundMonotone(a: int, b: int, den: int)
    requires den > 0 && a <= b
    ensures RoundHalfUp(a, den) <= RoundHalfUp(b, den)
  {
    RoundIsNearest(a, den);
    RoundIsNearest(b, den);
    var r, s := RoundHalfUp(a, den), RoundHalfUp(b, den);
    MulOrder(2 * s, 2 * r - 1, den);
    Distribute(r, den);
    Distribute(s, den);
    assert 2 * s * den == 2 * (s * den);
  }

  lemma RoundOdd(a: int, den: int)
    requires den > 0
    ensures RoundHalfUp(-a, den) == -RoundHalfUp(a, den)
  {
  }

  /** More energy never costs less at a nonnegative rate. */
  lemma VndMonotone(e1: int, e2: int, price: int)
    requires e1 <= e2 && price >= 0
    ensures RoundedVnd(e1, price) <= RoundedVnd(e2, price)
  {
    assert e1 * price <= e2 * price;
    RoundMonotone(e1 * price, e2 * price, UWH_PER_KWH);
  }

  /** Each rounded amount is within half a dong of the exact price. */
  lemma VndHalfDong(energy: int, price: int)
    ensures 2 * Abs(UWH_PER_KWH * RoundedVnd(energy, price) - energy * price) <= UWH_PER_KWH
  {
    RoundIsNearest(energy * price, UWH_PER_KWH);
  }
}
