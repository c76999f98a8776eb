/**
 * Exact decimal amounts and the two-place, round-half-up quantization that
 * every monetary value of a checkout goes through (`_q2`).
 */
module Money {

  /** A decimal number `units / 10^places`, as Python's `Decimal` holds it. */
  datatype Decimal = Decimal(units: int, places: nat)

  /** An amount already given in cents. */
  function Cents(c: int): Decimal {
    Decimal(c, 2)
  }

  function Pow10(n: nat): (p: int)
    ensures p >= 1
  {
    if n == 0 then 1 else 10 * Pow10(n - 1)
  }

  function Abs(x: int): int {
    if x < 0 then -x else x
  }

  /**
   * `n / d` rounded to the nearest integer, halves away from zero
   * (Decimal's ROUND_HALF_UP).
   */
  function RoundHalfUp(n: int, d: int): int
    requires d > 0
  {
    if n >= 0 then (2 * n + d) / (2 * d) else -((-2 * n + d) / (2 * d))
  }

  /** RoundHalfUp is the nearest integer, on a tie the one of larger magnitude,
      and keeps the sign of `n`. */
  lemma RoundHalfUpNearest(n: int, d: int)
    requires d > 0
    ensures var r := RoundHalfUp(n, d);
            && 2 * Abs(n - r * d) <= d
            && (2 * Abs(n - r * d) == d ==> Abs(r * d) > Abs(n))
            && (n >= 0 ==> r >= 0)
            && (n <= 0 ==> r <= 0)
  {
    if n >= 0 {
      DivBounds(2 * n + d, 2 * d);
    } else {
      DivBounds(-2 * n + d, 2 * d);
    }
  }

  lemma DivBounds(a: int, b: int)
    requires a >= 0 && b > 0
    ensures b * (a / b) <= a < b * (a / b) + b
    ensures a / b >= 0
  {
  }

  /**
   * `_q2`: the decimal quantized to exactly two fractional digits with
   * round-half-up, returned as a whole number of cents.
   */
  function Q2(x: Decimal): int {
    if x.places <= 2 then x.units * Pow10(2 - x.places)
    else RoundHalfUp(x.units, Pow10(x.places - 2))
  }

  /** Q2 is the nearest cent to `x`, ties going away from zero. */
  lemma Q2Nearest(x: Decimal)
    ensures var cents := Q2(x);
            && 2 * Abs(x.units * 100 - cents * Pow10(x.places)) <= Pow10(x.places)
            && (2 * Abs(x.units * 100 - cents * Pow10(x.places)) == Pow10(x.places) ==>
                  Abs(cents * Pow10(x.places)) > Abs(x.units * 100))
  {
    if x.places <= 2 {
      Pow10Split(2 - x.places, x.places);
    } else {
      var d := Pow10(x.places - 2);
      Pow10Split(2, x.places - 2);
      assert Pow10(x.places) == 100 * d;
      RoundHalfUpNearest(x.units, d);
      ScaledNearest(x.units, Q2(x), d);
    }
  }

  /** Scaling numerator and denominator by 100 keeps `r` nearest to `n / d`. */
  lemma ScaledNearest(n: int, r: int, d: int)
    requires d > 0
    requires 2 * Abs(n - r * d) <= d
    requires 2 * Abs(n - r * d) == d ==> Abs(r * d) > Abs(n)
    ensures 2 * Abs(n * 100 - r * (100 * d)) <= 100 * d
    ensures 2 * Abs(n * 100 - r * (100 * d)) == 100 * d ==> Abs(r * (100 * d)) > Abs(n * 100)
  {
    ScaleBy100(n, r, d);
  }

  lemma {:induction false} Pow10Split(a: nat, b: nat)
    ensures Pow10(a) * Pow10(b) == Pow10(a + b)
  {
    if a > 0 {
      Pow10Split(a - 1, b);
    }
  }

  lemma ScaleBy100(n: int, r: int, d: int)
    requires d > 0
    ensures Abs(n * 100 - r * (100 * d)) == 100 * Abs(n - r * d)
    ensures Abs(r * (100 * d)) == 100 * Abs(r * d)
    ensures Abs(n * 100) == 100 * Abs(n)
  {
  }

  /** `_q2(c * pct / 100)`: an amount in cents times a percentage, rounded half up. */
  function ApplyPercent(c: int, pct: int): int {
    Q2(Decimal(c * pct, 4))
  }
}

/** Facts about `_q2` that the rest of the model relies on. */
module MoneyFacts {
  import opened Money

  /** The two postconditions of Q2 pin the result down: no other cent value meets them. */
  lemma Q2Unique(x: Decimal, c: int)
    requires 2 * Abs(x.units * 100 - c * Pow10(x.places)) <= Pow10(x.places)
    requires 2 * Abs(x.units * 100 - c * Pow10(x.places)) == Pow10(x.places)
             ==> Abs(c * Pow10(x.places)) > Abs(x.units * 100)
    ensures c == Q2(x)
  {
    var d := Pow10(x.places);
    var r := Q2(x);
    Q2Nearest(x);
    NearestUnique(x.units * 100, d, c, r, c * d, r * d);
  }

  /** Two integers `a`, `b` whose multiples `a * d`, `b * d` are both nearest
      to `n`, ties broken away from zero, are equal. */
  lemma NearestUnique(n: int, d: int, a: int, b: int, ad: int, bd: int)
    requires d > 0 && ad == a * d && bd == b * d
    requires 2 * Abs(n - ad) <= d && (2 * Abs(n - ad) == d ==> Abs(ad) > Abs(n))
    requires 2 * Abs(n - bd) <= d && (2 * Abs(n - bd) == d ==> Abs(bd) > Abs(n))
    ensures a == b
  {
    MultipleGap(a, b, d);
  }

  /** Distinct multiples of `d` lie at least `d` apart, and at least `2 * d`
      apart unless they are neighbours. */
  lemma MultipleGap(a: int, b: int, d: int)
    requires d > 0
    ensures a >= b + 2 ==> a * d >= b * d + 2 * d
    ensures b >= a + 2 ==> b * d >= a * d + 2 * d
    ensures a == b + 1 ==> a * d == b * d + d
    ensures b == a + 1 ==> b * d == a * d + d
  {
    if a >= b + 1 {
      FarMultiple(b, a - b, d);
    }
    if b >= a + 1 {
      FarMultiple(a, b - a, d);
    }
  }

  /** `(b + k) * d` lies `k * d` above `b * d`, which is at least `k` steps of `d`. */
  lemma FarMultiple(b: int, k: nat, d: int)
    requires d > 0
    ensures (b + k) * d == b * d + k * d
    ensures k >= 2 ==> k * d >= 2 * d
  {
    if k >= 2 {
      assert k * d == 2 * d + (k - 2) * d;
    }
  }

  /** Quantizing a value that already has two decimal places (whatever its
      trailing zeros) gives back that value. */
  lemma {:induction false} Q2OfWholeCents(c: int, extra: nat)
    ensures Q2(Decimal(c * Pow10(extra), extra + 2)) == c
  {
    var x := Decimal(c * Pow10(extra), extra + 2);
    Pow10Split(2, extra);
    assert x.units * 100 == c * Pow10(x.places);
    Q2Unique(x, c);
  }

  /** Quantizing whole cents changes nothing: the case of no trailing zeros. */
  lemma Q2OfCents(c: int)
    ensures Q2(Cents(c)) == c
  {
    Q2OfWholeCents(c, 0);
  }

  /** `_q2` is idempotent. */
  lemma Q2Idempotent(x: Decimal)
    ensures Q2(Cents(Q2(x))) == Q2(x)
  {
    Q2OfWholeCents(Q2(x), 0);
  }

  /** On non-negative amounts a percentage rounded half up is `(c * pct + 50) / 100`. */
  lemma ApplyPercentNonNegative(c: int, pct: int)
    requires c >= 0 && pct >= 0
    ensures ApplyPercent(c, pct) == (c * pct + 50) / 100
  {
    var x := Decimal(c * pct, 4);
    var r := (c * pct + 50) / 100;
    assert Pow10(4) == 10000;
    DivBounds(c * pct + 50, 100);
    Q2Unique(x, r);
  }

  /** A discount or a tax rate of at most 100% keeps a non-negative amount
      between zero and itself. */
  lemma ApplyPercentBounds(c: int, pct: int)
    requires c >= 0 && 0 <= pct <= 100
    ensures 0 <= ApplyPercent(c, pct) <= c
  {
    ApplyPercentNonNegative(c, pct);
    PercentOfAmount(c, pct);
    RoundedHundredths(c * pct, c);
  }

  lemma PercentOfAmount(c: int, pct: int)
    requires c >= 0 && 0 <= pct <= 100
    ensures 0 <= c * pct <= 100 * c
  {
    assert c * (100 - pct) >= 0;
  }

  lemma RoundedHundredths(n: int, c: int)
    requires 0 <= n <= 100 * c
    ensures 0 <= (n + 50) / 100 <= c
  {
    DivBounds(n + 50, 100);
  }
}
