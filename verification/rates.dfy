/** Flat-rate arithmetic shared by the calculations: the share of an amount
    kept after a flat tax, grossing an amount up through such a tax, and the
    order facts about real products the proofs rely on. */
module Rates {

  /** The share of an amount that remains after a flat tax at `rate`
      (the `1 - rate` factor of the Python code). */
  function Retained(rate: real): real {
    1.0 - rate
  }

  /** What is left of `amount` after a flat tax at `rate`
      (`amount * (1 - rate)` in the Python code). */
  function AfterFlatTax(amount: real, rate: real): real {
    amount * Retained(rate)
  }

  /** The gross amount that leaves exactly `net` once taxed at `rate`
      (`net / (1 - rate)` in the Python code); undefined when the rate is 100 %. */
  function GrossUp(net: real, rate: real): (gross: real)
    requires rate != 1.0
    ensures AfterFlatTax(gross, rate) == net
  {
    net / Retained(rate)
  }

  /** Taxing an amount at `rate` leaves it multiplied by `Retained(rate)`. */
  lemma RetainedMul(x: real, rate: real)
    ensures x * Retained(rate) == x - x * rate
  {}

  lemma MulLeRight(k: real, p: real, q: real)
    requires 0.0 <= k && p <= q
    ensures p * k <= q * k
  {}

  lemma MulLtRight(k: real, p: real, q: real)
    requires 0.0 < k && p < q
    ensures p * k < q * k
  {}

  lemma MulLeLeft(x: real, a: real, b: real)
    requires 0.0 <= x && a <= b
    ensures x * a <= x * b
  {}

  /** Over a non-negative interval, a larger factor gives a larger increase. */
  lemma MulGap(a: real, b: real, p: real, q: real)
    requires a <= b && p <= q
    ensures q * a - p * a <= q * b - p * b
  {}

  /** A rate below 100 % leaves part of every increase untaxed. */
  lemma ShrinkBelowOne(rate: real, p: real, q: real)
    requires rate < 1.0 && p < q
    ensures q * rate - p * rate < q - p
  {
    MulLtRight(Retained(rate), p, q);
    RetainedMul(p, rate);
    RetainedMul(q, rate);
  }

  /** A flat tax at a rate in [0, 1] leaves between nothing and the whole
      of a non-negative amount. */
  lemma AfterFlatTaxBounds(amount: real, rate: real)
    requires 0.0 <= amount && 0.0 <= rate <= 1.0
    ensures 0.0 <= AfterFlatTax(amount, rate) <= amount
  {}

  /** Multiplication distributes over a difference. */
  lemma MulSubRight(a: real, b: real, k: real)
    ensures (a - b) * k == a * k - b * k
  {}

  /** Multiplication by a non-zero factor can be cancelled from an equation. */
  lemma MulCancelEq(k: real, p: real, q: real)
    requires k != 0.0 && p * k == q * k
    ensures p == q
  {}

  /** Grossing up undoes the flat tax: the gross amount that leaves
      `AfterFlatTax(x, rate)` is `x` itself. */
  lemma GrossUpAfterFlatTax(x: real, rate: real)
    requires rate != 1.0
    ensures GrossUp(AfterFlatTax(x, rate), rate) == x
  {
    MulCancelEq(Retained(rate), GrossUp(AfterFlatTax(x, rate), rate), x);
  }

  /** Multiplication by a positive factor can be cancelled from an inequality. */
  lemma MulCancelLe(k: real, p: real, q: real)
    requires 0.0 < k && p * k <= q * k
    ensures p <= q
  {
    if q < p {
      MulLtRight(k, q, p);
    }
  }
}
