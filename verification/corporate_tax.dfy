/** French corporate income tax ("impôt sur les sociétés") with two brackets:
    a reduced rate on profit up to a threshold and a normal rate above it
    (src/app/calculations/impot_societe_from_CA.py). */
module CorporateTax {
  import opened Rates

  /** The bracket parameters: profit threshold, reduced rate, normal rate. */
  datatype Schedule = Schedule(threshold: real, reducedRate: real, normalRate: real)

  /** The default schedule of article 219 of the Code général des impôts:
      15 % up to 42 500 €, 25 % above. */
  const Default: Schedule := Schedule(42500.0, 0.15, 0.25)

  function Min(a: real, b: real): real { if a <= b then a else b }

  function Max(a: real, b: real): real { if a <= b then b else a }

  /** Reference definition by slices: the reduced rate is owed on the part of
      the profit that lies below the threshold, the normal rate on the part
      above it. */
  function BracketSum(grossProfit: real, s: Schedule): real {
    s.reducedRate * Min(grossProfit, s.threshold)
      + s.normalRate * Max(grossProfit - s.threshold, 0.0)
  }

  /** `calculate_corporate_tax`: the tax owed on `grossProfit`. */
  function Tax(grossProfit: real, s: Schedule): (tax: real)
    ensures tax == BracketSum(grossProfit, s)
  {
    if grossProfit <= s.threshold then
      grossProfit * s.reducedRate
    else
      var taxBelowThreshold := s.threshold * s.reducedRate;
      var taxAboveThreshold := (grossProfit - s.threshold) * s.normalRate;
      taxBelowThreshold + taxAboveThreshold
  }

  /** The profit left to the company once the tax is paid. */
  function AfterTax(grossProfit: real, s: Schedule): real {
    grossProfit - Tax(grossProfit, s)
  }

  /** Above the threshold the tax is affine in the profit with slope `normalRate`. */
  lemma TaxAbove(p: real, s: Schedule)
    requires s.threshold < p
    ensures Tax(p, s) == s.threshold * s.reducedRate + p * s.normalRate - s.threshold * s.normalRate
  {}

  /** Between any two profits p <= q the tax grows by at least the smaller rate
      and at most the larger rate times q - p. This is the Lipschitz continuity
      of the schedule (no jump at the threshold) and, with non-negative rates,
      its monotonicity. */
  lemma TaxSlopeBounds(p: real, q: real, s: Schedule)
    requires p <= q
    ensures q * Min(s.reducedRate, s.normalRate) - p * Min(s.reducedRate, s.normalRate)
         <= Tax(q, s) - Tax(p, s)
    ensures Tax(q, s) - Tax(p, s)
         <= q * Max(s.reducedRate, s.normalRate) - p * Max(s.reducedRate, s.normalRate)
  {
    var r, n, t := s.reducedRate, s.normalRate, s.threshold;
    var lo, hi := Min(r, n), Max(r, n);
    if q <= t {
      MulGap(lo, r, p, q);
      MulGap(r, hi, p, q);
    } else if t < p {
      TaxAbove(p, s);
      TaxAbove(q, s);
      MulGap(lo, n, p, q);
      MulGap(n, hi, p, q);
    } else {
      TaxAbove(q, s);
      MulGap(lo, r, p, t);
      MulGap(lo, n, t, q);
      MulGap(r, hi, p, t);
      MulGap(n, hi, t, q);
    }
  }

  /** With non-negative rates, more profit never means less tax. */
  lemma TaxMonotone(p: real, q: real, s: Schedule)
    requires 0.0 <= s.reducedRate && 0.0 <= s.normalRate
    requires p <= q
    ensures Tax(p, s) <= Tax(q, s)
  {
    TaxSlopeBounds(p, q, s);
    MulLeRight(Min(s.reducedRate, s.normalRate), p, q);
  }

  /** The tax at the threshold itself is the reduced rate on the whole
      threshold, the value both branch formulas give there. Continuity across
      the threshold is `TaxSlopeBounds`. */
  lemma TaxContinuousAtThreshold(s: Schedule)
    ensures Tax(s.threshold, s) == s.threshold * s.reducedRate
  {}

  /** For a non-negative profit and rates ordered 0 <= reduced <= normal <= 1,
      the tax lies between the reduced and the normal rate applied to the whole
      profit, and never exceeds the profit. */
  lemma TaxBounds(p: real, s: Schedule)
    requires 0.0 <= p && 0.0 <= s.threshold
    requires 0.0 <= s.reducedRate <= s.normalRate <= 1.0
    ensures 0.0 <= p * s.reducedRate <= Tax(p, s)
    ensures Tax(p, s) <= p * s.normalRate <= p
  {
    var r, n, t := s.reducedRate, s.normalRate, s.threshold;
    MulLeLeft(p, 0.0, r);
    MulLeLeft(p, n, 1.0);
    if p <= t {
      MulLeLeft(p, r, n);
    } else {
      TaxAbove(p, s);
      MulGap(r, n, t, p);
      MulLeLeft(t, r, n);
    }
  }

  /** With both rates below 100 %, each extra euro of profit leaves something
      after tax: the after-tax profit is strictly increasing. */
  lemma AfterTaxStrictlyIncreasing(p: real, q: real, s: Schedule)
    requires s.reducedRate < 1.0 && s.normalRate < 1.0
    requires p < q
    ensures AfterTax(p, s) < AfterTax(q, s)
  {
    TaxSlopeBounds(p, q, s);
    ShrinkBelowOne(Max(s.reducedRate, s.normalRate), p, q);
  }

  /** The default schedule at the threshold and at the example profit of the
      module: 6 375 € on 42 500 €, and 6 375 + 57 500 x 0.25 = 20 750 € on 100 000 €. */
  lemma DefaultScheduleExamples()
    ensures Tax(42500.0, Default) == 6375.0
    ensures Tax(100000.0, Default) == 20750.0
  {}
}
