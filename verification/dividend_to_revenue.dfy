/** The inverse of the corporate tax: the revenue a company must earn so that
    a target amount is left after corporate tax
    (src/app/calculations/from_dividend_to_CA.py). No expenses are modelled,
    so the revenue is the gross profit. */
module DividendToRevenue {
  import opened Results
  import opened Rates
  import opened CorporateTax

  /** The after-tax profit of a company earning exactly the threshold: the
      largest target reachable inside the reduced bracket. */
  function ReducedCeiling(s: Schedule): (c: real)
    ensures c == AfterTax(s.threshold, s)
  {
    AfterFlatTax(s.threshold, s.reducedRate)
  }

  /** `calculate_revenue_for_dividends`: gross up the target through the
      reduced bracket, or through the whole reduced bracket plus the normal
      rate on the rest. Python raises `ZeroDivisionError` when the branch taken
      divides by 1 - rate = 0; that is the `DivisionByZero` failure here. */
  function RevenueForDividends(netDividends: real, s: Schedule): (r: Result<real>)
    ensures r.Failure? <==>
              || (netDividends <= ReducedCeiling(s) && s.reducedRate == 1.0)
              || (ReducedCeiling(s) < netDividends && s.normalRate == 1.0)
  {
    var requiredProfit := netDividends;
    if requiredProfit <= ReducedCeiling(s) then
      if s.reducedRate == 1.0 then Failure(DivisionByZero)
      else Success(GrossUp(requiredProfit, s.reducedRate))
    else
      var remainingProfit := requiredProfit - ReducedCeiling(s);
      if s.normalRate == 1.0 then Failure(DivisionByZero)
      else Success(s.threshold + GrossUp(remainingProfit, s.normalRate))
  }

  /** Round trip: for any target and any rates below 100 %, the revenue found
      exists and, once taxed with the same schedule, leaves exactly the target. */
  lemma RoundTrip(netDividends: real, s: Schedule)
    requires s.reducedRate < 1.0 && s.normalRate < 1.0
    ensures RevenueForDividends(netDividends, s).Success?
    ensures AfterTax(RevenueForDividends(netDividends, s).value, s) == netDividends
  {
    var r, n, t := s.reducedRate, s.normalRate, s.threshold;
    var c := ReducedCeiling(s);
    if netDividends <= c {
      var v := GrossUp(netDividends, r);
      RetainedMul(v, r);
      MulCancelLe(Retained(r), v, t);
      assert Tax(v, s) == v * r;
    } else {
      var g := GrossUp(netDividends - c, n);
      RetainedMul(g, n);
      if g <= 0.0 {
        MulLeRight(Retained(n), g, 0.0);
        assert false;
      }
      TaxAbove(s.threshold + g, s);
    }
  }

  /** Above the threshold, what is left after tax beyond the reduced bracket's
      ceiling is the excess profit after a flat tax at the normal rate. */
  lemma ExcessAfterTax(grossProfit: real, s: Schedule)
    requires s.threshold < grossProfit
    ensures AfterTax(grossProfit, s) - ReducedCeiling(s)
         == AfterFlatTax(grossProfit - s.threshold, s.normalRate)
  {
    var r, n, t := s.reducedRate, s.normalRate, s.threshold;
    var excess := grossProfit - t;
    TaxAbove(grossProfit, s);
    RetainedMul(t, r);
    RetainedMul(excess, n);
    MulSubRight(grossProfit, t, n);
  }

  /** Reverse round trip: for any gross profit and rates below 100 %, asking
      for the revenue that leaves that profit's after-tax amount gives back the
      gross profit itself. */
  lemma ReverseRoundTrip(grossProfit: real, s: Schedule)
    requires s.reducedRate < 1.0 && s.normalRate < 1.0
    ensures RevenueForDividends(AfterTax(grossProfit, s), s) == Success(grossProfit)
  {
    var r, n, t := s.reducedRate, s.normalRate, s.threshold;
    var net := AfterTax(grossProfit, s);
    if grossProfit <= t {
      RetainedMul(grossProfit, r);
      MulLeRight(Retained(r), grossProfit, t);
      assert net == AfterFlatTax(grossProfit, r);
      assert net <= ReducedCeiling(s);
      GrossUpAfterFlatTax(grossProfit, r);
    } else {
      var excess := grossProfit - t;
      ExcessAfterTax(grossProfit, s);
      MulLtRight(Retained(n), 0.0, excess);
      GrossUpAfterFlatTax(excess, n);
      assert GrossUp(net - ReducedCeiling(s), n) == excess;
    }
  }

  /** At the top of the reduced bracket the revenue is exactly the threshold. */
  lemma RevenueAtBoundary(s: Schedule)
    requires s.reducedRate != 1.0
    ensures RevenueForDividends(ReducedCeiling(s), s) == Success(s.threshold)
  {
    GrossUpAfterFlatTax(s.threshold, s.reducedRate);
  }

  /** With the default schedule, 36 125 € after tax needs 42 500 € of revenue:
      the top of the 15 % bracket. */
  lemma DefaultRevenueAtBoundary()
    ensures ReducedCeiling(Default) == 36125.0
    ensures RevenueForDividends(36125.0, Default) == Success(42500.0)
  {
    RevenueAtBoundary(Default);
  }

  /** Grossing up never shrinks: with a non-negative threshold, rates in
      [0, 1) and a non-negative target, the revenue is at least the target. */
  lemma GrossUpNeverShrinks(netDividends: real, s: Schedule)
    requires 0.0 <= netDividends && 0.0 <= s.threshold
    requires 0.0 <= s.reducedRate < 1.0 && 0.0 <= s.normalRate < 1.0
    ensures RevenueForDividends(netDividends, s).Success?
    ensures netDividends <= RevenueForDividends(netDividends, s).value
  {
    RoundTrip(netDividends, s);
    var v := RevenueForDividends(netDividends, s).value;
    assert AfterTax(0.0, s) == 0.0;
    if v < 0.0 {
      AfterTaxStrictlyIncreasing(v, 0.0, s);
      assert false;
    }
    TaxMonotone(0.0, v, s);
  }

  /** A larger target always needs strictly more revenue. */
  lemma RevenueStrictlyIncreasing(a: real, b: real, s: Schedule)
    requires s.reducedRate < 1.0 && s.normalRate < 1.0
    requires a < b
    ensures RevenueForDividends(a, s).Success? && RevenueForDividends(b, s).Success?
    ensures RevenueForDividends(a, s).value < RevenueForDividends(b, s).value
  {
    RoundTrip(a, s);
    RoundTrip(b, s);
    var va, vb := RevenueForDividends(a, s).value, RevenueForDividends(b, s).value;
    if vb < va {
      AfterTaxStrictlyIncreasing(vb, va, s);
    }
  }
}
