/** The two ways for a company owner to buy a property
    (src/app/calculations/investment_options.py): buying personally with
    dividends taxed at the flat rate, or renting the property from an SCI
    (a property company subject to corporate tax) that pays the rent back as
    dividends. Each option is a constructor holding the fields its Python
    constructor stores; `calculate()` is the function `Calculate`. */
module InvestmentOptions {
  import opened Results
  import opened Rates
  import CorporateTax

  /** `PersonalPurchase(property_price, dividend_tax_rate)` and
      `SCIInvestment(rent_per_month, corporate_tax_rate, dividend_tax_rate, years)`. */
  datatype InvestmentOption =
    | PersonalPurchase(propertyPrice: real, dividendTaxRate: real)
    | SCIInvestment(rentPerMonth: real, corporateTaxRate: real, dividendTaxRate: real, years: int)

  /** The dictionaries the two `calculate()` methods return, one constructor
      per option, one field per key. */
  datatype Report =
    | PersonalReport(grossDividendsNeeded: real, totalTaxPaid: real)
    | SciReport(annualRent: real, netDividendsReceived: real, netAnnualCost: real,
                totalCostOverYears: real)

  /** `PersonalPurchase.calculate`: the gross dividends whose flat tax leaves
      exactly the property price, and that tax. */
  function PersonalCalculate(propertyPrice: real, dividendTaxRate: real): (r: Result<Report>)
    ensures r.Failure? <==> dividendTaxRate == 1.0
    ensures r.Success? ==> r.value.PersonalReport?
    ensures r.Success? ==> r.value.totalTaxPaid == r.value.grossDividendsNeeded * dividendTaxRate
    ensures r.Success? ==> r.value.grossDividendsNeeded - r.value.totalTaxPaid == propertyPrice
  {
    if dividendTaxRate == 1.0 then
      Failure(DivisionByZero)
    else
      var grossDividendsNeeded := GrossUp(propertyPrice, dividendTaxRate);
      var totalTaxPaid := grossDividendsNeeded * dividendTaxRate;
      Success(PersonalReport(grossDividendsNeeded, totalTaxPaid))
  }

  /** `SCIInvestment.calculate`: the yearly rent, what comes back of it as
      dividends after the flat corporate rate and the flat dividend rate, the
      yearly net cost, and that cost over the whole period. */
  function SciCalculate(rentPerMonth: real, corporateTaxRate: real, dividendTaxRate: real,
                        years: int): (rep: Report)
    ensures rep.SciReport?
    ensures rep.annualRent == 12.0 * rentPerMonth
    ensures rep.netDividendsReceived
         == AfterFlatTax(AfterFlatTax(rep.annualRent, corporateTaxRate), dividendTaxRate)
    ensures rep.netAnnualCost + rep.netDividendsReceived == rep.annualRent
    ensures rep.totalCostOverYears == rep.netAnnualCost * (years as real)
    ensures rep.netAnnualCost
         == rep.annualRent * (corporateTaxRate + dividendTaxRate - corporateTaxRate * dividendTaxRate)
    ensures 0.0 <= rentPerMonth && 0.0 <= corporateTaxRate <= 1.0 && 0.0 <= dividendTaxRate <= 1.0
            ==> 0.0 <= rep.netAnnualCost <= rep.annualRent
  {
    var annualRent := rentPerMonth * 12.0;
    var sciProfitAfterTax := AfterFlatTax(annualRent, corporateTaxRate);
    var netDividendsReceived := AfterFlatTax(sciProfitAfterTax, dividendTaxRate);
    var netAnnualCost := annualRent - netDividendsReceived;
    RetainedMul(annualRent, corporateTaxRate);
    RetainedMul(sciProfitAfterTax, dividendTaxRate);
    assert 0.0 <= rentPerMonth && 0.0 <= corporateTaxRate <= 1.0 && 0.0 <= dividendTaxRate <= 1.0
           ==> 0.0 <= netAnnualCost <= annualRent by {
      if 0.0 <= rentPerMonth && 0.0 <= corporateTaxRate <= 1.0 && 0.0 <= dividendTaxRate <= 1.0 {
        AfterFlatTaxBounds(annualRent, corporateTaxRate);
        AfterFlatTaxBounds(sciProfitAfterTax, dividendTaxRate);
      }
    }
    var totalCostOverYears := netAnnualCost * (years as real);
    SciReport(annualRent, netDividendsReceived, netAnnualCost, totalCostOverYears)
  }

  /** `InvestmentOption.calculate`, dispatched on the option. Only the personal
      purchase divides, so only it can fail, and only at a 100 % dividend rate. */
  function Calculate(option: InvestmentOption): (r: Result<Report>)
    ensures r.Failure? <==> option.PersonalPurchase? && option.dividendTaxRate == 1.0
    ensures r.Success? ==> (r.value.PersonalReport? <==> option.PersonalPurchase?)
  {
    match option
    case PersonalPurchase(propertyPrice, dividendTaxRate) =>
      PersonalCalculate(propertyPrice, dividendTaxRate)
    case SCIInvestment(rentPerMonth, corporateTaxRate, dividendTaxRate, years) =>
      Success(SciCalculate(rentPerMonth, corporateTaxRate, dividendTaxRate, years))
  }

  /** With a non-negative price and a dividend rate in [0, 1), the flat tax is
      non-negative and the gross dividends are at least the price. */
  lemma PersonalTaxNonNegative(propertyPrice: real, dividendTaxRate: real)
    requires 0.0 <= propertyPrice && 0.0 <= dividendTaxRate < 1.0
    ensures Calculate(PersonalPurchase(propertyPrice, dividendTaxRate)).Success?
    ensures 0.0 <= Calculate(PersonalPurchase(propertyPrice, dividendTaxRate)).value.totalTaxPaid
    ensures propertyPrice
         <= Calculate(PersonalPurchase(propertyPrice, dividendTaxRate)).value.grossDividendsNeeded
  {
    var gross := GrossUp(propertyPrice, dividendTaxRate);
    RetainedMul(gross, dividendTaxRate);
    if gross < 0.0 {
      MulLtRight(Retained(dividendTaxRate), gross, 0.0);
      assert false;
    }
    MulLeLeft(gross, 0.0, dividendTaxRate);
  }

  /** Without dividend tax the gross dividends are the price and no tax is paid. */
  lemma PersonalZeroRate(propertyPrice: real)
    ensures Calculate(PersonalPurchase(propertyPrice, 0.0)) == Success(PersonalReport(propertyPrice, 0.0))
  {}

  /** A 300 000 € property at a 30 % dividend rate needs 300 000 / 0.7 € of
      gross dividends, of which 90 000 / 0.7 € is flat tax. */
  lemma PersonalScenario()
    ensures Calculate(PersonalPurchase(300000.0, 0.3))
         == Success(PersonalReport(3000000.0 / 7.0, 900000.0 / 7.0))
  {
    assert GrossUp(300000.0, 0.3) == 3000000.0 / 7.0;
  }

  /** With both rates at zero the dividends give the whole rent back: the net
      cost is zero every year and over the period. */
  lemma SciZeroRates(rentPerMonth: real, years: int)
    ensures SciCalculate(rentPerMonth, 0.0, 0.0, years).netAnnualCost == 0.0
    ensures SciCalculate(rentPerMonth, 0.0, 0.0, years).totalCostOverYears == 0.0
  {}

  /** Over zero years the total cost is zero: no setup cost is added. */
  lemma SciZeroYears(rentPerMonth: real, corporateTaxRate: real, dividendTaxRate: real)
    ensures SciCalculate(rentPerMonth, corporateTaxRate, dividendTaxRate, 0).totalCostOverYears == 0.0
  {}

  /** 700 € a month at 15 % corporate and 30 % dividend tax over 20 years:
      8 400 € of rent a year, 4 998 € back as dividends, 3 402 € of net cost a
      year and 68 040 € over the period. */
  lemma SciScenario()
    ensures SciCalculate(700.0, 0.15, 0.3, 20) == SciReport(8400.0, 4998.0, 3402.0, 68040.0)
  {}

  /** The flat corporate rate agrees with the bracket schedule as long as the
      yearly rent stays within the reduced bracket and the flat rate is the
      reduced rate: the dividends are then the after-tax profit of the
      schedule, less dividend tax. */
  lemma FlatRateMatchesReducedBracket(rentPerMonth: real, dividendTaxRate: real, years: int,
                                      s: CorporateTax.Schedule)
    requires rentPerMonth * 12.0 <= s.threshold
    ensures SciCalculate(rentPerMonth, s.reducedRate, dividendTaxRate, years).netDividendsReceived
         == AfterFlatTax(CorporateTax.AfterTax(rentPerMonth * 12.0, s), dividendTaxRate)
  {
    RetainedMul(rentPerMonth * 12.0, s.reducedRate);
  }
}
