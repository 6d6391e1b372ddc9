/** ROICalculator.tsx: the savings calculator. From the monthly document
    volume, the manual cost per document and the error rate (the only inputs
    with controls) and three fixed assumptions it computes the annual
    savings, the payback period in months and the three-year ROI for the
    chosen tier, recomputing them whenever an input changes. Numbers are
    exact reals here, not IEEE doubles. */
module ROICalculator {
  import opened Text
  import opened Pricing
  import opened Quote

  const BasicCost := 7285000
  const OptimalCost := 21590000

  /** The inputs that have no control keep their initial values. */
  const AvgErrorCost: real := 5000.0
  const FraudRisk: real := 0.5
  const AvgFraudLoss: real := 500000.0

  /** The initial values of the inputs that have controls. */
  const DefaultDocVolume: real := 5000.0
  const DefaultAvgDocCost: real := 150.0
  const DefaultErrorRate: real := 3.0

  /** The investment of a tier. */
  function Investment(tier: Variant): int {
    if tier == Basic then BasicCost else OptimalCost
  }

  /** `laborSavings`: the manual cost less the 20 % that remains with the
      agent. */
  function LaborSavings(docVolume: real, avgDocCost: real): real {
    var manual := docVolume * avgDocCost * 12.0;
    manual - manual * 0.2
  }

  /** `errorSavings`: 95 % of the cost of a year's errors. */
  function ErrorSavings(docVolume: real, errorRate: real): real {
    docVolume * errorRate / 100.0 * 12.0 * AvgErrorCost * 0.95
  }

  /** The fraud term: a tenth of the loss on a year's risky documents. */
  function FraudSavings(docVolume: real): real {
    docVolume * 12.0 * (FraudRisk / 100.0) * AvgFraudLoss * 0.1
  }

  /** `totalAnnualSavings`, unrounded. */
  function TotalSavings(docVolume: real, avgDocCost: real, errorRate: real): real {
    LaborSavings(docVolume, avgDocCost) + ErrorSavings(docVolume, errorRate) + FraudSavings(docVolume)
  }

  /** `Number(x.toFixed(1))` on a non-negative value: the nearest tenth, a
      half rounded up. */
  function Tenths(x: real): (r: real)
    ensures x - 0.05 < r <= x + 0.05
  {
    Round(x * 10.0) as real / 10.0
  }

  /** The payback in months: the investment over the monthly savings, to a
      tenth; `None` stands for the `Infinity` a zero saving gives. */
  function Payback(tier: Variant, total: real): (r: Option<real>)
    ensures r.None? <==> total == 0.0
    ensures r.Some? ==> var exact := Investment(tier) as real / (total / 12.0);
      exact - 0.05 < r.value <= exact + 0.05
  {
    if total == 0.0 then None else Some(Tenths(Investment(tier) as real / (total / 12.0)))
  }

  /** The three-year ROI in percent: three years of savings against the
      investment plus two years of 10 % maintenance, rounded. */
  function Roi(tier: Variant, total: real): (r: int)
    ensures var cost := 1.2 * Investment(tier) as real;
      var exact := (3.0 * total - cost) / cost * 100.0;
      exact - 0.5 < r as real <= exact + 0.5
  {
    var investment := Investment(tier) as real;
    var threeYearCost := investment + investment * 0.1 * 2.0;
    Round((total * 3.0 - threeYearCost) / threeYearCost * 100.0)
  }

  /** Within the sliders' ranges (500 to 50 000 documents, 50 to 1 000
      roubles, an error rate of 0.1 to 10 %) the savings lie between
      240 000 and 915 000 000, so the payback is finite and at least a
      tenth of a month. */
  lemma SavingsBounds(docVolume: real, avgDocCost: real, errorRate: real, tier: Variant)
    requires 500.0 <= docVolume <= 50000.0 && 50.0 <= avgDocCost <= 1000.0 && 0.1 <= errorRate <= 10.0
    ensures 240000.0 <= TotalSavings(docVolume, avgDocCost, errorRate) <= 915000000.0
    ensures Payback(tier, TotalSavings(docVolume, avgDocCost, errorRate)).Some?
    ensures Payback(tier, TotalSavings(docVolume, avgDocCost, errorRate)).value >= 0.1
  {
    var total := TotalSavings(docVolume, avgDocCost, errorRate);
    RealMulBounds(docVolume, avgDocCost, 500.0, 50000.0, 50.0, 1000.0);
    RealMulBounds(docVolume, errorRate, 500.0, 50000.0, 0.1, 10.0);
    assert LaborSavings(docVolume, avgDocCost) == 9.6 * (docVolume * avgDocCost);
    assert ErrorSavings(docVolume, errorRate) == 570.0 * (docVolume * errorRate);
    assert FraudSavings(docVolume) == 3000.0 * docVolume;
    var monthly := total / 12.0;
    var months := Investment(tier) as real / monthly;
    assert months * monthly == Investment(tier) as real;
    assert months >= 0.09;
  }

  lemma RealMulBounds(x: real, y: real, xl: real, xh: real, yl: real, yh: real)
    requires 0.0 <= xl <= x <= xh && 0.0 <= yl <= y <= yh
    ensures xl * yl <= x * y <= xh * yh
  {
    assert xl * yl <= x * yl <= x * y;
    assert x * y <= xh * y <= xh * yh;
  }

  /** The calculator's state. */
  class Calculator {
    var docVolume: real
    var avgDocCost: real
    var errorRate: real
    var tier: Variant
    var annualSavings: int
    var paybackPeriod: Option<real>
    var roi: int

    /** The outputs are those of the current inputs. */
    predicate Valid()
      reads this
    {
      var total := TotalSavings(docVolume, avgDocCost, errorRate);
      && annualSavings == Round(total)
      && paybackPeriod == Payback(tier, total)
      && roi == Roi(tier, total)
    }

    /** The initial inputs, the optimal tier, and the outputs the first
        effect run sets. */
    constructor()
      ensures docVolume == DefaultDocVolume && avgDocCost == DefaultAvgDocCost && errorRate == DefaultErrorRate
      ensures tier == Optimal && Valid()
    {
      docVolume := DefaultDocVolume;
      avgDocCost := DefaultAvgDocCost;
      errorRate := DefaultErrorRate;
      tier := Optimal;
      annualSavings := 0;
      paybackPeriod := Some(0.0);
      roi := 0;
      new;
      CalculateROI();
    }

    /** `calculateROI`. */
    method CalculateROI()
      modifies this
      ensures docVolume == old(docVolume) && avgDocCost == old(avgDocCost) && errorRate == old(errorRate) && tier == old(tier)
      ensures Valid()
    {
      var totalAnnualSavings := TotalSavings(docVolume, avgDocCost, errorRate);
      annualSavings := Round(totalAnnualSavings);
      paybackPeriod := Payback(tier, totalAnnualSavings);
      roi := Roi(tier, totalAnnualSavings);
    }

    /** A slider or tab change, followed by the effect. */
    method SetInputs(newDocVolume: real, newAvgDocCost: real, newErrorRate: real, newTier: Variant)
      modifies this
      ensures docVolume == newDocVolume && avgDocCost == newAvgDocCost && errorRate == newErrorRate && tier == newTier
      ensures Valid()
    {
      docVolume := newDocVolume;
      avgDocCost := newAvgDocCost;
      errorRate := newErrorRate;
      tier := newTier;
      CalculateROI();
    }
  }

  /** With the initial inputs and the optimal tier: savings of 30 750 000, a
      payback of 8.4 months and an ROI of 256 %. */
  lemma Defaults()
    ensures TotalSavings(DefaultDocVolume, DefaultAvgDocCost, DefaultErrorRate) == 30750000.0
    ensures Round(30750000.0) == 30750000
    ensures Payback(Optimal, 30750000.0) == Some(8.4)
    ensures Roi(Optimal, 30750000.0) == 256
  {
    var p := 21590000.0 / (30750000.0 / 12.0) * 10.0 + 0.5;
    assert 84.0 <= p < 85.0;
    var q := (30750000.0 * 3.0 - 25908000.0) / 25908000.0 * 100.0 + 0.5;
    assert 256.0 <= q < 257.0;
  }
}
