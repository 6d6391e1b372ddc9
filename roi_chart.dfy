/** ROIChart.tsx: the payback chart. The capital cost of each variant is a
    sum of catalog prices; the chart holds 25 monthly points (months 0 to
    24) of cumulative cost for manual processing and for each variant, the
    break-even month of a variant is the first point where the manual cost
    reaches the variant's, and the cards print that month or '> 24 мес.'. */
module ROIChart {
  import opened Text
  import opened Pricing
  import opened Quote
  import opened Specs
  import Variants

  const Months := 24
  const BasicOpex := 50000
  const OptimalOpex := 80000
  const AiCostPerDoc := 5

  /** The sliders' initial values. */
  const DefaultDocVolume := 2000
  const DefaultManualCost := 150

  /** `basicCapex`. */
  function BasicCapex(prices: map<string, Entry>): int {
    Times(prices, "graviton-h22i", 1) + Times(prices, "eltex-mes2300-24", 1)
    + Times(prices, "alt-linux", 1) + Times(prices, "postgres-pro", 4)
    + Times(prices, "ml-platform", 1) + Times(prices, "data-connectors", 1)
    + Times(prices, "impl-basic-phase-1", 1) + Times(prices, "impl-basic-phase-2", 1)
    + Times(prices, "impl-basic-phase-3", 1)
  }

  /** `optimalCapex`, the AI modules at their fixed prices included. */
  function OptimalCapex(prices: map<string, Entry>): int {
    Times(prices, "yadro-g4208p", 1) + Times(prices, "eltex-mes2300-24", 1)
    + Times(prices, "alt-linux", 1) + Times(prices, "postgres-pro", 4)
    + Times(prices, "alt-virtualization", 3) + Times(prices, "ml-platform", 1)
    + Times(prices, "data-connectors", 1)
    + Times(prices, "impl-optimal-phase-1", 1) + Times(prices, "impl-optimal-phase-2", 1)
    + Times(prices, "impl-optimal-phase-3", 1)
    + 500000 + 750000 + 1200000
  }

  /** Each capital cost is the comparison page's total for the variant plus
      that variant's three implementation phases. */
  lemma CapexIsVariantsPlusPhases(prices: map<string, Entry>)
    ensures BasicCapex(prices) == Variants.BasicTotal(prices) + BasicImplementation(prices)
    ensures OptimalCapex(prices) == Variants.OptimalTotal(prices) + OptimalImplementation(prices)
  {
  }

  /** One point of the chart. */
  datatype Point = Point(month: int, manual: int, basic: int, optimal: int)

  /** The point for month `i`. */
  function PointAt(i: int, docVolume: int, manualCost: int, basicCapex: int, optimalCapex: int): Point {
    Point(i, i * docVolume * manualCost,
          basicCapex + i * BasicOpex + i * docVolume * AiCostPerDoc,
          optimalCapex + i * OptimalOpex + i * docVolume * AiCostPerDoc)
  }

  /** `data` is the chart for these inputs. */
  predicate IsSeries(data: seq<Point>, docVolume: int, manualCost: int, basicCapex: int, optimalCapex: int) {
    |data| == Months + 1 && forall i :: 0 <= i < |data| ==> data[i] == PointAt(i, docVolume, manualCost, basicCapex, optimalCapex)
  }

  /** The loop that fills the chart: months 0 to 24, in order. */
  method ChartData(docVolume: int, manualCost: int, basicCapex: int, optimalCapex: int) returns (data: seq<Point>)
    ensures IsSeries(data, docVolume, manualCost, basicCapex, optimalCapex)
  {
    data := [];
    var i := 0;
    while i <= Months
      invariant 0 <= i <= Months + 1 && |data| == i
      invariant forall j :: 0 <= j < i ==> data[j] == PointAt(j, docVolume, manualCost, basicCapex, optimalCapex)
    {
      var manualCumulative := i * docVolume * manualCost;
      var basicCumulative := basicCapex + i * BasicOpex + i * docVolume * AiCostPerDoc;
      var optimalCumulative := optimalCapex + i * OptimalOpex + i * docVolume * AiCostPerDoc;
      data := data + [Point(i, manualCumulative, basicCumulative, optimalCumulative)];
      i := i + 1;
    }
  }

  lemma MulMono(a: int, b: int, c: int)
    requires a <= b && c >= 0
    ensures a * c <= b * c
  {
  }

  /** With a non-negative volume and manual cost, all three series are
      non-decreasing in the month. */
  lemma SeriesMonotone(data: seq<Point>, docVolume: int, manualCost: int, basicCapex: int, optimalCapex: int, i: int, j: int)
    requires IsSeries(data, docVolume, manualCost, basicCapex, optimalCapex)
    requires docVolume >= 0 && manualCost >= 0
    requires 0 <= i <= j < |data|
    ensures data[i].manual <= data[j].manual
    ensures data[i].basic <= data[j].basic
    ensures data[i].optimal <= data[j].optimal
  {
    MulMono(i, j, docVolume * manualCost);
    assert i * docVolume * manualCost == i * (docVolume * manualCost);
    assert j * docVolume * manualCost == j * (docVolume * manualCost);
    MulMono(i, j, BasicOpex + docVolume * AiCostPerDoc);
    assert i * BasicOpex + i * docVolume * AiCostPerDoc == i * (BasicOpex + docVolume * AiCostPerDoc);
    assert j * BasicOpex + j * docVolume * AiCostPerDoc == j * (BasicOpex + docVolume * AiCostPerDoc);
    MulMono(i, j, OptimalOpex + docVolume * AiCostPerDoc);
    assert i * OptimalOpex + i * docVolume * AiCostPerDoc == i * (OptimalOpex + docVolume * AiCostPerDoc);
    assert j * OptimalOpex + j * docVolume * AiCostPerDoc == j * (OptimalOpex + docVolume * AiCostPerDoc);
  }

  /** Whether the manual cost has reached the variant's at a point. */
  predicate Reached(p: Point, v: Variant) {
    p.manual >= (if v == Basic then p.basic else p.optimal)
  }

  /** `data.find(d => d.manual >= d.<variant>)?.month`, searching from
      position `from`: the month of the first point that qualifies. */
  function BreakEven(data: seq<Point>, v: Variant, from: nat): (r: Option<int>)
    requires from <= |data|
    ensures r.None? <==> forall j :: from <= j < |data| ==> !Reached(data[j], v)
    ensures r.Some? ==> exists m :: (from <= m < |data| && Reached(data[m], v) && r.value == data[m].month
      && forall j :: from <= j < m ==> !Reached(data[j], v))
    decreases |data| - from
  {
    if from == |data| then None
    else if Reached(data[from], v) then Some(data[from].month)
    else BreakEven(data, v, from + 1)
  }

  /** On the chart the month of a point is its position, so the break-even
      month is the least month that qualifies. */
  lemma BreakEvenIsLeastMonth(data: seq<Point>, docVolume: int, manualCost: int, basicCapex: int, optimalCapex: int, v: Variant)
    requires IsSeries(data, docVolume, manualCost, basicCapex, optimalCapex)
    ensures BreakEven(data, v, 0).Some? ==>
      var m := BreakEven(data, v, 0).value;
      0 <= m <= Months && Reached(data[m], v) && forall j :: 0 <= j < m ==> !Reached(data[j], v)
  {
  }

  /** What a card prints: a month count, or '> 24 мес.' when the month is
      absent or 0, since 0 is falsy. */
  datatype Shown = MonthsShown(n: int) | Beyond

  function Display(breakEven: Option<int>): (s: Shown)
    ensures s == Beyond <==> breakEven.None? || breakEven.value == 0
  {
    if breakEven.Some? && breakEven.value != 0 then MonthsShown(breakEven.value) else Beyond
  }

  /** A variant whose capital cost is at most 0 (an empty catalog makes the
      basic one 0) breaks even at month 0, which the card prints as
      '> 24 мес.'. */
  lemma FreeVariantShownBeyond(data: seq<Point>, docVolume: int, manualCost: int, basicCapex: int, optimalCapex: int)
    requires IsSeries(data, docVolume, manualCost, basicCapex, optimalCapex)
    requires basicCapex <= 0
    ensures BreakEven(data, Basic, 0) == Some(0)
    ensures Display(BreakEven(data, Basic, 0)) == Beyond
  {
    assert Reached(data[0], Basic);
  }

  lemma EmptyCatalogBasicCapex()
    ensures BasicCapex(map[]) == 0
  {
  }

  /** With no negative price the optimal capital cost is positive, so the
      optimal break-even is never month 0 and never prints as 0. */
  lemma OptimalNeverMonthZero(prices: map<string, Entry>, data: seq<Point>, docVolume: int, manualCost: int)
    requires forall id :: id in prices ==> prices[id].currentPrice >= 0
    requires IsSeries(data, docVolume, manualCost, BasicCapex(prices), OptimalCapex(prices))
    ensures OptimalCapex(prices) >= 2450000
    ensures BreakEven(data, Optimal, 0) != Some(0)
  {
    assert !Reached(data[0], Optimal);
    if BreakEven(data, Optimal, 0).Some? {
      var m :| 0 <= m < |data| && Reached(data[m], Optimal) && BreakEven(data, Optimal, 0).value == data[m].month
        && forall j :: 0 <= j < m ==> !Reached(data[j], Optimal);
      assert m != 0;
    }
  }

  /** When the capital cost exceeds 24 months of what automation saves over
      manual work, no point qualifies and the card prints '> 24 мес.'. With
      the default sliders the basic saving is 240 000 a month, so any basic
      capital cost above 5 760 000 gives that. */
  lemma NoBreakEvenWithin(data: seq<Point>, docVolume: int, manualCost: int, basicCapex: int, optimalCapex: int)
    requires IsSeries(data, docVolume, manualCost, basicCapex, optimalCapex)
    requires basicCapex > 0 && basicCapex > Months * (docVolume * manualCost - BasicOpex - docVolume * AiCostPerDoc)
    ensures BreakEven(data, Basic, 0) == None
    ensures Display(BreakEven(data, Basic, 0)) == Beyond
  {
    var rate := docVolume * manualCost - BasicOpex - docVolume * AiCostPerDoc;
    forall j | 0 <= j < |data|
      ensures !Reached(data[j], Basic)
    {
      BasicGap(j, docVolume, manualCost, basicCapex, optimalCapex);
      if rate >= 0 {
        MulMono(j, Months, rate);
      } else {
        MulMono(0, j, -rate);
      }
    }
  }

  /** How far the manual cost is above the basic variant's at month `j`. */
  lemma BasicGap(j: int, docVolume: int, manualCost: int, basicCapex: int, optimalCapex: int)
    ensures var p := PointAt(j, docVolume, manualCost, basicCapex, optimalCapex);
      p.manual - p.basic == j * (docVolume * manualCost - BasicOpex - docVolume * AiCostPerDoc) - basicCapex
  {
    var rate := docVolume * manualCost - BasicOpex - docVolume * AiCostPerDoc;
    calc {
      j * rate;
      j * (docVolume * manualCost) - j * BasicOpex - j * (docVolume * AiCostPerDoc);
      j * docVolume * manualCost - j * BasicOpex - j * docVolume * AiCostPerDoc;
    }
  }

  lemma DefaultSaving()
    ensures DefaultDocVolume * DefaultManualCost - BasicOpex - DefaultDocVolume * AiCostPerDoc == 240000
    ensures Months * 240000 == 5760000
  {
  }

  /** The reference lines drawn: one at the basic break-even when it is
      truthy; the optimal break-even draws none. */
  function ReferenceLines(basicBreakEven: Option<int>, optimalBreakEven: Option<int>): (r: seq<int>)
    ensures |r| <= 1
    ensures |r| == 1 <==> Display(basicBreakEven).MonthsShown?
    ensures |r| == 1 ==> r[0] == basicBreakEven.value
  {
    if basicBreakEven.Some? && basicBreakEven.value != 0 then [basicBreakEven.value] else []
  }

  /** The optimal break-even has no say in the lines drawn. */
  lemma OptimalDrawsNoLine(basicBreakEven: Option<int>, a: Option<int>, b: Option<int>)
    ensures ReferenceLines(basicBreakEven, a) == ReferenceLines(basicBreakEven, b)
  {
  }
}
