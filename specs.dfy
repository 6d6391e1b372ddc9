/** Specs.tsx: the specification page. Its two summary cards show, for each
    variant, a headline total and three subtotals (hardware, software,
    implementation), each a sum of catalog prices in which a missing price
    counts 0. The page also keeps a selection record with a toggle, but no
    number it renders reads that record. */
module Specs {
  import opened Pricing
  import opened Quote

  /** The initial selection record. */
  function InitialSelection(): map<string, bool> {
    map[ "graviton-h22i" := true, "data-connectors" := true, "impl-basic-phase-1" := true,
         "impl-basic-phase-2" := true, "impl-basic-phase-3" := true, "yadro-g4208p" := true,
         "eltex-mes2300-24" := true, "alt-linux" := true, "postgres-pro" := true,
         "alt-virtualization" := true, "ml-platform" := true, "impl-optimal-phase-1" := true,
         "impl-optimal-phase-2" := true, "impl-optimal-phase-3" := true ]
  }

  /** `prices[id]?.currentPrice * m || 0` and `(prices[id]?.currentPrice || 0) * m`
      alike: a missing entry gives `NaN` in the first form and 0 in the
      second, and both then read as 0. */
  function Times(prices: map<string, Entry>, id: string, m: int): (r: int)
    ensures id !in prices ==> r == 0
    ensures id in prices ==> r == prices[id].currentPrice * m
  {
    CatalogPrice(prices, id) * m
  }

  function BasicHardware(prices: map<string, Entry>): int {
    Times(prices, "graviton-h22i", 1) + Times(prices, "eltex-mes2300-24", 1)
  }

  function BasicSoftware(prices: map<string, Entry>): int {
    Times(prices, "alt-linux", 1) + Times(prices, "postgres-pro", 4)
    + Times(prices, "ml-platform", 1) + Times(prices, "data-connectors", 1)
  }

  function BasicImplementation(prices: map<string, Entry>): int {
    Times(prices, "impl-basic-phase-1", 1) + Times(prices, "impl-basic-phase-2", 1)
    + Times(prices, "impl-basic-phase-3", 1)
  }

  /** The basic card's headline, term by term as the page writes it. */
  function BasicHeadline(prices: map<string, Entry>): int {
    Times(prices, "graviton-h22i", 1) + Times(prices, "eltex-mes2300-24", 1)
    + Times(prices, "alt-linux", 1) + Times(prices, "postgres-pro", 4)
    + Times(prices, "ml-platform", 1) + Times(prices, "data-connectors", 1)
    + Times(prices, "impl-basic-phase-1", 1) + Times(prices, "impl-basic-phase-2", 1)
    + Times(prices, "impl-basic-phase-3", 1)
  }

  function OptimalHardware(prices: map<string, Entry>): int {
    Times(prices, "yadro-g4208p", 1) + Times(prices, "eltex-mes2300-24", 1)
  }

  function OptimalSoftware(prices: map<string, Entry>): int {
    Times(prices, "alt-linux", 1) + Times(prices, "postgres-pro", 4)
    + Times(prices, "alt-virtualization", 3) + Times(prices, "ml-platform", 1)
    + Times(prices, "data-connectors", 1)
  }

  function OptimalImplementation(prices: map<string, Entry>): int {
    Times(prices, "impl-optimal-phase-1", 1) + Times(prices, "impl-optimal-phase-2", 1)
    + Times(prices, "impl-optimal-phase-3", 1)
  }

  /** The optimal card's headline, term by term as the page writes it; it
      has no term for the AI modules. */
  function OptimalHeadline(prices: map<string, Entry>): int {
    Times(prices, "yadro-g4208p", 1) + Times(prices, "eltex-mes2300-24", 1)
    + Times(prices, "alt-linux", 1) + Times(prices, "postgres-pro", 4)
    + Times(prices, "alt-virtualization", 3) + Times(prices, "ml-platform", 1)
    + Times(prices, "data-connectors", 1)
    + Times(prices, "impl-optimal-phase-1", 1) + Times(prices, "impl-optimal-phase-2", 1)
    + Times(prices, "impl-optimal-phase-3", 1)
  }

  /** Each headline is the sum of its card's three subtotals. */
  lemma HeadlinesSplit(prices: map<string, Entry>)
    ensures BasicHeadline(prices) == BasicHardware(prices) + BasicSoftware(prices) + BasicImplementation(prices)
    ensures OptimalHeadline(prices) == OptimalHardware(prices) + OptimalSoftware(prices) + OptimalImplementation(prices)
  {
  }

  /** The ids the optimal headline reads. */
  predicate OptimalHeadlineId(id: string) {
    id in {"yadro-g4208p", "eltex-mes2300-24", "alt-linux", "postgres-pro", "alt-virtualization",
           "ml-platform", "data-connectors", "impl-optimal-phase-1", "impl-optimal-phase-2", "impl-optimal-phase-3"}
  }

  /** The optimal headline does not move when an entry it does not read
      changes, such as an AI module's. */
  lemma OptimalHeadlineIgnores(prices: map<string, Entry>, id: string, e: Entry)
    requires !OptimalHeadlineId(id)
    ensures OptimalHeadline(prices[id := e]) == OptimalHeadline(prices)
  {
  }

  /** The AI modules are among the ids the optimal headline leaves out. */
  lemma ModulesExcluded()
    ensures !OptimalHeadlineId("ai-module-ocr")
    ensures !OptimalHeadlineId("ai-module-estimates")
    ensures !OptimalHeadlineId("ai-module-video")
  {
  }

  /** An empty catalog gives 0 everywhere, the multiplied terms included. */
  lemma EmptyCatalog()
    ensures BasicHeadline(map[]) == 0 && OptimalHeadline(map[]) == 0
  {
  }

  /** The page's state. The summaries are functions of the catalog alone. */
  class SpecsPage {
    var selected: map<string, bool>

    constructor()
      ensures selected == InitialSelection()
    {
      selected := InitialSelection();
    }

    /** `toggleItem`. */
    method ToggleItem(id: string)
      modifies this
      ensures selected == Toggle(old(selected), id)
    {
      selected := selected[id := !(id in selected && selected[id])];
    }
  }
}
