/** Variants.tsx: the variant comparison page. Each card shows a total of
    catalog prices; the implementation phases are not in it, and the optimal
    total adds the three AI modules at fixed prices. */
module Variants {
  import opened Pricing
  import opened Quote
  import opened Specs

  /** The fixed prices of the three AI modules, added as written. */
  const ModulesPrice := 500000 + 750000 + 1200000

  /** `basicTotal`. */
  function BasicTotal(prices: map<string, Entry>): int {
    Times(prices, "graviton-h22i", 1) + Times(prices, "eltex-mes2300-24", 1)
    + Times(prices, "alt-linux", 1) + Times(prices, "postgres-pro", 4)
    + Times(prices, "ml-platform", 1) + Times(prices, "data-connectors", 1)
  }

  /** `optimalTotal`. */
  function OptimalTotal(prices: map<string, Entry>): int {
    Times(prices, "yadro-g4208p", 1) + Times(prices, "eltex-mes2300-24", 1)
    + Times(prices, "alt-linux", 1) + Times(prices, "postgres-pro", 4)
    + Times(prices, "alt-virtualization", 3) + Times(prices, "ml-platform", 1)
    + Times(prices, "data-connectors", 1)
    + 500000 + 750000 + 1200000
  }

  /** The basic total is the specification page's basic hardware plus
      software subtotals; the optimal total is its optimal hardware plus
      software subtotals plus 2 450 000 for the modules. Neither contains an
      implementation phase. */
  lemma TotalsAreSpecsSubtotals(prices: map<string, Entry>)
    ensures BasicTotal(prices) == BasicHardware(prices) + BasicSoftware(prices)
    ensures OptimalTotal(prices) == OptimalHardware(prices) + OptimalSoftware(prices) + 2450000
    ensures BasicTotal(prices) == BasicHeadline(prices) - BasicImplementation(prices)
  {
    HeadlinesSplit(prices);
  }

  /** An empty catalog leaves only the modules' fixed prices. */
  lemma EmptyCatalogTotals()
    ensures BasicTotal(map[]) == 0 && OptimalTotal(map[]) == ModulesPrice == 2450000
  {
  }

  /** With no negative price, the optimal total is at least the modules'
      2 450 000. */
  lemma OptimalAtLeastModules(prices: map<string, Entry>)
    requires forall id :: id in prices ==> prices[id].currentPrice >= 0
    ensures OptimalTotal(prices) >= 2450000
  {
  }
}
