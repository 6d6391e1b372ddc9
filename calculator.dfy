/** Calculator.tsx: the cost calculator page. It keeps a selection record
    with every item of both variants selected, toggles entries from check
    boxes, shows a badge total per variant, and exports a variant's selected
    items, priced, to the PDF generator. */
module Calculator {
  import opened Text
  import opened Pricing
  import opened Quote

  /** The initial selection record: every id either list uses, set. */
  function InitialSelection(): map<string, bool> {
    map[ "graviton-h22i" := true, "impl-basic-phase-1" := true, "impl-basic-phase-2" := true,
         "impl-basic-phase-3" := true, "yadro-g4208p" := true, "eltex-mes2300-24" := true,
         "alt-linux" := true, "postgres-pro" := true, "alt-virtualization" := true,
         "ml-platform" := true, "data-connectors" := true, "ai-module-ocr" := true,
         "ai-module-estimates" := true, "ai-module-video" := true, "impl-optimal-phase-1" := true,
         "impl-optimal-phase-2" := true, "impl-optimal-phase-3" := true ]
  }

  /** The basic export list. */
  function BasicList(): seq<Item> {
    [ Item("graviton-h22i", 1, Hardware, None),
      Item("eltex-mes2300-24", 1, Hardware, None),
      Item("alt-linux", 1, Software, None),
      Item("postgres-pro", 4, Software, None),
      Item("ml-platform", 1, Software, None),
      Item("data-connectors", 1, Software, None),
      Item("impl-basic-phase-1", 1, Implementation, None),
      Item("impl-basic-phase-2", 1, Implementation, None),
      Item("impl-basic-phase-3", 1, Implementation, None) ]
  }

  /** The optimal export list; the three AI modules carry fixed prices. */
  function OptimalList(): seq<Item> {
    [ Item("yadro-g4208p", 1, Hardware, None),
      Item("eltex-mes2300-24", 1, Hardware, None),
      Item("alt-linux", 1, Software, None),
      Item("postgres-pro", 4, Software, None),
      Item("alt-virtualization", 3, Software, None),
      Item("ml-platform", 1, Software, None),
      Item("data-connectors", 1, Software, None),
      Item("ai-module-ocr", 1, Software, Some(500000)),
      Item("ai-module-estimates", 1, Software, Some(750000)),
      Item("ai-module-video", 1, Software, Some(1200000)),
      Item("impl-optimal-phase-1", 1, Implementation, None),
      Item("impl-optimal-phase-2", 1, Implementation, None),
      Item("impl-optimal-phase-3", 1, Implementation, None) ]
  }

  function ListFor(v: Variant): seq<Item> {
    if v == Basic then BasicList() else OptimalList()
  }

  /** The export total as the loop accumulates it, over the first `n` listed
      items: the price times the quantity of each selected one. */
  function SelectedTotal(items: seq<Item>, sel: map<string, bool>, prices: map<string, Entry>, useFixed: bool, n: nat): int
    requires n <= |items|
  {
    if n == 0 then 0
    else
      var it := items[n - 1];
      SelectedTotal(items, sel, prices, useFixed, n - 1)
        + (if Selected(sel, it.id) then (if useFixed then Resolve(it, prices) else CatalogPrice(prices, it.id)) * it.qty else 0)
  }

  lemma {:induction false} TotalOfPrefix(a: seq<PricedItem>, b: seq<PricedItem>, n: nat)
    requires n <= |a|
    ensures Total(a + b, n) == Total(a, n)
  {
    if n > 0 {
      TotalOfPrefix(a, b, n - 1);
    }
  }

  /** The total of the exported items is the selected total. */
  lemma {:induction false} ChosenTotal(items: seq<Item>, sel: map<string, bool>, prices: map<string, Entry>, useFixed: bool, n: nat)
    requires n <= |items|
    ensures var c := Chosen(items, sel, prices, useFixed, n);
      Total(c, |c|) == SelectedTotal(items, sel, prices, useFixed, n)
  {
    if n > 0 {
      ChosenTotal(items, sel, prices, useFixed, n - 1);
      var prev := Chosen(items, sel, prices, useFixed, n - 1);
      var c := Chosen(items, sel, prices, useFixed, n);
      if Selected(sel, items[n - 1].id) {
        TotalOfPrefix(prev, c[|prev|..], |prev|);
        assert prev + c[|prev|..] == c;
      } else {
        assert c == prev;
      }
    }
  }

  /** The basic badge: each term is the catalog price (times 4 for the
      PostgreSQL cores) when its id is selected, else 0; a missing price
      counts 0. */
  function BasicBadge(sel: map<string, bool>, prices: map<string, Entry>): int {
    (if Selected(sel, "graviton-h22i") then CatalogPrice(prices, "graviton-h22i") else 0)
    + (if Selected(sel, "eltex-mes2300-24") then CatalogPrice(prices, "eltex-mes2300-24") else 0)
    + (if Selected(sel, "alt-linux") then CatalogPrice(prices, "alt-linux") else 0)
    + (if Selected(sel, "postgres-pro") then CatalogPrice(prices, "postgres-pro") * 4 else 0)
    + (if Selected(sel, "ml-platform") then CatalogPrice(prices, "ml-platform") else 0)
    + (if Selected(sel, "data-connectors") then CatalogPrice(prices, "data-connectors") else 0)
    + (if Selected(sel, "impl-basic-phase-1") then CatalogPrice(prices, "impl-basic-phase-1") else 0)
    + (if Selected(sel, "impl-basic-phase-2") then CatalogPrice(prices, "impl-basic-phase-2") else 0)
    + (if Selected(sel, "impl-basic-phase-3") then CatalogPrice(prices, "impl-basic-phase-3") else 0)
  }

  /** The optimal badge as written: alt-linux is counted twice, the AI
      modules at their fixed prices. */
  function OptimalBadge(sel: map<string, bool>, prices: map<string, Entry>): int {
    OptimalBadgeWith(sel, prices, 2)
  }

  /** The optimal badge with alt-linux counted `linuxQty` times. */
  function OptimalBadgeWith(sel: map<string, bool>, prices: map<string, Entry>, linuxQty: int): int {
    (if Selected(sel, "yadro-g4208p") then CatalogPrice(prices, "yadro-g4208p") else 0)
    + (if Selected(sel, "eltex-mes2300-24") then CatalogPrice(prices, "eltex-mes2300-24") else 0)
    + (if Selected(sel, "alt-linux") then CatalogPrice(prices, "alt-linux") * linuxQty else 0)
    + (if Selected(sel, "postgres-pro") then CatalogPrice(prices, "postgres-pro") * 4 else 0)
    + (if Selected(sel, "alt-virtualization") then CatalogPrice(prices, "alt-virtualization") * 3 else 0)
    + (if Selected(sel, "ml-platform") then CatalogPrice(prices, "ml-platform") else 0)
    + (if Selected(sel, "data-connectors") then CatalogPrice(prices, "data-connectors") else 0)
    + (if Selected(sel, "ai-module-ocr") then 500000 else 0)
    + (if Selected(sel, "ai-module-estimates") then 750000 else 0)
    + (if Selected(sel, "ai-module-video") then 1200000 else 0)
    + (if Selected(sel, "impl-optimal-phase-1") then CatalogPrice(prices, "impl-optimal-phase-1") else 0)
    + (if Selected(sel, "impl-optimal-phase-2") then CatalogPrice(prices, "impl-optimal-phase-2") else 0)
    + (if Selected(sel, "impl-optimal-phase-3") then CatalogPrice(prices, "impl-optimal-phase-3") else 0)
  }

  /** The optimal badge counting alt-linux once, as the export does. */
  function OptimalBadgeCorrected(sel: map<string, bool>, prices: map<string, Entry>): int {
    OptimalBadgeWith(sel, prices, 1)
  }

  /** For any selection and any prices, the basic badge is the basic export's
      total. */
  lemma BasicBadgeIsExport(sel: map<string, bool>, prices: map<string, Entry>)
    ensures var c := Chosen(BasicList(), sel, prices, false, 9);
      BasicBadge(sel, prices) == Total(c, |c|)
  {
    ChosenTotal(BasicList(), sel, prices, false, 9);
    var l := BasicList();
    assert SelectedTotal(l, sel, prices, false, 1) == (if Selected(sel, "graviton-h22i") then CatalogPrice(prices, "graviton-h22i") else 0);
    assert SelectedTotal(l, sel, prices, false, 2) == SelectedTotal(l, sel, prices, false, 1) + (if Selected(sel, "eltex-mes2300-24") then CatalogPrice(prices, "eltex-mes2300-24") else 0);
    assert SelectedTotal(l, sel, prices, false, 3) == SelectedTotal(l, sel, prices, false, 2) + (if Selected(sel, "alt-linux") then CatalogPrice(prices, "alt-linux") else 0);
    assert SelectedTotal(l, sel, prices, false, 4) == SelectedTotal(l, sel, prices, false, 3) + (if Selected(sel, "postgres-pro") then CatalogPrice(prices, "postgres-pro") * 4 else 0);
    assert SelectedTotal(l, sel, prices, false, 5) == SelectedTotal(l, sel, prices, false, 4) + (if Selected(sel, "ml-platform") then CatalogPrice(prices, "ml-platform") else 0);
    assert SelectedTotal(l, sel, prices, false, 6) == SelectedTotal(l, sel, prices, false, 5) + (if Selected(sel, "data-connectors") then CatalogPrice(prices, "data-connectors") else 0);
    assert SelectedTotal(l, sel, prices, false, 7) == SelectedTotal(l, sel, prices, false, 6) + (if Selected(sel, "impl-basic-phase-1") then CatalogPrice(prices, "impl-basic-phase-1") else 0);
    assert SelectedTotal(l, sel, prices, false, 8) == SelectedTotal(l, sel, prices, false, 7) + (if Selected(sel, "impl-basic-phase-2") then CatalogPrice(prices, "impl-basic-phase-2") else 0);
    assert SelectedTotal(l, sel, prices, false, 9) == SelectedTotal(l, sel, prices, false, 8) + (if Selected(sel, "impl-basic-phase-3") then CatalogPrice(prices, "impl-basic-phase-3") else 0);
  }

  /** The optimal export total, term by term: the badge counting alt-linux
      once. */
  lemma OptimalExportTerms(sel: map<string, bool>, prices: map<string, Entry>)
    ensures SelectedTotal(OptimalList(), sel, prices, true, 13) == OptimalBadgeCorrected(sel, prices)
  {
    var l := OptimalList();
    assert SelectedTotal(l, sel, prices, true, 1) == (if Selected(sel, "yadro-g4208p") then CatalogPrice(prices, "yadro-g4208p") else 0);
    assert SelectedTotal(l, sel, prices, true, 2) == SelectedTotal(l, sel, prices, true, 1) + (if Selected(sel, "eltex-mes2300-24") then CatalogPrice(prices, "eltex-mes2300-24") else 0);
    assert SelectedTotal(l, sel, prices, true, 3) == SelectedTotal(l, sel, prices, true, 2) + (if Selected(sel, "alt-linux") then CatalogPrice(prices, "alt-linux") else 0);
    assert SelectedTotal(l, sel, prices, true, 4) == SelectedTotal(l, sel, prices, true, 3) + (if Selected(sel, "postgres-pro") then CatalogPrice(prices, "postgres-pro") * 4 else 0);
    assert SelectedTotal(l, sel, prices, true, 5) == SelectedTotal(l, sel, prices, true, 4) + (if Selected(sel, "alt-virtualization") then CatalogPrice(prices, "alt-virtualization") * 3 else 0);
    assert SelectedTotal(l, sel, prices, true, 6) == SelectedTotal(l, sel, prices, true, 5) + (if Selected(sel, "ml-platform") then CatalogPrice(prices, "ml-platform") else 0);
    assert SelectedTotal(l, sel, prices, true, 7) == SelectedTotal(l, sel, prices, true, 6) + (if Selected(sel, "data-connectors") then CatalogPrice(prices, "data-connectors") else 0);
    assert SelectedTotal(l, sel, prices, true, 8) == SelectedTotal(l, sel, prices, true, 7) + (if Selected(sel, "ai-module-ocr") then 500000 else 0);
    assert SelectedTotal(l, sel, prices, true, 9) == SelectedTotal(l, sel, prices, true, 8) + (if Selected(sel, "ai-module-estimates") then 750000 else 0);
    assert SelectedTotal(l, sel, prices, true, 10) == SelectedTotal(l, sel, prices, true, 9) + (if Selected(sel, "ai-module-video") then 1200000 else 0);
    assert SelectedTotal(l, sel, prices, true, 11) == SelectedTotal(l, sel, prices, true, 10) + (if Selected(sel, "impl-optimal-phase-1") then CatalogPrice(prices, "impl-optimal-phase-1") else 0);
    assert SelectedTotal(l, sel, prices, true, 12) == SelectedTotal(l, sel, prices, true, 11) + (if Selected(sel, "impl-optimal-phase-2") then CatalogPrice(prices, "impl-optimal-phase-2") else 0);
    assert SelectedTotal(l, sel, prices, true, 13) == SelectedTotal(l, sel, prices, true, 12) + (if Selected(sel, "impl-optimal-phase-3") then CatalogPrice(prices, "impl-optimal-phase-3") else 0);
  }

  /** The optimal badge exceeds the optimal export total by alt-linux's
      price whenever alt-linux is selected. */
  lemma OptimalBadgeOvercounts(sel: map<string, bool>, prices: map<string, Entry>)
    ensures var c := Chosen(OptimalList(), sel, prices, true, 13);
      OptimalBadge(sel, prices) == Total(c, |c|) + (if Selected(sel, "alt-linux") then CatalogPrice(prices, "alt-linux") else 0)
  {
    ChosenTotal(OptimalList(), sel, prices, true, 13);
    OptimalExportTerms(sel, prices);
  }

  /** An input that shows it: only alt-linux selected, at its seed price of
      48 600. The badge reads 97 200; the exported proposal totals 48 600. */
  lemma OptimalBadgeDiffers()
    ensures var sel := map["alt-linux" := true];
      var prices := map["alt-linux" := Fresh("alt-linux", 48600)];
      var c := Chosen(OptimalList(), sel, prices, true, 13);
      OptimalBadge(sel, prices) == 97200 && Total(c, |c|) == 48600
  {
    var sel := map["alt-linux" := true];
    var prices := map["alt-linux" := Fresh("alt-linux", 48600)];
    OptimalBadgeOvercounts(sel, prices);
    OptimalBadgeCorrectedIsExport(sel, prices);
  }

  /** Counting alt-linux once, the optimal badge is the optimal export total
      for every selection and every prices. */
  lemma OptimalBadgeCorrectedIsExport(sel: map<string, bool>, prices: map<string, Entry>)
    ensures var c := Chosen(OptimalList(), sel, prices, true, 13);
      OptimalBadgeCorrected(sel, prices) == Total(c, |c|)
  {
    ChosenTotal(OptimalList(), sel, prices, true, 13);
    OptimalExportTerms(sel, prices);
  }

  /** `selectedItems[id] !== false`: the price display treats an absent id as
      selected. */
  predicate ShownSelected(sel: map<string, bool>, id: string) {
    !(id in sel && !sel[id])
  }

  /** `PriceDisplay`: nothing but a loading text while the catalog lacks the
      item; otherwise the price times the quantity if shown selected, else 0. */
  function Display(prices: map<string, Entry>, sel: map<string, bool>, id: string, qty: int): (r: Option<int>)
    ensures r.None? <==> id !in prices
    ensures r.Some? && ShownSelected(sel, id) ==> r.value == prices[id].currentPrice * qty
    ensures r.Some? && !ShownSelected(sel, id) ==> r.value == 0
  {
    if id !in prices then None
    else Some(if ShownSelected(sel, id) then prices[id].currentPrice * qty else 0)
  }

  /** The display and the export agree on an id the record holds, and differ
      only on an absent one (shown, not exported). */
  lemma DisplayVersusExport(sel: map<string, bool>, id: string)
    ensures id in sel ==> (ShownSelected(sel, id) <==> Selected(sel, id))
    ensures id !in sel ==> ShownSelected(sel, id) && !Selected(sel, id)
  {
  }

  /** Every id of both lists is in the record, initially and after any
      toggles. */
  predicate Covers(sel: map<string, bool>) {
    && (forall k :: 0 <= k < |BasicList()| ==> BasicList()[k].id in sel)
    && (forall k :: 0 <= k < |OptimalList()| ==> OptimalList()[k].id in sel)
  }

  /** Every entry of the initial record is set. */
  lemma InitialAllSelected()
    ensures forall id :: id in InitialSelection() ==> Selected(InitialSelection(), id)
  {
  }

  lemma InitialCoversBasic()
    ensures forall k :: 0 <= k < |BasicList()| ==> BasicList()[k].id in InitialSelection()
  {
    var b := BasicList();
    assert b[0].id == "graviton-h22i" && b[1].id == "eltex-mes2300-24" && b[2].id == "alt-linux";
    assert b[3].id == "postgres-pro" && b[4].id == "ml-platform" && b[5].id == "data-connectors";
    assert b[6].id == "impl-basic-phase-1" && b[7].id == "impl-basic-phase-2" && b[8].id == "impl-basic-phase-3";
  }

  lemma InitialCoversOptimal()
    ensures forall k :: 0 <= k < |OptimalList()| ==> OptimalList()[k].id in InitialSelection()
  {
    var o := OptimalList();
    assert o[0].id == "yadro-g4208p" && o[1].id == "eltex-mes2300-24" && o[2].id == "alt-linux";
    assert o[3].id == "postgres-pro" && o[4].id == "alt-virtualization" && o[5].id == "ml-platform";
    assert o[6].id == "data-connectors" && o[7].id == "ai-module-ocr";
    assert o[8].id == "ai-module-estimates" && o[9].id == "ai-module-video";
    assert o[10].id == "impl-optimal-phase-1" && o[11].id == "impl-optimal-phase-2" && o[12].id == "impl-optimal-phase-3";
  }

  /** The initial record covers both lists and selects everything. */
  lemma InitialCovers()
    ensures Covers(InitialSelection())
    ensures forall id :: id in InitialSelection() ==> Selected(InitialSelection(), id)
  {
    InitialAllSelected();
    InitialCoversBasic();
    InitialCoversOptimal();
  }

  /** The page's state: the selection record and which export, if any, is
      being generated. */
  class CalculatorPage {
    var selected: map<string, bool>
    var generating: Option<Variant>

    predicate Valid()
      reads this
    {
      Covers(selected)
    }

    constructor()
      ensures Valid() && selected == InitialSelection() && generating == None
    {
      selected := InitialSelection();
      generating := None;
      InitialCovers();
    }

    /** `toggleItem`. */
    method ToggleItem(id: string)
      requires Valid()
      modifies this
      ensures Valid() && selected == Toggle(old(selected), id) && generating == old(generating)
    {
      selected := selected[id := !(id in selected && selected[id])];
    }

    /** `handleDownloadProposal` up to the exporter call: the loop over the
        variant's list pushes each selected item with its price and adds
        price times quantity; then the generating flag is set. Both buttons
        are disabled while the flag is set, so the handler runs only when it
        is clear. */
    method StartDownload(variant: Variant, prices: map<string, Entry>) returns (p: Proposal)
      requires generating == None
      modifies this
      ensures generating == Some(variant) && selected == old(selected)
      ensures p.variant == variant
      ensures p.items == Chosen(ListFor(variant), selected, prices, variant == Optimal, |ListFor(variant)|)
      ensures p.totalPrice == SelectedTotal(ListFor(variant), selected, prices, variant == Optimal, |ListFor(variant)|)
    {
      var list := ListFor(variant);
      var items: seq<PricedItem> := [];
      var totalPrice := 0;
      for k := 0 to |list|
        invariant items == Chosen(list, selected, prices, variant == Optimal, k)
        invariant totalPrice == SelectedTotal(list, selected, prices, variant == Optimal, k)
      {
        var it := list[k];
        if it.id in selected && selected[it.id] {
          var price := if variant == Optimal then Resolve(it, prices) else CatalogPrice(prices, it.id);
          items := items + [WithPrice(it, price)];
          totalPrice := totalPrice + price * it.qty;
        }
      }
      generating := Some(variant);
      p := Proposal(variant, items, totalPrice);
    }

    /** The `finally` after the exporter call, reached whether or not it
        threw: the flag is cleared. */
    method FinishDownload()
      modifies this
      ensures generating == None && selected == old(selected)
    {
      generating := None;
    }
  }

  /** The exported total is the sum of price times quantity over the exported
      items. */
  lemma ExportTotal(variant: Variant, sel: map<string, bool>, prices: map<string, Entry>)
    ensures var n := |ListFor(variant)|; var c := Chosen(ListFor(variant), sel, prices, variant == Optimal, n);
      SelectedTotal(ListFor(variant), sel, prices, variant == Optimal, n) == Total(c, |c|)
  {
    ChosenTotal(ListFor(variant), sel, prices, variant == Optimal, |ListFor(variant)|);
  }
}
