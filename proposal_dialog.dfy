/** ProposalConfigDialog.tsx: the dialog that exports the commercial offer
    as DOCX. Two check boxes choose the variants; the download handler prices
    every item of each chosen variant's list (no selection filter), totals
    them, collects the variants basic first, and hands `{variants}` to the
    DOCX exporter, closing the dialog once the exporter's promise resolves. */
module ProposalDialog {
  import opened Text
  import opened Pricing
  import opened Quote
  import opened DocxProposal
  import Calculator

  /** `basicItems`. */
  function BasicItems(): seq<Item> {
    [ Item("graviton-h22i", 1, Hardware, None),
      Item("eltex-mes2300-24", 1, Hardware, None),
      Item("alt-linux", 1, Software, None),
      Item("postgres-pro", 4, Software, None),
      Item("ml-platform", 1, Software, None),
      Item("data-connectors", 1, Software, None),
      Item("impl-basic-phase-1", 1, Implementation, None),
      Item("impl-basic-phase-2", 1, Implementation, None),
      Item("impl-basic-phase-3", 1, Implementation, None) ]
  }

  /** `optimalItems`; the three AI modules carry fixed prices. */
  function OptimalItems(): seq<Item> {
    [ Item("yadro-g4208p", 1, Hardware, None),
      Item("eltex-mes2300-24", 1, Hardware, None),
      Item("alt-linux", 1, Software, None),
      Item("postgres-pro", 4, Software, None),
      Item("alt-virtualization", 3, Software, None),
      Item("ml-platform", 1, Software, None),
      Item("data-connectors", 1, Software, None),
      Item("ai-module-ocr", 1, Software, Some(500000)),
      Item("ai-module-estimates", 1, Software, Some(750000)),
      Item("ai-module-video", 1, Software, Some(1200000)),
      Item("impl-optimal-phase-1", 1, Implementation, None),
      Item("impl-optimal-phase-2", 1, Implementation, None),
      Item("impl-optimal-phase-3", 1, Implementation, None) ]
  }

  function ItemsOf(v: Variant): seq<Item> {
    if v == Basic then BasicItems() else OptimalItems()
  }

  /** The number of the first `n` items with a fixed price. */
  function FixedCount(items: seq<Item>, n: nat): nat
    requires n <= |items|
  {
    if n == 0 then 0 else FixedCount(items, n - 1) + (if items[n - 1].fixedPrice.Some? then 1 else 0)
  }

  /** The sum of the fixed prices among the first `n` items. */
  function FixedSum(items: seq<Item>, n: nat): int
    requires n <= |items|
  {
    if n == 0 then 0 else FixedSum(items, n - 1) + (if items[n - 1].fixedPrice.Some? then items[n - 1].fixedPrice.value else 0)
  }

  /** Basic has nine items and no fixed price; optimal has thirteen, three of
      them with fixed prices that add up to 2 450 000. */
  lemma ListFacts()
    ensures |BasicItems()| == 9 && NoFixedPrices(BasicItems())
    ensures |OptimalItems()| == 13 && FixedCount(OptimalItems(), 13) == 3 && FixedSum(OptimalItems(), 13) == 2450000
  {
    var o := OptimalItems();
    assert FixedCount(o, 7) == 0 && FixedSum(o, 7) == 0 by {
      assert FixedCount(o, 3) == 0 && FixedSum(o, 3) == 0;
    }
    assert FixedCount(o, 10) == 3 && FixedSum(o, 10) == 2450000;
  }

  /** The dialog's lists hold the same ids, quantities, categories and fixed
      prices as the calculator's export lists (the display names differ and
      are not part of the model). */
  lemma SameListsAsCalculator()
    ensures BasicItems() == Calculator.BasicList()
    ensures OptimalItems() == Calculator.OptimalList()
  {
  }

  /** One variant as `handleDownload` pushes it: every listed item, in list
      order, priced `fixedPrice || catalog || 0`, with the sum of price times
      quantity. */
  function Offer(v: Variant, prices: map<string, Entry>): (p: Proposal)
    ensures p.variant == v
    ensures |p.items| == |ItemsOf(v)|
    ensures forall k :: 0 <= k < |p.items| ==>
      p.items[k].id == ItemsOf(v)[k].id && p.items[k].qty == ItemsOf(v)[k].qty
      && p.items[k].price == Resolve(ItemsOf(v)[k], prices)
    ensures p.totalPrice == Total(p.items, |p.items|)
  {
    var items := PriceAll(ItemsOf(v), prices);
    Proposal(v, items, Total(items, |items|))
  }

  /** The dialog's offer is the calculator's export with the initial
      selection, where every item is selected: same items, same prices, same
      total. */
  lemma OfferIsFullExport(v: Variant, prices: map<string, Entry>)
    ensures var n := |Calculator.ListFor(v)|;
      var c := Calculator.ListFor(v);
      && Offer(v, prices).items == Chosen(c, Calculator.InitialSelection(), prices, v == Optimal, n)
      && Offer(v, prices).totalPrice == Calculator.SelectedTotal(c, Calculator.InitialSelection(), prices, v == Optimal, n)
  {
    SameListsAsCalculator();
    ListFacts();
    Calculator.InitialCovers();
    var c := Calculator.ListFor(v);
    ChosenAllPriced(c, Calculator.InitialSelection(), prices, v == Optimal, |c|);
    assert PriceAll(c, prices)[..|c|] == PriceAll(c, prices);
    Calculator.ChosenTotal(c, Calculator.InitialSelection(), prices, v == Optimal, |c|);
  }

  /** The variants of one click: basic first, each only when its box is
      checked. */
  function Variants(includeBasic: bool, includeOptimal: bool, prices: map<string, Entry>): (r: seq<Proposal>)
    ensures |r| == (if includeBasic then 1 else 0) + (if includeOptimal then 1 else 0)
    ensures forall k :: 0 <= k < |r| ==> r[k] == Offer(r[k].variant, prices)
    ensures includeBasic ==> r[0].variant == Basic
    ensures includeOptimal ==> r[|r| - 1].variant == Optimal
    ensures forall k :: 0 <= k < |r| ==> (r[k].variant == Basic ==> includeBasic) && (r[k].variant == Optimal ==> includeOptimal)
  {
    (if includeBasic then [Offer(Basic, prices)] else []) + (if includeOptimal then [Offer(Optimal, prices)] else [])
  }

  /** The label each pushed variant carries. */
  function Label(v: Variant): string {
    if v == Basic then "Базовый" else "Оптимальный"
  }

  /** The dialog's state. */
  class Dialog {
    var open: bool
    var includeBasic: bool
    var includeOptimal: bool

    /** Closed, with both variants checked. */
    constructor()
      ensures !open && includeBasic && includeOptimal
    {
      open := false;
      includeBasic := true;
      includeOptimal := true;
    }

    /** `onOpenChange`, the trigger and the cancel button. */
    method SetOpen(o: bool)
      modifies this
      ensures open == o && includeBasic == old(includeBasic) && includeOptimal == old(includeOptimal)
    {
      open := o;
    }

    method SetIncludeBasic(checked: bool)
      modifies this
      ensures includeBasic == checked && open == old(open) && includeOptimal == old(includeOptimal)
    {
      includeBasic := checked;
    }

    method SetIncludeOptimal(checked: bool)
      modifies this
      ensures includeOptimal == checked && open == old(open) && includeBasic == old(includeBasic)
    {
      includeOptimal := checked;
    }

    /** The download button is enabled unless both boxes are clear. */
    predicate CanDownload()
      reads this
    {
      includeBasic || includeOptimal
    }

    /** `handleDownload`, reachable only through the enabled button. The
        variants are collected and `{variants}` is handed to the exporter,
        which rejects; the `setOpen(false)` after the `await` is never
        reached. */
    method HandleDownload(prices: map<string, Entry>, fmt: int -> string, today: string, iso: string)
      returns (variants: seq<Proposal>, outcome: Outcome)
      requires CanDownload()
      modifies this
      ensures variants == Variants(includeBasic, includeOptimal, prices) && |variants| >= 1
      ensures outcome == Rejected
      ensures open == old(open) && includeBasic == old(includeBasic) && includeOptimal == old(includeOptimal)
    {
      variants := [];
      if includeBasic {
        var items := PriceAll(BasicItems(), prices);
        var totalPrice := Total(items, |items|);
        variants := variants + [Proposal(Basic, items, totalPrice)];
      }
      if includeOptimal {
        var items := PriceAll(OptimalItems(), prices);
        var totalPrice := Total(items, |items|);
        variants := variants + [Proposal(Optimal, items, totalPrice)];
      }
      outcome := Generate(VariantsOnly(variants), fmt, today, iso);
      // The rejection propagates out of the `await`: `open` keeps its value.
    }

    /** The handler as evidently intended: each chosen variant is exported
        on its own through the declared single-variant input, and the dialog
        closes once every export has saved. `name` stands for the lists'
        display names. */
    method HandleDownloadEach(prices: map<string, Entry>, fmt: int -> string, today: string, iso: string, name: string -> string)
      returns (outcomes: seq<Outcome>)
      requires CanDownload()
      modifies this
      ensures var vs := Variants(includeBasic, includeOptimal, prices);
        && |outcomes| == |vs| >= 1
        && forall k :: 0 <= k < |vs| ==> outcomes[k] == ExportOne(vs[k], name, fmt, today, iso)
      ensures forall k :: 0 <= k < |outcomes| ==> outcomes[k].Saved?
      ensures !open && includeBasic == old(includeBasic) && includeOptimal == old(includeOptimal)
    {
      var variants := Variants(includeBasic, includeOptimal, prices);
      outcomes := ExportEach(variants, name, fmt, today, iso);
      open := false;
    }
  }

  /** The loop of the intended handler: one single-variant export per
      variant, in order. */
  method ExportEach(variants: seq<Proposal>, name: string -> string, fmt: int -> string, today: string, iso: string)
    returns (outcomes: seq<Outcome>)
    ensures |outcomes| == |variants|
    ensures forall k :: 0 <= k < |variants| ==> outcomes[k] == ExportOne(variants[k], name, fmt, today, iso)
    ensures forall k :: 0 <= k < |outcomes| ==> outcomes[k].Saved?
  {
    outcomes := [];
    for k := 0 to |variants|
      invariant |outcomes| == k
      invariant forall j :: 0 <= j < k ==> outcomes[j] == ExportOne(variants[j], name, fmt, today, iso)
    {
      var outcome := ExportOne(variants[k], name, fmt, today, iso);
      outcomes := outcomes + [outcome];
    }
  }

  /** One variant exported through the declared single-variant input: the
      document is saved under the variant's file name. */
  function ExportOne(p: Proposal, name: string -> string, fmt: int -> string, today: string, iso: string): (r: Outcome)
    ensures r == Saved(Document(p.variant, Named(p.items, name), p.totalPrice, fmt, today), FileName(p.variant, iso))
  {
    Generate(Single(p.variant, Named(p.items, name), p.totalPrice), fmt, today, iso)
  }

  /** With both boxes checked, the intended handler writes two files whose
      names differ by the variant, where the handler as written writes none. */
  lemma BothVariantsExported(prices: map<string, Entry>, fmt: int -> string, today: string, iso: string)
    ensures var vs := Variants(true, true, prices);
      && |vs| == 2 && vs[0].variant == Basic && vs[1].variant == Optimal
      && FileName(vs[0].variant, iso) != FileName(vs[1].variant, iso)
      && Generate(VariantsOnly(vs), fmt, today, iso) == Rejected
  {
    var a := FileName(Basic, iso);
    var b := FileName(Optimal, iso);
    assert a[20] == 'b' && b[20] == 'o';
  }
}
