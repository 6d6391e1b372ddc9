/** generate_proposal_v12.py: a proposal with a right-aligned page-number
    footer, two-level headings and two equipment tables (optimal, then basic),
    each a header row and one row per item, followed by a line with the sum of
    the items' subtotal column. */
module ProposalV12 {
  import opened Text
  import opened Grouping
  import opened WordGen

  /** One equipment line as the script lists it: the subtotal is given, not
      computed. */
  datatype Item = Item(name: string, qty: nat, price: nat, subtotal: nat)

  const Header: seq<string> := ["Наименование", "Кол-во", "Цена за ед. (₽)", "Сумма (₽)"]

  /** The cells of an item's row: name, quantity, and both amounts in the
      space-grouped format. */
  function ItemRow(it: Item): (r: seq<string>)
    ensures |r| == 4
  {
    [it.name, Digits(it.qty), Amount(it.price), Amount(it.subtotal)]
  }

  /** Every cell of an item's row reads back as what it shows: the name, the
      quantity, the price and the subtotal. */
  lemma ItemRowReads(it: Item)
    ensures ItemRow(it)[0] == it.name
    ensures Value(ItemRow(it)[1], ' ') == it.qty
    ensures Value(ItemRow(it)[2], ' ') == it.price && Value(ItemRow(it)[3], ' ') == it.subtotal
  {
    DigitsValue(it.qty, ' ');
  }

  /** The table: the header, then one row per item in order; no total row. */
  function ItemTable(items: seq<Item>): (rows: seq<seq<string>>)
    ensures |rows| == |items| + 1 && rows[0] == Header
    ensures forall k :: 0 <= k < |items| ==> rows[k + 1] == ItemRow(items[k])
  {
    var body := seq(|items|, k requires 0 <= k < |items| => ItemRow(items[k]));
    assert forall k :: 0 <= k < |items| ==> ([Header] + body)[k + 1] == body[k];
    [Header] + body
  }

  /** The sum of the subtotal column over the first `n` items. */
  function SubtotalSum(items: seq<Item>, n: nat): nat
    requires n <= |items|
  {
    if n == 0 then 0 else SubtotalSum(items, n - 1) + items[n - 1].subtotal
  }

  /** The sum of quantity times price over the first `n` items. */
  function LineSum(items: seq<Item>, n: nat): nat
    requires n <= |items|
  {
    if n == 0 then 0 else LineSum(items, n - 1) + items[n - 1].qty * items[n - 1].price
  }

  function Subtotal(it: Item): nat { it.subtotal }

  /** The item loop of the script: the table and the subtotal column's sum. */
  method FillItemTable(items: seq<Item>) returns (rows: seq<seq<string>>, total: nat)
    ensures rows == ItemTable(items)
    ensures total == SubtotalSum(items, |items|)
  {
    rows, total := FillRows(Header, items, ItemRow, Subtotal);
    SumOfSubtotals(items, |items|);
    var t := ItemTable(items);
    assert |rows| == |t|;
    assert forall k :: 0 <= k < |rows| ==> rows[k] == t[k] by {
      forall k | 0 <= k < |rows| ensures rows[k] == t[k] {
        if k > 0 {
          assert rows[k] == ItemRow(items[k - 1]);
        }
      }
    }
  }

  lemma {:induction false} SumOfSubtotals(items: seq<Item>, n: nat)
    requires n <= |items|
    ensures SumOf(items, Subtotal, n) == SubtotalSum(items, n)
  {
    if n > 0 {
      SumOfSubtotals(items, n - 1);
    }
  }

  /** Where every subtotal is quantity times price, the subtotal column sums
      to the line totals. */
  lemma {:induction false} SubtotalsAreLineTotals(items: seq<Item>, n: nat)
    requires n <= |items|
    requires forall k :: 0 <= k < |items| ==> items[k].subtotal == items[k].qty * items[k].price
    ensures SubtotalSum(items, n) == LineSum(items, n)
  {
    if n > 0 {
      SubtotalsAreLineTotals(items, n - 1);
    }
  }

  /** The total is taken from the subtotal column: a line whose subtotal
      disagrees with its quantity and price is summed as given. */
  lemma TotalNotRecomputed()
    ensures var items := [Item("x", 2, 10, 10)];
      SubtotalSum(items, 1) == 10 && LineSum(items, 1) == 20
  {
  }

  function OptimalItems(): seq<Item> {
    [ Item("Сервер YADRO G4208P G3 (2x Intel Xeon 6526Y, 512GB RAM, 1x NVIDIA H100 80GB, 2x 960GB SSD, 12x 3.5\" LFF)", 1, 32151159, 32151159),
      Item("Коммутатор Eltex MES2300-24 (24x 1G, 4x 10G SFP+)", 1, 139000, 139000),
      Item("ИБП Ippon Innova RT 3000 (3000VA/2700W)", 1, 120000, 120000),
      Item("Шкаф телекоммуникационный 42U (ЦМО)", 1, 85000, 85000),
      Item("Комплект кабелей и монтажных материалов", 1, 50000, 50000) ]
  }

  function BasicItems(): seq<Item> {
    [ Item("Сервер Гравитон С2101И (2x Intel Xeon 4310, 128GB RAM, 2x 960GB SSD)", 1, 1200000, 1200000),
      Item("Коммутатор Eltex MES2300-24 (24x 1G, 4x 10G SFP+)", 1, 139000, 139000),
      Item("ИБП Ippon Smart Winner 2000 (2000VA)", 1, 65000, 65000),
      Item("Шкаф настенный 12U", 1, 25000, 25000) ]
  }

  /** In the script's data every subtotal is quantity times price, and the two
      totals are 32 545 159 and 1 429 000. */
  lemma DataTotals()
    ensures SubtotalSum(OptimalItems(), 5) == 32545159 && LineSum(OptimalItems(), 5) == 32545159
    ensures SubtotalSum(BasicItems(), 4) == 1429000 && LineSum(BasicItems(), 4) == 1429000
  {
  }

  const TotalPrefix: string := "\nИтого оборудование: "
  const TotalSuffix: string := " ₽"

  /** The paragraph after each table, formatted and then de-commaed as a
      whole, as the script does. */
  function TotalLine(total: nat): string {
    ReplaceAll(TotalPrefix + Grouped(total, ',') + TotalSuffix, ",", " ")
  }

  /** The total line is the label, the space-grouped total and the rouble
      sign; the number reads back as the total. */
  lemma TotalLineReads(total: nat)
    ensures TotalLine(total) == TotalPrefix + Amount(total) + TotalSuffix
    ensures Value(Amount(total), ' ') == total
  {
    assert NoCharFrom("\nИтого оборудование: ", ',', 16, false);
    assert NoCharFrom("\nИтого оборудование: ", ',', 8, false);
    assert NoCharFrom("\nИтого оборудование: ", ',', 0, false);
    assert NoCharFrom(" ₽", ',', 0, false);
    AmountInLine(TotalPrefix, total, TotalSuffix);
  }

  /** A heading run's style. */
  datatype HeadingStyle = HeadingStyle(bold: bool, sizePt: nat, rgb: (nat, nat, nat), spaceBeforePt: nat, spaceAfterPt: nat)

  /** `add_heading`: level 1 is 16 pt dark blue, every other level 14 pt grey. */
  function Heading(level: int): (s: HeadingStyle)
    ensures s.bold
    ensures level == 1 <==> s.sizePt == 16
    ensures level == 1 <==> s.rgb == (0, 51, 102)
    ensures level != 1 <==> s.rgb == (51, 51, 51)
    ensures s.spaceBeforePt > s.spaceAfterPt
  {
    if level == 1 then HeadingStyle(true, 16, (0, 51, 102), 18, 12)
    else HeadingStyle(true, 14, (51, 51, 51), 12, 6)
  }

  /** `set_footer`: the footer paragraph is right-aligned and gets one more
      run, "Страница " followed by the PAGE field. */
  method SetFooter(p: FooterParagraph)
    modifies p
    ensures p.alignment == Right
    ensures |p.runs| == |old(p.runs)| + 1 && p.runs[..|old(p.runs)|] == old(p.runs)
    ensures var r := p.runs[|p.runs| - 1]; fresh(r) && r.text == PageLabel && r.children == PageField()
  {
    p.alignment := Right;
    var r := p.AddRun();
    r.text := PageLabel;
    r.AddPageNumber();
  }
}
