/** generate_proposal_v13.py: a single-variant proposal whose hardware table
    has a header, one numbered row per item and a total row merged over the
    first three columns; the item loop also leaves one empty 1×4 table after
    the main table per item. The footer is "Страница " and a PAGE field. */
module ProposalV13 {
  import opened Text
  import opened Grouping
  import opened WordGen

  datatype Item = Item(name: string, qty: nat, price: nat)

  /** A row of a table: the bold, shaded header; plain cells; the total row,
      its bold label merged over `span` cells and its bold amount last. */
  datatype Row =
    | HeaderRow(texts: seq<string>, fill: string)
    | Cells(texts: seq<string>)
    | TotalRow(span: nat, caption: string, captionAlign: Align, amount: string)

  /** What the item section adds to the document body, in order. */
  datatype Block = Para(text: string) | Table(rows: seq<Row>)

  const Header: seq<string> := ["№", "Наименование", "Кол-во", "Цена (₽)"]
  const HeaderFill: string := "E6E6E6"
  const TotalLabel: string := "ИТОГО:"

  /** `doc.add_table(rows=1, cols=4)`: one row of four empty cells. */
  const StrayTable: Block := Table([Cells(["", "", "", ""])])

  /** Row `n` of the table: its number, the name, the quantity and the price;
      the quantity does not enter any amount. */
  function ItemRow(n: nat, it: Item): Row {
    Cells([Digits(n), it.name, Digits(it.qty), Amount(it.price)])
  }

  /** The sum of the prices of the first `n` items. */
  function PriceSum(items: seq<Item>, n: nat): nat
    requires n <= |items|
  {
    if n == 0 then 0 else PriceSum(items, n - 1) + items[n - 1].price
  }

  /** The sum of quantity times price of the first `n` items. */
  function LineSum(items: seq<Item>, n: nat): nat
    requires n <= |items|
  {
    if n == 0 then 0 else LineSum(items, n - 1) + items[n - 1].qty * items[n - 1].price
  }

  function TotalRowFor(total: nat): Row {
    TotalRow(3, TotalLabel, Right, Amount(total))
  }

  /** The hardware table: header, items numbered from 1, total row. */
  function ItemTable(items: seq<Item>): (rows: seq<Row>)
    ensures |rows| == |items| + 2 && rows[0] == HeaderRow(Header, HeaderFill)
    ensures forall k :: 1 <= k <= |items| ==> rows[k] == ItemRow(k, items[k - 1])
    ensures rows[|items| + 1] == TotalRowFor(PriceSum(items, |items|))
  {
    [HeaderRow(Header, HeaderFill)]
      + seq(|items|, k requires 0 <= k < |items| => ItemRow(k + 1, items[k]))
      + [TotalRowFor(PriceSum(items, |items|))]
  }

  const CostPrefix: string := "Общая стоимость проекта: "
  const CostSuffix: string := " рублей (без НДС)."

  /** The sentence after the table, formatted and de-commaed as a whole. */
  function CostLine(total: nat): string {
    ReplaceAll(CostPrefix + Grouped(total, ',') + CostSuffix, ",", " ")
  }

  /** `n` stray tables. */
  function Strays(n: nat): (r: seq<Block>)
    ensures |r| == n && forall k :: 0 <= k < n ==> r[k] == StrayTable
  {
    if n == 0 then [] else Strays(n - 1) + [StrayTable]
  }

  /** Everything the section appends to the body: the table, one stray table
      per item, an empty line and the cost sentence. */
  function Section(items: seq<Item>): seq<Block> {
    [Table(ItemTable(items))] + Strays(|items|)
      + [Para("\n"), Para(CostLine(PriceSum(items, |items|)))]
  }

  /** The item loop and what follows it: each iteration appends a stray table
      to the document and a row to the main table, and adds the price. */
  method HardwareSection(items: seq<Item>) returns (blocks: seq<Block>, total: nat)
    ensures blocks == Section(items)
    ensures total == PriceSum(items, |items|)
  {
    var rows: seq<Row> := [HeaderRow(Header, HeaderFill)];
    var strays: seq<Block> := [];
    total := 0;
    var i := 0;
    while i < |items|
      invariant 0 <= i <= |items|
      invariant |rows| == i + 1 && rows[0] == HeaderRow(Header, HeaderFill)
      invariant forall k :: 1 <= k <= i ==> rows[k] == ItemRow(k, items[k - 1])
      invariant |strays| == i && forall k :: 0 <= k < i ==> strays[k] == StrayTable
      invariant total == PriceSum(items, i)
    {
      strays := strays + [StrayTable];
      rows := rows + [ItemRow(i + 1, items[i])];
      total := total + items[i].price;
      i := i + 1;
    }
    rows := rows + [TotalRowFor(total)];
    var t := ItemTable(items);
    assert |rows| == |t|;
    assert forall k :: 0 <= k < |rows| ==> rows[k] == t[k] by {
      forall k | 0 <= k < |rows| ensures rows[k] == t[k] {
        if 1 <= k <= |items| {
          assert rows[k] == ItemRow(k, items[k - 1]);
        }
      }
    }
    assert rows == t;
    assert strays == Strays(|items|);
    blocks := [Table(rows)] + strays + [Para("\n"), Para(CostLine(total))];
  }

  /** Every item row reads back: its number is its position, then the name,
      the quantity and the price. */
  lemma ItemRowsRead(items: seq<Item>, k: nat)
    requires 1 <= k <= |items|
    ensures var r := ItemTable(items)[k];
      && r.Cells? && |r.texts| == 4
      && Value(r.texts[0], ' ') == k && r.texts[1] == items[k - 1].name
      && Value(r.texts[2], ' ') == items[k - 1].qty && Value(r.texts[3], ' ') == items[k - 1].price
  {
    DigitsValue(k, ' ');
    DigitsValue(items[k - 1].qty, ' ');
  }

  /** The total row spans the first three cells, is labelled "ИТОГО:" and its
      amount reads back as the sum of the prices. */
  lemma TotalRowReads(items: seq<Item>)
    ensures var r := ItemTable(items)[|items| + 1];
      && r.TotalRow? && r.span == 3 && r.caption == TotalLabel && r.captionAlign == Right
      && Value(r.amount, ' ') == PriceSum(items, |items|)
  {
  }

  /** The sum ignores quantities: it is the line total only when every
      quantity is 1. */
  lemma {:induction false} SingleQuantities(items: seq<Item>, n: nat)
    requires n <= |items|
    requires forall k :: 0 <= k < |items| ==> items[k].qty == 1
    ensures PriceSum(items, n) == LineSum(items, n)
  {
    if n > 0 {
      SingleQuantities(items, n - 1);
    }
  }

  lemma QuantityIgnored()
    ensures var items := [Item("x", 2, 10)];
      PriceSum(items, 1) == 10 && LineSum(items, 1) == 20
  {
  }

  /** The number of tables among the blocks. */
  function TableCount(bs: seq<Block>): nat {
    if |bs| == 0 then 0 else TableCount(bs[..|bs| - 1]) + (if bs[|bs| - 1].Table? then 1 else 0)
  }

  lemma {:induction false} TableCountConcat(a: seq<Block>, b: seq<Block>)
    ensures TableCount(a + b) == TableCount(a) + TableCount(b)
    decreases |b|
  {
    if |b| > 0 {
      assert (a + b)[..|a + b| - 1] == a + b[..|b| - 1];
      assert (a + b)[|a + b| - 1] == b[|b| - 1];
      TableCountConcat(a, b[..|b| - 1]);
    } else {
      assert a + b == a;
    }
  }

  lemma {:induction false} StrayCount(n: nat)
    ensures TableCount(Strays(n)) == n
  {
    if n > 0 {
      assert Strays(n)[..n - 1] == Strays(n - 1);
      StrayCount(n - 1);
    }
  }

  /** The section adds one table per item besides the main one. */
  lemma SectionTables(items: seq<Item>)
    ensures TableCount(Section(items)) == |items| + 1
  {
    var strays := Strays(|items|);
    StrayCount(|items|);
    TableCountConcat([Table(ItemTable(items))], strays);
    TableCountConcat([Table(ItemTable(items))] + strays, [Para("\n"), Para(CostLine(PriceSum(items, |items|)))]);
    assert TableCount([Para("\n"), Para(CostLine(PriceSum(items, |items|)))]) == 0 by {
      assert [Para("\n"), Para(CostLine(PriceSum(items, |items|)))][..1] == [Para("\n")];
      assert [Para("\n")][..0] == [];
    }
    assert TableCount([Table(ItemTable(items))]) == 1 by {
      assert [Table(ItemTable(items))][..0] == [];
    }
  }

  /** The cost sentence is the label, the space-grouped total and the rest. */
  lemma CostLineReads(total: nat)
    ensures CostLine(total) == CostPrefix + Amount(total) + CostSuffix
  {
    assert NoCharFrom("Общая стоимость проекта: ", ',', 20, false);
    assert NoCharFrom("Общая стоимость проекта: ", ',', 16, false);
    assert NoCharFrom("Общая стоимость проекта: ", ',', 12, false);
    assert NoCharFrom("Общая стоимость проекта: ", ',', 8, false);
    assert NoCharFrom("Общая стоимость проекта: ", ',', 4, false);
    assert NoCharFrom("Общая стоимость проекта: ", ',', 0, false);
    assert NoCharFrom(" рублей (без НДС).", ',', 8, false);
    assert NoCharFrom(" рублей (без НДС).", ',', 0, false);
    AmountInLine(CostPrefix, total, CostSuffix);
  }

  function Items(): seq<Item> {
    [ Item("Сервер YADRO G4208P G3 (2x Intel Xeon 6526Y, 512GB RAM, 1x NVIDIA H100 80GB, 2x 960GB SSD, 12x 3.5\" HDD Slots)", 1, 32151159),
      Item("Коммутатор Eltex MES2300-24 (24x 1G, 4x 10G SFP+)", 1, 139000),
      Item("Лицензия \"ИИ-Агент: Корпоративный\" (бессрочная)", 1, 1500000),
      Item("Модуль интеграции 1С (расширение конфигурации)", 1, 450000),
      Item("Пакет внедрения и настройки (под ключ)", 1, 1200000) ]
  }

  /** The script's total is 35 440 159, which, all quantities being 1, is
      also the sum of the line totals. */
  lemma DataTotal()
    ensures PriceSum(Items(), 5) == 35440159 && LineSum(Items(), 5) == 35440159
  {
    var items := Items();
    assert PriceSum(items, 1) == 32151159;
    assert PriceSum(items, 3) == 33790159;
    assert PriceSum(items, 5) == 35440159;
    SingleQuantities(items, 5);
  }

  /** The footer: `p.text = "Страница "` leaves a single run with that text,
      and a second, empty run receives the PAGE field; the alignment is not
      changed. */
  method SetFooter(p: FooterParagraph)
    modifies p
    ensures |p.runs| == 2 && fresh(p.runs[0]) && fresh(p.runs[1]) && p.runs[0] != p.runs[1]
    ensures p.runs[0].text == PageLabel && p.runs[0].children == []
    ensures p.runs[1].text == "" && p.runs[1].children == PageField()
    ensures p.alignment == old(p.alignment)
  {
    p.SetText(PageLabel);
    var r := p.AddRun();
    r.AddPageNumber();
  }
}
