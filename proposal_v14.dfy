/** generate_proposal_v14.py: one paragraph per AI module (a bold title run
    and the description on the next line), a two-column specification table
    and a three-column budget table whose total row leaves the quantity cell
    empty. */
module ProposalV14 {
  import opened Grouping
  import opened WordGen

  /** A run of a paragraph: its text and whether it is bold and coloured. */
  datatype TextRun = TextRun(text: string, bold: bool, rgb: (nat, nat, nat))

  datatype Module = Module(title: string, desc: string)

  const NoColour: (nat, nat, nat) := (0, 0, 0)
  const DarkBlue: (nat, nat, nat) := (0, 51, 102)

  /** The paragraph of one module: the title, bold and dark blue, then a run
      holding a line break and the description. */
  function ModuleParagraph(m: Module): seq<TextRun> {
    [TextRun(m.title, true, DarkBlue), TextRun("\n" + m.desc, false, NoColour)]
  }

  /** The text a paragraph shows: its runs' texts, one after another. */
  function ParagraphText(runs: seq<TextRun>): string {
    if |runs| == 0 then "" else ParagraphText(runs[..|runs| - 1]) + runs[|runs| - 1].text
  }

  /** A module paragraph reads as the title, a line break and the description,
      and only the title is bold. */
  lemma ModuleParagraphText(m: Module)
    ensures ParagraphText(ModuleParagraph(m)) == m.title + "\n" + m.desc
    ensures ModuleParagraph(m)[0].bold && !ModuleParagraph(m)[1].bold
  {
    var runs := ModuleParagraph(m);
    assert runs[..1][..0] == [];
    assert runs[..1] == [runs[0]];
    assert runs[..|runs| - 1] == runs[..1];
    assert ParagraphText(runs[..1]) == m.title;
    assert m.title + ("\n" + m.desc) == m.title + "\n" + m.desc;
  }

  /** The module loop: one paragraph per module, in order. */
  method AddModules(modules: seq<Module>) returns (paras: seq<seq<TextRun>>)
    ensures |paras| == |modules|
    ensures forall k :: 0 <= k < |modules| ==> paras[k] == ModuleParagraph(modules[k])
  {
    paras := [];
    for k := 0 to |modules|
      invariant |paras| == k
      invariant forall j :: 0 <= j < k ==> paras[j] == ModuleParagraph(modules[j])
    {
      var runs := [TextRun(modules[k].title, true, DarkBlue)];
      runs := runs + [TextRun("\n" + modules[k].desc, false, NoColour)];
      paras := paras + [runs];
    }
  }

  // ---- the specification table ----

  const SpecHeader: seq<string> := ["Компонент", "Описание"]

  /** The specification table: the header and one (component, description)
      row per entry. */
  function SpecTable(specs: seq<(string, string)>): (rows: seq<seq<string>>)
    ensures |rows| == |specs| + 1 && rows[0] == SpecHeader
    ensures forall k :: 0 <= k < |specs| ==> rows[k + 1] == [specs[k].0, specs[k].1]
  {
    [SpecHeader] + seq(|specs|, k requires 0 <= k < |specs| => [specs[k].0, specs[k].1])
  }

  method FillSpecTable(specs: seq<(string, string)>) returns (rows: seq<seq<string>>)
    ensures rows == SpecTable(specs)
  {
    rows := [SpecHeader];
    for k := 0 to |specs|
      invariant |rows| == k + 1 && rows[0] == SpecHeader
      invariant forall j :: 0 <= j < k ==> rows[j + 1] == [specs[j].0, specs[j].1]
    {
      rows := rows + [[specs[k].0, specs[k].1]];
    }
    assert rows == SpecTable(specs);
  }

  /** Every row of the specification table has two cells. */
  lemma SpecTableTwoColumns(specs: seq<(string, string)>)
    ensures forall r :: r in SpecTable(specs) ==> |r| == 2
  {
    var rows := SpecTable(specs);
    forall r | r in rows ensures |r| == 2 {
      var k :| 0 <= k < |rows| && rows[k] == r;
      if k > 0 {
        assert r == [specs[k - 1].0, specs[k - 1].1];
      }
    }
  }

  function Specs(): seq<(string, string)> {
    [ ("Сервер", "YADRO G4208P G3 (2x Intel Xeon Gold 6526Y, 512GB RAM)"),
      ("Ускоритель ИИ", "1x NVIDIA H100 80GB (Специализирован для LLM и Vision)"),
      ("Хранение данных", "Внутреннее: 4x 3.84TB NVMe SSD (Быстрый доступ) + 12 слотов расширения"),
      ("Сеть", "Коммутатор Eltex MES2300-24 (24x 1G, 4x 10G SFP+)"),
      ("ПО", "ОС Альт Линукс СПТ, СУБД Postgres Pro Enterprise, Платформа ML") ]
  }

  // ---- the budget table ----

  datatype Item = Item(name: string, qty: nat, price: nat)

  const BudgetHeader: seq<string> := ["Наименование", "Кол-во", "Стоимость (руб.)"]
  const TotalLabel: string := "ИТОГО"

  function BudgetRow(it: Item): (r: seq<string>)
    ensures |r| == 3
  {
    [it.name, Digits(it.qty), Amount(it.price)]
  }

  /** The sum of the prices of the first `n` items. */
  function PriceSum(items: seq<Item>, n: nat): nat
    requires n <= |items|
  {
    if n == 0 then 0 else PriceSum(items, n - 1) + items[n - 1].price
  }

  /** The sum of quantity times price of the first `n` items. */
  function LineSum(items: seq<Item>, n: nat): nat
    requires n <= |items|
  {
    if n == 0 then 0 else LineSum(items, n - 1) + items[n - 1].qty * items[n - 1].price
  }

  /** The total row: label, empty quantity cell, total. */
  function BudgetTotalRow(total: nat): seq<string> {
    [TotalLabel, "", Amount(total)]
  }

  /** The budget table: header, one row per item, total row. */
  function BudgetTable(items: seq<Item>): (rows: seq<seq<string>>)
    ensures |rows| == |items| + 2 && rows[0] == BudgetHeader
    ensures forall k :: 0 <= k < |items| ==> rows[k + 1] == BudgetRow(items[k])
    ensures rows[|items| + 1] == BudgetTotalRow(PriceSum(items, |items|))
  {
    [BudgetHeader] + seq(|items|, k requires 0 <= k < |items| => BudgetRow(items[k]))
      + [BudgetTotalRow(PriceSum(items, |items|))]
  }

  function Price(it: Item): nat { it.price }

  lemma {:induction false} SumOfPrices(items: seq<Item>, n: nat)
    requires n <= |items|
    ensures SumOf(items, Price, n) == PriceSum(items, n)
  {
    if n > 0 {
      SumOfPrices(items, n - 1);
    }
  }

  /** The item loop, then the total row. */
  method FillBudgetTable(items: seq<Item>) returns (rows: seq<seq<string>>, total: nat)
    ensures rows == BudgetTable(items)
    ensures total == PriceSum(items, |items|)
  {
    rows, total := FillRows(BudgetHeader, items, BudgetRow, Price);
    SumOfPrices(items, |items|);
    rows := rows + [BudgetTotalRow(total)];
    var t := BudgetTable(items);
    assert forall k :: 0 <= k < |rows| ==> rows[k] == t[k] by {
      forall k | 0 <= k < |rows| ensures rows[k] == t[k] {
        if 1 <= k <= |items| {
          assert rows[k] == BudgetRow(items[k - 1]);
        }
      }
    }
    assert rows == t;
  }

  /** Every row of the budget table has three cells. */
  lemma BudgetTableThreeColumns(items: seq<Item>)
    ensures forall j :: 0 <= j < |BudgetTable(items)| ==> |BudgetTable(items)[j]| == 3
  {
    var rows := BudgetTable(items);
    forall j | 0 <= j < |rows| ensures |rows[j]| == 3 {
      if 1 <= j <= |items| {
        assert rows[j] == BudgetRow(items[j - 1]);
      }
    }
  }

  /** Item rows read back as name, quantity and price. */
  lemma BudgetRowReads(items: seq<Item>, k: nat)
    requires k < |items|
    ensures var r := BudgetTable(items)[k + 1];
      r[0] == items[k].name && Value(r[1], ' ') == items[k].qty && Value(r[2], ' ') == items[k].price
  {
    DigitsValue(items[k].qty, ' ');
  }

  /** The total row's quantity cell is empty and its amount reads back as the
      sum of the prices. */
  lemma BudgetTotalReads(items: seq<Item>)
    ensures var r := BudgetTable(items)[|items| + 1];
      r[0] == TotalLabel && r[1] == "" && Value(r[2], ' ') == PriceSum(items, |items|)
  {
    var total := PriceSum(items, |items|);
    var r := BudgetTable(items)[|items| + 1];
    assert r == BudgetTotalRow(total);
    assert r[2] == Amount(total);
  }

  function BudgetItems(): seq<Item> {
    [ Item("Сервер YADRO G4208P G3 (с NVIDIA H100)", 1, 32151159),
      Item("Коммутатор Eltex MES2300-24", 1, 139000),
      Item("Лицензии ПО (ОС, Виртуализация, СУБД)", 1, 3500000),
      Item("Бизнес-модули ИИ (OCR, Сметы, Видео)", 1, 2450000),
      Item("Работы по внедрению и настройке", 1, 4500000) ]
  }

  /** The quantities are ignored: the total is the sum of the prices, 42 740 159
      here, and equals the line totals only because every quantity is 1. */
  lemma DataTotal()
    ensures PriceSum(BudgetItems(), 5) == 42740159 && LineSum(BudgetItems(), 5) == 42740159
    ensures |BudgetTable(BudgetItems())| == 7 && |SpecTable(Specs())| == 6
  {
  }

  lemma QuantityIgnored()
    ensures var items := [Item("x", 3, 10)];
      PriceSum(items, 1) == 10 && LineSum(items, 1) == 30
  {
  }
}
