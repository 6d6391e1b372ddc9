/** generate_proposal_v15.py: a PDF built with an fpdf writer. `add_table`
    writes a centred, filled header line and one line per data row, shading
    every second row; `add_total` writes "ИТОГО:" across all columns but the
    last and the space-grouped total with " ₽" in the last. The two variants'
    rows are hard-coded strings and so are their totals. */
module ProposalV15 {
  import opened Text
  import opened Grouping

  datatype CellAlign = L | C | R

  type Rgb = (nat, nat, nat)

  /** A written cell: width, text, border, alignment, the fill colour when
      the cell is filled, whether the font is bold, and the page it is on. */
  datatype PdfCell = PdfCell(width: nat, text: string, border: bool, align: CellAlign,
                             fill: Option<Rgb>, bold: bool, page: nat)

  const HeaderBlue: Rgb := (41, 128, 185)
  const RowGrey: Rgb := (240, 240, 240)
  const White: Rgb := (255, 255, 255)
  const TotalLabel: string := "ИТОГО:"
  const Rub: string := " ₽"

  function Sum(ws: seq<nat>): nat {
    if |ws| == 0 then 0 else Sum(ws[..|ws| - 1]) + ws[|ws| - 1]
  }

  /** The header line: every cell bordered, centred, bold and filled blue. */
  function HeaderLine(header: seq<string>, widths: seq<nat>, page: nat): (line: seq<PdfCell>)
    requires |header| <= |widths|
  {
    seq(|header|, i requires 0 <= i < |header| => PdfCell(widths[i], header[i], true, C, Some(HeaderBlue), true, page))
  }

  /** The alignment of data column `i`. */
  function ColumnAlign(i: nat): CellAlign {
    if i == 0 then L else R
  }

  /** Data row `k`: column 0 left-aligned, the others right-aligned; filled
      grey when `k` is odd. */
  function DataLine(k: nat, row: seq<string>, widths: seq<nat>, page: nat): (line: seq<PdfCell>)
    requires |row| <= |widths|
  {
    seq(|row|, i requires 0 <= i < |row| =>
      PdfCell(widths[i], row[i], true, ColumnAlign(i), if k % 2 == 1 then Some(RowGrey) else None, false, page))
  }

  predicate Fits(data: seq<seq<string>>, widths: seq<nat>) {
    forall k :: 0 <= k < |data| ==> |data[k]| <= |widths|
  }

  /** The lines of the data rows. */
  function DataLines(data: seq<seq<string>>, widths: seq<nat>, page: nat): (lines: seq<seq<PdfCell>>)
    requires Fits(data, widths)
  {
    seq(|data|, k requires 0 <= k < |data| => DataLine(k, data[k], widths, page))
  }

  /** `f'{total:,.0f} ₽'.replace(',', ' ')`. */
  function TotalText(total: nat): string {
    ReplaceAll(Grouped(total, ',') + Rub, ",", " ")
  }

  /** The total line: the label cell as wide as all columns but the last,
      then the amount; both bold and right-aligned, unfilled. */
  function TotalLine(total: nat, widths: seq<nat>, page: nat): (line: seq<PdfCell>)
    requires |widths| > 0
  {
    [ PdfCell(Sum(widths[..|widths| - 1]), TotalLabel, true, R, None, true, page),
      PdfCell(widths[|widths| - 1], TotalText(total), true, R, None, true, page) ]
  }

  /** A chapter title's line: one bold, unbordered, left-aligned cell
      reaching the right margin (width 0). */
  function TitleLine(title: string, page: nat): (line: seq<PdfCell>)
    ensures |line| == 1 && line[0].text == title && line[0].bold && !line[0].border
  {
    [PdfCell(0, title, false, L, None, true, page)]
  }

  /** The fpdf writer: the finished lines, the line being written, the page,
      the font weight and the fill colour. */
  class PdfWriter {
    var lines: seq<seq<PdfCell>>
    var current: seq<PdfCell>
    var page: nat
    var bold: bool
    var fillColour: Rgb

    constructor ()
      ensures lines == [] && current == [] && page == 0 && !bold && fillColour == White
    {
      lines := [];
      current := [];
      page := 0;
      bold := false;
      fillColour := White;
    }

    /** `cell(...)`: one cell appended to the current line, filled with the
        current fill colour only when `fill` is set. */
    method Cell(width: nat, text: string, border: bool, align: CellAlign, fill: bool)
      modifies this
      ensures current == old(current) + [PdfCell(width, text, border, align, if fill then Some(fillColour) else None, bold, page)]
      ensures lines == old(lines) && page == old(page) && bold == old(bold) && fillColour == old(fillColour)
    {
      current := current + [PdfCell(width, text, border, align, if fill then Some(fillColour) else None, bold, page)];
    }

    /** `ln()`: the current line is finished. */
    method Ln()
      modifies this
      ensures lines == old(lines) + [old(current)] && current == []
      ensures page == old(page) && bold == old(bold) && fillColour == old(fillColour)
    {
      lines := lines + [current];
      current := [];
    }

    /** `add_table`: the header loop, then the row loop toggling `fill`. */
    method AddTable(header: seq<string>, data: seq<seq<string>>, widths: seq<nat>)
      requires |header| <= |widths| && Fits(data, widths)
      modifies this
      ensures lines == old(lines) + [old(current) + HeaderLine(header, widths, old(page))] + DataLines(data, widths, old(page))
      ensures current == [] && page == old(page) && !bold
      ensures fillColour == if |data| == 0 then HeaderBlue else if |data| % 2 == 0 then RowGrey else White
    {
      bold := true;
      fillColour := HeaderBlue;
      var c0 := current;
      for i := 0 to |header|
        invariant |current| == |c0| + i && current[..|c0|] == c0
        invariant forall j :: 0 <= j < i ==> current[|c0| + j] == HeaderLine(header, widths, page)[j]
        invariant lines == old(lines) && page == old(page) && bold && fillColour == HeaderBlue
      {
        Cell(widths[i], header[i], true, C, true);
      }
      assert current == c0 + HeaderLine(header, widths, page);
      Ln();
      bold := false;
      var l0 := lines;
      var fill := false;
      for k := 0 to |data|
        invariant fill == (k % 2 == 1)
        invariant |lines| == |l0| + k && lines[..|l0|] == l0
        invariant forall j :: 0 <= j < k ==> lines[|l0| + j] == DataLine(j, data[j], widths, page)
        invariant current == [] && page == old(page) && !bold
        invariant fillColour == if k == 0 then HeaderBlue else if k % 2 == 0 then RowGrey else White
      {
        fillColour := if fill then RowGrey else White;
        var row := data[k];
        for i := 0 to |row|
          invariant |current| == i
          invariant forall j :: 0 <= j < i ==> current[j] == DataLine(k, row, widths, page)[j]
          invariant |lines| == |l0| + k && lines[..|l0|] == l0
          invariant forall j :: 0 <= j < k ==> lines[|l0| + j] == DataLine(j, data[j], widths, page)
          invariant page == old(page) && !bold && fillColour == (if fill then RowGrey else White)
        {
          Cell(widths[i], row[i], true, ColumnAlign(i), fill);
        }
        assert current == DataLine(k, row, widths, page);
        Ln();
        fill := !fill;
      }
      assert lines == l0 + DataLines(data, widths, page);
    }

    /** `add_total`: the label over all columns but the last, then the total. */
    method AddTotal(total: nat, widths: seq<nat>)
      requires |widths| > 0
      modifies this
      ensures lines == old(lines) + [old(current) + TotalLine(total, widths, old(page))]
      ensures current == [] && page == old(page) && bold && fillColour == old(fillColour)
    {
      bold := true;
      var c0 := current;
      Cell(Sum(widths[..|widths| - 1]), TotalLabel, true, R, false);
      Cell(widths[|widths| - 1], TotalText(total), true, R, false);
      assert current == c0 + TotalLine(total, widths, page);
      Ln();
    }

    /** `chapter_title`: the bold title cell ends its line (`ln=1`), then
        `ln(4)` leaves an empty line. */
    method ChapterTitle(title: string)
      modifies this
      ensures lines == old(lines) + [old(current) + TitleLine(title, old(page)), []]
      ensures current == [] && page == old(page) && bold && fillColour == old(fillColour)
    {
      bold := true;
      var c0 := current;
      Cell(0, title, false, L, false);
      assert current == c0 + TitleLine(title, page);
      Ln();
      Ln();
    }

    /** `add_page`: a new page. */
    method AddPage()
      modifies this
      ensures page == old(page) + 1
      ensures lines == old(lines) && current == old(current) && bold == old(bold) && fillColour == old(fillColour)
    {
      page := page + 1;
    }

    /** One variant section: its chapter title, its table with the script's
        header and widths, its total, then `ln(10)`. */
    method Section(title: string, data: seq<seq<string>>, total: nat)
      requires current == [] && Fits(data, Widths)
      modifies this
      ensures lines == old(lines) + SectionLines(title, data, total, old(page))
      ensures current == [] && page == old(page)
    {
      var p := page;
      ChapterTitle(title);
      assert [] + TitleLine(title, p) == TitleLine(title, p);
      AddTable(Header, data, Widths);
      assert [] + HeaderLine(Header, Widths, p) == HeaderLine(Header, Widths, p);
      AddTotal(total, Widths);
      assert [] + TotalLine(total, Widths, p) == TotalLine(total, Widths, p);
      Ln();
    }

    /** The two variant sections: the basic one on the current page, then
        the optimal one on a new page. */
    method Variants()
      requires current == []
      modifies this
      ensures page == old(page) + 1
      ensures lines == old(lines)
        + SectionLines(BasicTitle, BasicData(), BasicTotal, old(page))
        + SectionLines(OptimalTitle, OptimalData(), OptimalTotal, old(page) + 1)
    {
      DataFits();
      Section(BasicTitle, BasicData(), BasicTotal);
      AddPage();
      Section(OptimalTitle, OptimalData(), OptimalTotal);
    }
  }

  /** The lines of one variant section on page `page`: the title and the
      empty line after it, the header line, the data lines, the total line
      and the empty line after it. */
  function SectionLines(title: string, data: seq<seq<string>>, total: nat, page: nat): (ls: seq<seq<PdfCell>>)
    requires Fits(data, Widths)
    ensures |ls| == |data| + 5 && ls[0] == TitleLine(title, page) && ls[2] == HeaderLine(Header, Widths, page)
    ensures ls[|data| + 3] == TotalLine(total, Widths, page) && ls[1] == [] && ls[|data| + 4] == []
  {
    [TitleLine(title, page), [], HeaderLine(Header, Widths, page)] + DataLines(data, Widths, page)
    + [TotalLine(total, Widths, page), []]
  }

  // ---- what the lines say ----

  /** Header cells are centred and filled; data cells are left-aligned in
      column 0 and right-aligned elsewhere; row `k` is filled iff `k` is odd. */
  lemma TableLayout(header: seq<string>, data: seq<seq<string>>, widths: seq<nat>, page: nat, k: nat, i: nat)
    requires |header| <= |widths| && Fits(data, widths)
    ensures i < |header| ==> var c := HeaderLine(header, widths, page)[i];
      c.align == C && c.fill == Some(HeaderBlue) && c.bold && c.text == header[i] && c.width == widths[i]
    ensures k < |data| && i < |data[k]| ==> var c := DataLines(data, widths, page)[k][i];
      && (c.align == L <==> i == 0) && (c.fill.Some? <==> k % 2 == 1)
      && c.text == data[k][i] && c.width == widths[i] && !c.bold
  {
  }

  /** The amount cell is the space-grouped total followed by " ₽". */
  lemma TotalTextReads(total: nat)
    ensures TotalText(total) == Grouped(total, ' ') + Rub
  {
    assert NoCharFrom(Rub, ',', 0, false);
    assert NoCharFrom("", ',', 0, false);
    AmountInLine("", total, Rub);
    assert "" + Grouped(total, ',') + Rub == Grouped(total, ',') + Rub;
    assert "" + Amount(total) + Rub == Amount(total) + Rub;
  }

  /** The total line's label spans all widths but the last, and the amount
      reads back as the total. */
  lemma TotalLineReads(total: nat, widths: seq<nat>, page: nat)
    requires |widths| > 0
    ensures var line := TotalLine(total, widths, page);
      && line[0].width + line[1].width == Sum(widths)
      && line[0].text == TotalLabel && ParseRub(line[1].text) == Some(total)
  {
    TotalTextReads(total);
    ParseRubRoundTrip(total);
  }

  // ---- the hard-coded data ----

  const BasicTitle: string := "Вариант 1: Базовый (Пилотный запуск)"
  const OptimalTitle: string := "Вариант 2: Оптимальный (High-Load)"
  const Header: seq<string> := ["Наименование", "Кол-во", "Цена за ед.", "Сумма"]
  const Widths: seq<nat> := [90, 20, 40, 40]
  const BasicTotal: nat := 7285000
  const OptimalTotal: nat := 21590000

  lemma LabelWidth()
    ensures Sum(Widths[..3]) == 150 && Sum(Widths) == 190
  {
    assert [90][..0] == [];
    assert Sum([90]) == 90;
    assert [90, 20][..1] == [90];
    assert Sum([90, 20]) == 110;
    assert [90, 20, 40][..2] == [90, 20];
    assert Widths[..3] == [90, 20, 40];
    assert Widths[..|Widths| - 1] == Widths[..3];
  }

  function BasicData(): seq<seq<string>> {
    [ ["Сервер Гравитон Н22И (Xeon Silver, 128GB)", "1", "3 800 000 ₽", "3 800 000 ₽"],
      ["Коммутатор Eltex MES2300-24", "1", "120 000 ₽", "120 000 ₽"],
      ["ОС Альт Линукс СПТ", "1", "15 000 ₽", "15 000 ₽"],
      ["СУБД Postgres Pro Enterprise", "1", "450 000 ₽", "450 000 ₽"],
      ["ML Платформа (Базовая)", "1", "1 200 000 ₽", "1 200 000 ₽"],
      ["Внедрение: Этап 1 (Анализ)", "1", "500 000 ₽", "500 000 ₽"],
      ["Внедрение: Этап 2 (Развертывание)", "1", "800 000 ₽", "800 000 ₽"],
      ["Внедрение: Этап 3 (Запуск)", "1", "400 000 ₽", "400 000 ₽"] ]
  }

  function OptimalData(): seq<seq<string>> {
    [ ["Сервер YADRO G4208P G3 (Xeon Gold, 512GB, H100)", "1", "12 500 000 ₽", "12 500 000 ₽"],
      ["Коммутатор Eltex MES2300-24", "1", "120 000 ₽", "120 000 ₽"],
      ["ОС Альт Линукс СПТ", "2", "15 000 ₽", "30 000 ₽"],
      ["СУБД Postgres Pro Enterprise", "1", "450 000 ₽", "450 000 ₽"],
      ["Альт Виртуализация", "2", "45 000 ₽", "90 000 ₽"],
      ["ML Платформа (Enterprise)", "1", "2 500 000 ₽", "2 500 000 ₽"],
      ["Коннекторы данных 1С", "1", "350 000 ₽", "350 000 ₽"],
      ["Модуль: Документооборот (OCR)", "1", "500 000 ₽", "500 000 ₽"],
      ["Модуль: Сметы и Закупки", "1", "750 000 ₽", "750 000 ₽"],
      ["Модуль: Видеоаналитика", "1", "1 200 000 ₽", "1 200 000 ₽"],
      ["Внедрение: Этап 1 (Анализ)", "1", "800 000 ₽", "800 000 ₽"],
      ["Внедрение: Этап 2 (Развертывание)", "1", "1 500 000 ₽", "1 500 000 ₽"],
      ["Внедрение: Этап 3 (Запуск)", "1", "800 000 ₽", "800 000 ₽"] ]
  }

  lemma DataFits()
    ensures Fits(BasicData(), Widths) && Fits(OptimalData(), Widths)
    ensures |Header| <= |Widths| && |BasicData()| == 8 && |OptimalData()| == 13
  {
  }

  /** The numbers a row's strings denote. */
  datatype Line = Line(qty: nat, unit: nat, sum: nat)

  /** Reading an amount cell back: digits and spaces before " ₽". */
  function ParseRub(s: string): (r: Option<nat>)
    ensures r.Some? ==> EndsWith(s, Rub)
  {
    if |s| >= 2 && s[|s| - 2..] == Rub && |s| > 2
      && forall i :: 0 <= i < |s| - 2 ==> ('0' <= s[i] <= '9' || s[i] == ' ')
    then Some(Value(s[..|s| - 2], ' '))
    else None
  }

  /** Reading the quantity cell back: plain digits. */
  function ParseQty(s: string): (r: Option<nat>)
    ensures r.Some? ==> |s| > 0
  {
    if |s| > 0 && forall i :: 0 <= i < |s| ==> '0' <= s[i] <= '9' then Some(Value(s, ' ')) else None
  }

  lemma ParseRubRoundTrip(n: nat)
    ensures ParseRub(Grouped(n, ' ') + Rub) == Some(n)
  {
    var s := Grouped(n, ' ') + Rub;
    assert s[..|s| - 2] == Grouped(n, ' ');
    assert s[|s| - 2..] == Rub;
    GroupedRoundTrip(n, ' ');
  }

  /** Parsing a row that writes out a line gives back the line's numbers. */
  lemma RowOfParses(row: seq<string>, l: Line)
    requires RowMatches(row, l)
    ensures ParseQty(row[1]) == Some(l.qty)
    ensures ParseRub(row[2]) == Some(l.unit) && ParseRub(row[3]) == Some(l.sum)
  {
    DigitsValue(l.qty, ' ');
    ParseRubRoundTrip(l.unit);
    ParseRubRoundTrip(l.sum);
  }

  /** In every row, quantity times unit price is the row sum, both read from
      the strings. */
  predicate RowConsistent(row: seq<string>) {
    |row| == 4 && ParseQty(row[1]).Some? && ParseRub(row[2]).Some? && ParseRub(row[3]).Some?
    && ParseQty(row[1]).value * ParseRub(row[2]).value == ParseRub(row[3]).value
  }

  /** The sum of the parsed "Сумма" column over the first `n` rows. */
  function SumColumn(data: seq<seq<string>>, n: nat): nat
    requires n <= |data|
  {
    if n == 0 then 0
    else (SumColumn(data, n - 1)
      + (if |data[n - 1]| == 4 && ParseRub(data[n - 1][3]).Some? then ParseRub(data[n - 1][3]).value else 0))
  }

  function BasicLines(): seq<Line> {
    [ Line(1, 3800000, 3800000),
      Line(1, 120000, 120000),
      Line(1, 15000, 15000),
      Line(1, 450000, 450000),
      Line(1, 1200000, 1200000),
      Line(1, 500000, 500000),
      Line(1, 800000, 800000),
      Line(1, 400000, 400000) ]
  }

  function OptimalLines(): seq<Line> {
    [ Line(1, 12500000, 12500000),
      Line(1, 120000, 120000),
      Line(2, 15000, 30000),
      Line(1, 450000, 450000),
      Line(2, 45000, 90000),
      Line(1, 2500000, 2500000),
      Line(1, 350000, 350000),
      Line(1, 500000, 500000),
      Line(1, 750000, 750000),
      Line(1, 1200000, 1200000),
      Line(1, 800000, 800000),
      Line(1, 1500000, 1500000),
      Line(1, 800000, 800000) ]
  }

  /** Cell by cell, `row` writes out the line: the quantity in plain digits,
      both amounts space-grouped with " ₽". */
  predicate RowMatches(row: seq<string>, l: Line) {
    && |row| == 4 && row[1] == Digits(l.qty)
    && row[2] == Grouped(l.unit, ' ') + Rub && row[3] == Grouped(l.sum, ' ') + Rub
  }

  /** From line `i` on, quantity times unit price is the line's sum. */
  predicate ProductsHold(lines: seq<Line>, i: nat)
    decreases |lines| - i
  {
    i >= |lines| || (lines[i].qty * lines[i].unit == lines[i].sum && ProductsHold(lines, i + 1))
  }

  lemma {:induction false} ProductsAt(lines: seq<Line>, i: nat, k: nat)
    requires ProductsHold(lines, i) && i <= k < |lines|
    ensures lines[k].qty * lines[k].unit == lines[k].sum
    decreases k - i
  {
    if i < k {
      ProductsAt(lines, i + 1, k);
    }
  }

  /** The sum of the lines' sums over the first `n` lines. */
  function LinesTotal(lines: seq<Line>, n: nat): nat
    requires n <= |lines|
  {
    if n == 0 then 0 else LinesTotal(lines, n - 1) + lines[n - 1].sum
  }

  lemma {:induction false} SumColumnOfLines(data: seq<seq<string>>, lines: seq<Line>, n: nat)
    requires |data| == |lines| && n <= |data|
    requires forall k :: 0 <= k < |data| ==> RowMatches(data[k], lines[k])
    ensures SumColumn(data, n) == LinesTotal(lines, n)
  {
    if n > 0 {
      SumColumnOfLines(data, lines, n - 1);
      RowOfParses(data[n - 1], lines[n - 1]);
    }
  }

  /** Rows written out from lines whose products hold are consistent when
      read back, and their "Сумма" column sums to the lines' total. */
  lemma {:induction false} ParsedRows(data: seq<seq<string>>, lines: seq<Line>)
    requires |data| == |lines| && ProductsHold(lines, 0)
    requires forall k :: 0 <= k < |data| ==> RowMatches(data[k], lines[k])
    ensures forall k :: 0 <= k < |data| ==> RowConsistent(data[k])
    ensures SumColumn(data, |data|) == LinesTotal(lines, |lines|)
  {
    forall k | 0 <= k < |data| ensures RowConsistent(data[k]) {
      ProductsAt(lines, 0, k);
      RowOfParses(data[k], lines[k]);
    }
    SumColumnOfLines(data, lines, |data|);
  }

  /** A whole number of thousands below a million, space-grouped. */
  lemma Thousands(a: nat)
    requires 1 <= a < 1000
    ensures Grouped(a * 1000, ' ') == Digits(a) + " 000"
  {
    var n := a * 1000;
    assert n / 1000 == a && n % 1000 == 0;
    assert Pad3(0) == "000";
  }

  /** A whole number of thousands from a million up, space-grouped. */
  lemma Millions(a: nat, b: nat)
    requires 1 <= a < 1000 && b < 1000
    ensures Grouped((a * 1000 + b) * 1000, ' ') == Digits(a) + " " + Pad3(b) + " 000"
  {
    var m := a * 1000 + b;
    var n := m * 1000;
    assert n / 1000 == m && n % 1000 == 0;
    assert m / 1000 == a && m % 1000 == b;
    assert Grouped(m, ' ') == Digits(a) + " " + Pad3(b);
    assert Pad3(0) == "000";
  }

  /** The digits of a number below a thousand, one character each. */
  function Lead(a: nat): string
    requires a < 1000
  {
    if a < 10 then [DigitChar(a)]
    else if a < 100 then [DigitChar(a / 10), DigitChar(a % 10)]
    else [DigitChar(a / 100), DigitChar(a / 10 % 10), DigitChar(a % 10)]
  }

  lemma LeadDigits(a: nat)
    requires a < 1000
    ensures Lead(a) == Digits(a)
  {
    if a >= 100 {
      assert a / 10 / 10 == a / 100 && a / 10 % 10 < 10;
      assert Digits(a / 10) == [DigitChar(a / 100), DigitChar(a / 10 % 10)];
    }
  }

  /** An amount cell of whole thousands below a million. */
  lemma ThousandsCell(cell: string, n: nat)
    requires n % 1000 == 0 && 1000 <= n < 1000000
    requires cell == Lead(n / 1000) + " 000" + Rub
    ensures cell == Grouped(n, ' ') + Rub
  {
    Thousands(n / 1000);
    LeadDigits(n / 1000);
  }

  /** An amount cell of whole thousands from a million up. */
  lemma MillionsCell(cell: string, n: nat)
    requires n % 1000 == 0 && 1000000 <= n < 1000000000
    requires cell == Lead(n / 1000000) + " " + Pad3(n / 1000 % 1000) + " 000" + Rub
    ensures cell == Grouped(n, ' ') + Rub
  {
    Millions(n / 1000000, n / 1000 % 1000);
    LeadDigits(n / 1000000);
    assert (n / 1000000 * 1000 + n / 1000 % 1000) * 1000 == n;
  }

  /** Row `k` of a table writes out line `k`; one lemma per row keeps each
      proof to the strings of that row. */
  lemma BasicRow0()
    ensures RowMatches(BasicData()[0], BasicLines()[0])
  {
    assert Lead(1) == "1";
    MillionsCell(BasicData()[0][2], 3800000);
  }

  lemma BasicRow1()
    ensures RowMatches(BasicData()[1], BasicLines()[1])
  {
    assert Lead(1) == "1";
    ThousandsCell(BasicData()[1][2], 120000);
  }

  lemma BasicRow2()
    ensures RowMatches(BasicData()[2], BasicLines()[2])
  {
    assert Lead(1) == "1";
    ThousandsCell(BasicData()[2][2], 15000);
  }

  lemma BasicRow3()
    ensures RowMatches(BasicData()[3], BasicLines()[3])
  {
    assert Lead(1) == "1";
    ThousandsCell(BasicData()[3][2], 450000);
  }

  lemma BasicRow4()
    ensures RowMatches(BasicData()[4], BasicLines()[4])
  {
    assert Lead(1) == "1";
    MillionsCell(BasicData()[4][2], 1200000);
  }

  lemma BasicRow5()
    ensures RowMatches(BasicData()[5], BasicLines()[5])
  {
    assert Lead(1) == "1";
    ThousandsCell(BasicData()[5][2], 500000);
  }

  lemma BasicRow6()
    ensures RowMatches(BasicData()[6], BasicLines()[6])
  {
    assert Lead(1) == "1";
    ThousandsCell(BasicData()[6][2], 800000);
  }

  lemma BasicRow7()
    ensures RowMatches(BasicData()[7], BasicLines()[7])
  {
    assert Lead(1) == "1";
    ThousandsCell(BasicData()[7][2], 400000);
  }

  /** Every basic row writes out the basic line at its index. */
  lemma BasicRowsMatch()
    ensures |BasicData()| == |BasicLines()|
    ensures forall k :: 0 <= k < |BasicData()| ==> RowMatches(BasicData()[k], BasicLines()[k])
  {
    forall k | 0 <= k < |BasicData()| ensures RowMatches(BasicData()[k], BasicLines()[k]) {
      if k == 0 {
        BasicRow0();
      } else if k == 1 {
        BasicRow1();
      } else if k == 2 {
        BasicRow2();
      } else if k == 3 {
        BasicRow3();
      } else if k == 4 {
        BasicRow4();
      } else if k == 5 {
        BasicRow5();
      } else if k == 6 {
        BasicRow6();
      } else {
        BasicRow7();
      }
    }
  }

  lemma OptimalRow0()
    ensures RowMatches(OptimalData()[0], OptimalLines()[0])
  {
    assert Lead(1) == "1";
    MillionsCell(OptimalData()[0][2], 12500000);
  }

  lemma OptimalRow1()
    ensures RowMatches(OptimalData()[1], OptimalLines()[1])
  {
    assert Lead(1) == "1";
    ThousandsCell(OptimalData()[1][2], 120000);
  }

  lemma OptimalRow2()
    ensures RowMatches(OptimalData()[2], OptimalLines()[2])
  {
    assert Lead(2) == "2";
    ThousandsCell(OptimalData()[2][2], 15000);
    ThousandsCell(OptimalData()[2][3], 30000);
  }

  lemma OptimalRow3()
    ensures RowMatches(OptimalData()[3], OptimalLines()[3])
  {
    assert Lead(1) == "1";
    ThousandsCell(OptimalData()[3][2], 450000);
  }

  lemma OptimalRow4()
    ensures RowMatches(OptimalData()[4], OptimalLines()[4])
  {
    assert Lead(2) == "2";
    ThousandsCell(OptimalData()[4][2], 45000);
    ThousandsCell(OptimalData()[4][3], 90000);
  }

  lemma OptimalRow5()
    ensures RowMatches(OptimalData()[5], OptimalLines()[5])
  {
    assert Lead(1) == "1";
    MillionsCell(OptimalData()[5][2], 2500000);
  }

  lemma OptimalRow6()
    ensures RowMatches(OptimalData()[6], OptimalLines()[6])
  {
    assert Lead(1) == "1";
    ThousandsCell(OptimalData()[6][2], 350000);
  }

  lemma OptimalRow7()
    ensures RowMatches(OptimalData()[7], OptimalLines()[7])
  {
    assert Lead(1) == "1";
    ThousandsCell(OptimalData()[7][2], 500000);
  }

  lemma OptimalRow8()
    ensures RowMatches(OptimalData()[8], OptimalLines()[8])
  {
    assert Lead(1) == "1";
    ThousandsCell(OptimalData()[8][2], 750000);
  }

  lemma OptimalRow9()
    ensures RowMatches(OptimalData()[9], OptimalLines()[9])
  {
    assert Lead(1) == "1";
    MillionsCell(OptimalData()[9][2], 1200000);
  }

  lemma OptimalRow10()
    ensures RowMatches(OptimalData()[10], OptimalLines()[10])
  {
    assert Lead(1) == "1";
    ThousandsCell(OptimalData()[10][2], 800000);
  }

  lemma OptimalRow11()
    ensures RowMatches(OptimalData()[11], OptimalLines()[11])
  {
    assert Lead(1) == "1";
    MillionsCell(OptimalData()[11][2], 1500000);
  }

  lemma OptimalRow12()
    ensures RowMatches(OptimalData()[12], OptimalLines()[12])
  {
    assert Lead(1) == "1";
    ThousandsCell(OptimalData()[12][2], 800000);
  }

  /** Every optimal row writes out the optimal line at its index. */
  lemma OptimalRowsMatch()
    ensures |OptimalData()| == |OptimalLines()|
    ensures forall k :: 0 <= k < |OptimalData()| ==> RowMatches(OptimalData()[k], OptimalLines()[k])
  {
    forall k | 0 <= k < |OptimalData()| ensures RowMatches(OptimalData()[k], OptimalLines()[k]) {
      if k == 0 {
        OptimalRow0();
      } else if k == 1 {
        OptimalRow1();
      } else if k == 2 {
        OptimalRow2();
      } else if k == 3 {
        OptimalRow3();
      } else if k == 4 {
        OptimalRow4();
      } else if k == 5 {
        OptimalRow5();
      } else if k == 6 {
        OptimalRow6();
      } else if k == 7 {
        OptimalRow7();
      } else if k == 8 {
        OptimalRow8();
      } else if k == 9 {
        OptimalRow9();
      } else if k == 10 {
        OptimalRow10();
      } else if k == 11 {
        OptimalRow11();
      } else {
        OptimalRow12();
      }
    }
  }

  /** The transcribed lines: quantity times unit price is the sum on every
      line, and the sums add up to the hard-coded totals. */
  lemma LinesTotals()
    ensures ProductsHold(BasicLines(), 0) && LinesTotal(BasicLines(), 8) == BasicTotal
    ensures ProductsHold(OptimalLines(), 0) && LinesTotal(OptimalLines(), 13) == OptimalTotal
  {
    assert ProductsHold(OptimalLines(), 7);
    assert LinesTotal(OptimalLines(), 7) == 16040000;
  }

  /** The hard-coded totals are the sums of the tables' "Сумма" column as
      read from the strings, and in every row the quantity times the unit
      price is the row's sum. */
  lemma HardCodedTotals()
    ensures forall k :: 0 <= k < |BasicData()| ==> RowConsistent(BasicData()[k])
    ensures SumColumn(BasicData(), |BasicData()|) == BasicTotal
    ensures forall k :: 0 <= k < |OptimalData()| ==> RowConsistent(OptimalData()[k])
    ensures SumColumn(OptimalData(), |OptimalData()|) == OptimalTotal
  {
    BasicRowsMatch();
    OptimalRowsMatch();
    LinesTotals();
    ParsedRows(BasicData(), BasicLines());
    ParsedRows(OptimalData(), OptimalLines());
  }
}
