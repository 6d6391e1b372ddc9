/** generateProposal.ts: the PDF estimate the calculator page downloads. It
    tries to load the Roboto fonts (falling back to the built-in helvetica),
    writes a title, a subtitle and the date, a four-column table with one
    row per item and a total row, four numbered terms seven units apart
    below the table, and a signature line. The jsPDF drawing calls, the
    page footer, the colours and the Base64 step (`btoa`) are not part of
    this model; the currency formatter, the date and the table's end are
    parameters. */
module PdfProposal {
  import opened Text
  import opened Grouping
  import opened Quote
  import DocxProposal
  import Pricing
  import Calculator

  newtype byte = b: int | 0 <= b < 256

  /** The string `arrayBufferToBase64` builds before `btoa`: one character
      per byte, its code the byte's value. */
  function Binary(bytes: seq<byte>): (s: string)
    ensures |s| == |bytes|
    ensures forall k :: 0 <= k < |bytes| ==> s[k] as int == bytes[k] as int
  {
    seq(|bytes|, k requires 0 <= k < |bytes| => (bytes[k] as int) as char)
  }

  /** The bytes a one-byte-per-character string stands for. */
  function Codes(s: string): (r: seq<int>)
    ensures |r| == |s|
  {
    seq(|s|, k requires 0 <= k < |s| => s[k] as int)
  }

  /** No byte is lost or changed on the way to the string. */
  lemma BinaryRoundTrip(bytes: seq<byte>)
    ensures Codes(Binary(bytes)) == seq(|bytes|, k requires 0 <= k < |bytes| => bytes[k] as int)
  {
  }

  /** The loop of `arrayBufferToBase64`. */
  method ArrayBufferToBinary(bytes: seq<byte>) returns (binary: string)
    ensures binary == Binary(bytes)
  {
    binary := "";
    var len := |bytes|;
    for i := 0 to len
      invariant |binary| == i
      invariant forall k :: 0 <= k < i ==> binary[k] as int == bytes[k] as int
    {
      binary := binary + [(bytes[i] as int) as char];
    }
  }

  /** How a font fetch went: it threw (or reading its body did), it answered
      with a status that is not ok, or it delivered the file. */
  datatype Fetch = Threw | NotOk | Ok(body: seq<byte>)

  datatype Family = Roboto | Helvetica

  const RegularFile := "Roboto-Regular.ttf"
  const BoldFile := "Roboto-Bold.ttf"

  /** The fonts after loading: the family the document uses, the virtual
      files added and the files registered as Roboto normal and bold. */
  datatype Fonts = Fonts(family: Family, vfs: map<string, string>, normal: Option<string>, bold: Option<string>)

  /** The font loading block with its `catch`. The bold font is fetched only
      after the regular one loaded; the family becomes Roboto only when that
      second step finishes without throwing. */
  method LoadFonts(regular: Fetch, bold: Fetch) returns (fonts: Fonts)
    ensures fonts.family == Roboto <==> regular.Ok? && !bold.Threw?
    ensures !regular.Ok? ==> fonts == Fonts(Helvetica, map[], None, None)
    ensures regular.Ok? ==> (RegularFile in fonts.vfs && fonts.vfs[RegularFile] == Binary(regular.body)
      && fonts.normal == Some(RegularFile))
    ensures regular.Ok? && bold.Ok? ==> (BoldFile in fonts.vfs && fonts.vfs[BoldFile] == Binary(bold.body)
      && fonts.bold == Some(BoldFile))
    ensures regular.Ok? && bold.NotOk? ==> BoldFile !in fonts.vfs && fonts.bold == Some(RegularFile)
    ensures regular.Ok? && bold.Threw? ==> BoldFile !in fonts.vfs && fonts.bold == None
  {
    var fontFamily := Helvetica;
    var vfs: map<string, string> := map[];
    var normal: Option<string> := None;
    var boldStyle: Option<string> := None;
    if regular.Ok? {
      var regularBase64 := ArrayBufferToBinary(regular.body);
      vfs := vfs[RegularFile := regularBase64];
      normal := Some(RegularFile);
      if !bold.Threw? {
        if bold.Ok? {
          var boldBase64 := ArrayBufferToBinary(bold.body);
          vfs := vfs[BoldFile := boldBase64];
          boldStyle := Some(BoldFile);
        } else {
          boldStyle := Some(RegularFile);
        }
        fontFamily := Roboto;
      }
    }
    fonts := Fonts(fontFamily, vfs, normal, boldStyle);
  }

  /** A row of the table body: an item row, or the total row whose label
      spans `colSpan` columns. */
  datatype Row =
    | ItemRow(name: string, qty: string, price: string, sum: string)
    | TotalRow(caption: string, colSpan: nat, total: string)

  /** The header's column titles. */
  function Head(): seq<string> {
    ["Наименование", "Кол-во", "Цена за ед.", "Сумма"]
  }

  /** The number of columns a row fills. */
  function Columns(r: Row): nat {
    match r
    case ItemRow(_, _, _, _) => 4
    case TotalRow(_, span, _) => span + 1
  }

  /** The row an item maps to: name, quantity, unit price, price times
      quantity. */
  function RowOf(it: LineItem, fmt: int -> string): Row {
    ItemRow(it.name, Digits(it.qty), fmt(it.price), fmt(it.price * it.qty))
  }

  /** `tableBody`: the items mapped in order, then the total row pushed. */
  function TableBody(items: seq<LineItem>, totalPrice: int, fmt: int -> string): (r: seq<Row>)
    ensures |r| == |items| + 1
    ensures forall k :: 0 <= k < |items| ==> r[k] == RowOf(items[k], fmt)
    ensures r[|items|] == TotalRow("ИТОГО:", 3, fmt(totalPrice))
  {
    seq(|items|, k requires 0 <= k < |items| => RowOf(items[k], fmt)) + [TotalRow("ИТОГО:", 3, fmt(totalPrice))]
  }

  /** The header has four columns and every body row fills exactly four. */
  lemma TableIsFourWide(items: seq<LineItem>, totalPrice: int, fmt: int -> string)
    ensures |Head()| == 4
    ensures forall k :: 0 <= k < |TableBody(items, totalPrice, fmt)| ==> Columns(TableBody(items, totalPrice, fmt)[k]) == 4
  {
    var r := TableBody(items, totalPrice, fmt);
    forall k | 0 <= k < |r|
      ensures Columns(r[k]) == 4
    {
      if k < |items| {
        assert r[k] == RowOf(items[k], fmt);
      } else {
        assert r[k] == TotalRow("ИТОГО:", 3, fmt(totalPrice));
      }
    }
  }

  /** The total cell prints the total as given: two calls with the same
      total and different items agree on it. */
  lemma TotalAsGiven(a: seq<LineItem>, b: seq<LineItem>, totalPrice: int, fmt: int -> string)
    ensures TableBody(a, totalPrice, fmt)[|a|] == TableBody(b, totalPrice, fmt)[|b|]
  {
  }

  /** The PDF table and the DOCX table put the same texts in the same
      places in each item row, cell by cell. */
  lemma SameItemCellsAsDocx(items: seq<LineItem>, totalPrice: int, fmt: int -> string, k: int)
    requires 0 <= k < |items|
    ensures var p := TableBody(items, totalPrice, fmt)[k];
      var d := DocxProposal.TableRows(items, totalPrice, fmt)[k + 1];
      && p.name == d[0].text && p.qty == d[1].text && p.price == d[2].text && p.sum == d[3].text
  {
    assert TableBody(items, totalPrice, fmt)[k] == RowOf(items[k], fmt);
    assert DocxProposal.TableRows(items, totalPrice, fmt)[k + 1] == DocxProposal.ItemRow(items[k], fmt);
  }

  /** Both total rows carry the same label over three columns and the same
      amount. */
  lemma SameTotalCellsAsDocx(items: seq<LineItem>, totalPrice: int, fmt: int -> string)
    ensures var p := TableBody(items, totalPrice, fmt)[|items|];
      var d := DocxProposal.TableRows(items, totalPrice, fmt)[|items| + 1];
      && p.caption == d[0].text && p.colSpan == d[0].span && p.total == d[1].text
  {
    assert DocxProposal.TableRows(items, totalPrice, fmt)[|items| + 1] == DocxProposal.TotalRow(totalPrice, fmt);
  }

  /** The four terms, in order; their wording is the DOCX exporter's. */
  function Terms(): (r: seq<DocxProposal.FixedText>)
    ensures |r| == 4
    ensures forall k :: 0 <= k < |r| ==> r[k] == DocxProposal.Term(k + 1)
  {
    [DocxProposal.Term(1), DocxProposal.Term(2), DocxProposal.Term(3), DocxProposal.Term(4)]
  }

  /** The terms loop: the first term 10 below the heading at `finalY`, each
      next one 7 lower; the signature line 20 below where the loop ends. */
  method PlaceTerms(finalY: real, count: nat) returns (termYs: seq<real>, signY: real)
    ensures |termYs| == count
    ensures forall k :: 0 <= k < count ==> termYs[k] == finalY + 10.0 + 7.0 * k as real
    ensures signY == finalY + 10.0 + 7.0 * count as real + 20.0
  {
    termYs := [];
    var termY := finalY + 10.0;
    for k := 0 to count
      invariant |termYs| == k
      invariant termY == finalY + 10.0 + 7.0 * k as real
      invariant forall j :: 0 <= j < k ==> termYs[j] == finalY + 10.0 + 7.0 * j as real
    {
      termYs := termYs + [termY];
      termY := termY + 7.0;
    }
    signY := termY + 20.0;
  }

  /** The variants the input type admits. */
  datatype PdfVariant = BasicVariant | OptimalVariant | Budget | Custom

  /** `ProposalData`. */
  datatype ProposalData = ProposalData(
    variant: PdfVariant, items: seq<LineItem>, totalPrice: int,
    title: Option<string>, subtitle: Option<string>, fileName: Option<string>)

  /** `x ?? fallback`. */
  function OrDefault(x: Option<string>, fallback: string): (r: string)
    ensures x.Some? ==> r == x.value
    ensures x.None? ==> r == fallback
  {
    if x.Some? then x.value else fallback
  }

  /** The default title and subtitle are the DOCX exporter's. */
  const DefaultTitle := DocxProposal.Wording(DocxProposal.Title)
  const DefaultSubtitle := DocxProposal.Wording(DocxProposal.Subtitle)
  const DefaultFileName := "commercial_proposal.pdf"

  /** The document as drawn: fonts, header texts, table, the terms' and the
      signature's heights, and the saved file's name. */
  datatype PdfDoc = PdfDoc(
    fonts: Fonts, title: string, subtitle: string, dateLine: string,
    head: seq<string>, body: seq<Row>, termYs: seq<real>, signY: real, fileName: string)

  /** `generateProposal`. `tableEnd` is `lastAutoTable.finalY`, where the
      table drawn from y = 90 ended. */
  method GenerateProposal(data: ProposalData, regular: Fetch, bold: Fetch, fmt: int -> string,
                          date: string, tableEnd: real) returns (doc: PdfDoc)
    ensures doc.fonts.family == Roboto <==> regular.Ok? && !bold.Threw?
    ensures doc.title == OrDefault(data.title, DefaultTitle)
    ensures doc.subtitle == OrDefault(data.subtitle, DefaultSubtitle)
    ensures doc.fileName == OrDefault(data.fileName, DefaultFileName)
    ensures doc.dateLine == "Дата: " + date
    ensures doc.head == Head()
    ensures doc.body == TableBody(data.items, data.totalPrice, fmt)
    ensures |doc.termYs| == 4
    ensures forall k :: 0 <= k < 4 ==> doc.termYs[k] == tableEnd + 30.0 + 7.0 * k as real
    ensures doc.signY == tableEnd + 20.0 + 58.0
  {
    var fonts := LoadFonts(regular, bold);
    var title := OrDefault(data.title, DefaultTitle);
    var subtitle := OrDefault(data.subtitle, DefaultSubtitle);
    var tableBody := seq(|data.items|, k requires 0 <= k < |data.items| => RowOf(data.items[k], fmt));
    tableBody := tableBody + [TotalRow("ИТОГО:", 3, fmt(data.totalPrice))];
    var finalY := tableEnd + 20.0;
    var termYs, signY := PlaceTerms(finalY, |Terms()|);
    doc := PdfDoc(fonts, title, subtitle, "Дата: " + date, Head(), tableBody, termYs, signY,
                  OrDefault(data.fileName, DefaultFileName));
  }

  /** The calculator's download: `StartDownload`'s proposal, its items named
      and its loop total passed as `totalPrice`, with no title, subtitle or
      file name, so the defaults apply. The body has one row per selected item,
      in order and with the item's quantity and price, plus the total row,
      whose amount is the sum of price times quantity over those items. */
  lemma CalculatorDownload(p: Proposal, sel: map<string, bool>, prices: map<string, Pricing.Entry>,
                           name: string -> string, fmt: int -> string)
    requires p.items == Chosen(Calculator.ListFor(p.variant), sel, prices, p.variant == Optimal, |Calculator.ListFor(p.variant)|)
    requires p.totalPrice == Calculator.SelectedTotal(Calculator.ListFor(p.variant), sel, prices, p.variant == Optimal, |Calculator.ListFor(p.variant)|)
    ensures var data := ProposalData(if p.variant == Basic then BasicVariant else OptimalVariant,
                                     Named(p.items, name), p.totalPrice, None, None, None);
      var body := TableBody(data.items, data.totalPrice, fmt);
      && |body| == |p.items| + 1
      && (forall k :: 0 <= k < |p.items| ==>
            body[k] == RowOf(LineItem(name(p.items[k].id), p.items[k].qty, p.items[k].price), fmt))
      && body[|p.items|].total == fmt(Total(p.items, |p.items|))
      && OrDefault(data.fileName, DefaultFileName) == DefaultFileName
  {
    Calculator.ExportTotal(p.variant, sel, prices);
  }
}
