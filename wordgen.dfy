/** What the proposal generators build with python-docx beyond plain text: a
    run's raw XML children (the PAGE field of the footer), paragraph alignment
    and the runs of the footer paragraph. */
module WordGen {

  datatype Align = Left | Center | Right | Justify

  /** The WordprocessingML elements the generators append to a run. */
  datatype XmlNode =
    | FldChar(fldCharType: string)
    | InstrText(text: string, preserveSpace: bool)

  /** The PAGE field: begin marker, the instruction, end marker. */
  function PageField(): (f: seq<XmlNode>)
    ensures |f| == 3 && f[0] == FldChar("begin") && f[2] == FldChar("end")
    ensures f[1].InstrText? && f[1].text == "PAGE" && f[1].preserveSpace
  {
    [FldChar("begin"), InstrText("PAGE", true), FldChar("end")]
  }

  /** A run: its text and the raw XML appended after it. */
  class Run {
    var text: string
    var children: seq<XmlNode>

    constructor (text: string)
      ensures this.text == text && children == []
    {
      this.text := text;
      children := [];
    }

    /** `add_page_number`: the three field elements, in order, after whatever
        the run already holds. */
    method AddPageNumber()
      modifies this
      ensures children == old(children) + PageField()
      ensures text == old(text)
    {
      children := children + [FldChar("begin")];
      children := children + [InstrText("PAGE", true)];
      children := children + [FldChar("end")];
    }
  }

  /** The first paragraph of a section footer. */
  class FooterParagraph {
    var alignment: Align
    var runs: seq<Run>

    /** A new document's footer paragraph: empty. */
    constructor ()
      ensures alignment == Left && runs == []
    {
      alignment := Left;
      runs := [];
    }

    /** `paragraph.add_run()`: a new empty run at the end. */
    method AddRun() returns (r: Run)
      modifies this
      ensures fresh(r) && r.text == "" && r.children == []
      ensures runs == old(runs) + [r] && alignment == old(alignment)
    {
      r := new Run("");
      runs := runs + [r];
    }

    /** `paragraph.text = s`: the runs are replaced by a single run `s`. */
    method SetText(s: string)
      modifies this
      ensures |runs| == 1 && fresh(runs[0]) && runs[0].text == s && runs[0].children == []
      ensures alignment == old(alignment)
    {
      var r := new Run(s);
      runs := [r];
    }
  }

  /** The generators' item loop, over any row layout: after the header, one
      row added per item, and the item's amount added to the total. */
  method FillRows<T>(header: seq<string>, items: seq<T>, row: T -> seq<string>, amount: T -> nat)
    returns (rows: seq<seq<string>>, total: nat)
    ensures |rows| == |items| + 1 && rows[0] == header
    ensures forall k :: 0 <= k < |items| ==> rows[k + 1] == row(items[k])
    ensures total == SumOf(items, amount, |items|)
  {
    rows := [header];
    total := 0;
    var k := 0;
    while k < |items|
      invariant 0 <= k <= |items|
      invariant |rows| == k + 1 && rows[0] == header
      invariant forall m :: 0 <= m < k ==> rows[m + 1] == row(items[m])
      invariant total == SumOf(items, amount, k)
    {
      rows := rows + [row(items[k])];
      total := total + amount(items[k]);
      k := k + 1;
    }
  }

  /** The sum of `amount` over the first `n` items. */
  function SumOf<T>(items: seq<T>, amount: T -> nat, n: nat): nat
    requires n <= |items|
  {
    if n == 0 then 0 else SumOf(items, amount, n - 1) + amount(items[n - 1])
  }

  /** The label before the page number in every footer. */
  const PageLabel: string := "Страница "
}
