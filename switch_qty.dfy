/** update_switch_qty.py: in rows naming the Eltex MES5324 switch, the
    quantity 2 becomes 1 and the row sum 998 000 becomes 499 000. */
module UpdateSwitchQty {
  import opened Docx
  import opened QuantityFix
  import opened Grouping

  const Switch: string := "Eltex MES5324"
  const DoubleSum: string := "998 000"
  const SingleSum: string := "499 000"
  /** The switch's unit price in roubles. */
  const UnitPrice: nat := 499000

  method UpdateSwitchQty(d: Document) returns (r: Document)
    ensures r == Fixed(d, Switch, DoubleSum, SingleSum)
  {
    r := FixQuantities(d, Switch, DoubleSum, SingleSum);
  }

  /** The two sums are the printed amounts for two switches and for one. */
  lemma SumsFollowQuantity()
    ensures Amount(2 * UnitPrice) == DoubleSum && Amount(UnitPrice) == SingleSum
  {
    DoubleSumPrinted(2 * UnitPrice);
    SingleSumPrinted(UnitPrice);
  }

  /** The grouping of 998 000. */
  lemma DoubleSumPrinted(n: nat)
    requires n == 998000
    ensures Grouped(n, ' ') == DoubleSum
  {
    var m := n / 1000;
    assert Grouped(n, ' ') == Grouped(m, ' ') + [' '] + Pad3(n % 1000);
    assert m == 998 && n % 1000 == 0;
    assert Grouped(m, ' ') == Grouped(998, ' ') == "998";
    assert Pad3(0) == "000";
  }

  /** The grouping of 499 000. */
  lemma SingleSumPrinted(n: nat)
    requires n == 499000
    ensures Grouped(n, ' ') == SingleSum
  {
    var m := n / 1000;
    assert Grouped(n, ' ') == Grouped(m, ' ') + [' '] + Pad3(n % 1000);
    assert m == 499 && n % 1000 == 0;
    assert Grouped(m, ' ') == Grouped(499, ' ') == "499";
    assert Pad3(0) == "000";
  }
}
