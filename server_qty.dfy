/** update_server_qty.py: in rows naming the YADRO G4208P G3 server, the
    quantity 2 becomes 1 and the row sum 64 302 318 becomes 32 151 159. The
    script's `replacements` list is never applied. */
module UpdateServerQty {
  import opened Docx
  import opened QuantityFix
  import opened Grouping

  const Server: string := "YADRO G4208P G3"
  const DoubleSum: string := "64 302 318"
  const SingleSum: string := "32 151 159"
  /** The server's unit price in roubles. */
  const UnitPrice: nat := 32151159

  method UpdateServerQty(d: Document) returns (r: Document)
    ensures r == Fixed(d, Server, DoubleSum, SingleSum)
  {
    r := FixQuantities(d, Server, DoubleSum, SingleSum);
  }

  /** The two sums are the printed amounts for two servers and for one, so the
      rewrite keeps the row sum equal to quantity times unit price. */
  lemma SumsFollowQuantity()
    ensures Amount(2 * UnitPrice) == DoubleSum && Amount(UnitPrice) == SingleSum
  {
    DoubleSumPrinted(2 * UnitPrice);
    SingleSumPrinted(UnitPrice);
  }

  /** The grouping of 64 302 318, one group at a time. */
  lemma DoubleSumPrinted(n: nat)
    requires n == 64302318
    ensures Grouped(n, ' ') == DoubleSum
  {
    var m := n / 1000;
    assert Grouped(n, ' ') == Grouped(m, ' ') + [' '] + Pad3(n % 1000);
    assert m == 64302 && n % 1000 == 318;
    var h := m / 1000;
    assert Grouped(m, ' ') == Grouped(h, ' ') + [' '] + Pad3(m % 1000);
    assert h == 64 && m % 1000 == 302;
    assert Grouped(h, ' ') == Grouped(64, ' ') == "64";
    assert Pad3(302) == "302" && Pad3(318) == "318";
  }

  /** The grouping of 32 151 159, one group at a time. */
  lemma SingleSumPrinted(n: nat)
    requires n == 32151159
    ensures Grouped(n, ' ') == SingleSum
  {
    var m := n / 1000;
    assert Grouped(n, ' ') == Grouped(m, ' ') + [' '] + Pad3(n % 1000);
    assert m == 32151 && n % 1000 == 159;
    var h := m / 1000;
    assert Grouped(m, ' ') == Grouped(h, ' ') + [' '] + Pad3(m % 1000);
    assert h == 32 && m % 1000 == 151;
    assert Grouped(h, ' ') == Grouped(32, ' ') == "32";
    assert Pad3(151) == "151" && Pad3(159) == "159";
  }
}
