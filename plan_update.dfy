/** update_implementation_plan.py: five fixed rewrites of the implementation
    plan, applied in order to every body paragraph and every paragraph of every
    table cell, and the choice of the input file: the proposal in the
    directory listing with the highest version number, saved under the next
    version number. */
module PlanUpdate {
  import opened Text
  import opened Grouping
  import opened Docx

  /** The replacement dictionary, in its insertion order. */
  function PlanReplacements(): (rs: seq<Replacement>)
    ensures |rs| == 5 && NonEmptyPatterns(rs)
  {
    [ Replacement("Внедрение базового варианта - за 4 месяца", "Внедрение базового варианта - за 3 месяца"),
      Replacement("Внедрения оптимального варианта - от 6 месяцев", "Внедрения оптимального варианта - от 3 до 6 месяцев"),
      Replacement("развёртывание кластера из 2-х серверов Гравитон", "развёртывание сервера YADRO G4208P"),
      Replacement("Монтаж кластера (2x Гравитон С2122ИУ)", "Монтаж сервера YADRO G4208P"),
      Replacement("Проектирование HA-кластера", "Проектирование архитектуры (YADRO G4208P)") ]
  }

  /** Every paragraph of a table cell rewritten by the dictionary; no cell is
      skipped. */
  function RewrittenTable(t: Table, rs: seq<Replacement>): (u: Table)
    requires NonEmptyPatterns(rs)
    ensures |u.rows| == |t.rows|
  {
    Table(seq(|t.rows|, m requires 0 <= m < |t.rows| =>
      seq(|t.rows[m]|, j requires 0 <= j < |t.rows[m]| =>
        Cell(seq(|t.rows[m][j].paragraphs|, k requires 0 <= k < |t.rows[m][j].paragraphs| =>
          ApplyReplacements(t.rows[m][j].paragraphs[k], rs))))))
  }

  /** The document after `update_implementation_plan`. */
  function PlanUpdated(d: Document): Document {
    var rs := PlanReplacements();
    Document(
      seq(|d.paragraphs|, k requires 0 <= k < |d.paragraphs| => ApplyReplacements(d.paragraphs[k], rs)),
      seq(|d.tables|, i requires 0 <= i < |d.tables| => RewrittenTable(d.tables[i], rs)))
  }

  /** The inner loop over the dictionary for one paragraph. */
  method RewriteParagraph(p: string, rs: seq<Replacement>) returns (q: string)
    requires NonEmptyPatterns(rs)
    ensures q == ApplyReplacements(p, rs)
  {
    q := p;
    var n := 0;
    while n < |rs|
      invariant 0 <= n <= |rs|
      invariant ApplyReplacements(q, rs[n..]) == ApplyReplacements(p, rs)
    {
      assert rs[n..][1..] == rs[n + 1..];
      if Contains(q, rs[n].pat) {
        q := ReplaceAll(q, rs[n].pat, rs[n].rep);
      }
      n := n + 1;
    }
  }

  /** Each paragraph of a list in turn. */
  method RewriteParagraphs(ps: seq<string>, rs: seq<Replacement>) returns (qs: seq<string>)
    requires NonEmptyPatterns(rs)
    ensures |qs| == |ps|
    ensures forall k :: 0 <= k < |ps| ==> qs[k] == ApplyReplacements(ps[k], rs)
  {
    qs := [];
    var k := 0;
    while k < |ps|
      invariant 0 <= k <= |ps| && |qs| == k
      invariant forall n :: 0 <= n < k ==> qs[n] == ApplyReplacements(ps[n], rs)
    {
      var q := RewriteParagraph(ps[k], rs);
      qs := qs + [q];
      k := k + 1;
    }
  }

  /** Every row, every cell, every paragraph of one table. */
  method RewriteTable(t: Table, rs: seq<Replacement>) returns (u: Table)
    requires NonEmptyPatterns(rs)
    ensures u == RewrittenTable(t, rs)
  {
    var rows: seq<seq<Cell>> := [];
    var m := 0;
    while m < |t.rows|
      invariant 0 <= m <= |t.rows| && |rows| == m
      invariant forall n :: 0 <= n < m ==> rows[n] == RewrittenTable(t, rs).rows[n]
    {
      var cells: seq<Cell> := [];
      var j := 0;
      while j < |t.rows[m]|
        invariant 0 <= j <= |t.rows[m]| && |cells| == j
        invariant forall n :: 0 <= n < j ==> cells[n] == RewrittenTable(t, rs).rows[m][n]
      {
        var ps := RewriteParagraphs(t.rows[m][j].paragraphs, rs);
        cells := cells + [Cell(ps)];
        j := j + 1;
      }
      rows := rows + [cells];
      m := m + 1;
    }
    u := Table(rows);
  }

  /** `update_implementation_plan`: the body paragraphs, then every table. */
  method UpdateImplementationPlan(d: Document) returns (r: Document)
    ensures r == PlanUpdated(d)
  {
    var rs := PlanReplacements();
    var ps := RewriteParagraphs(d.paragraphs, rs);
    var tables: seq<Table> := [];
    var i := 0;
    while i < |d.tables|
      invariant 0 <= i <= |d.tables| && |tables| == i
      invariant forall n :: 0 <= n < i ==> tables[n] == RewrittenTable(d.tables[n], rs)
    {
      var t := RewriteTable(d.tables[i], rs);
      tables := tables + [t];
      i := i + 1;
    }
    r := Document(ps, tables);
  }

  /** A paragraph containing none of the five keys, in the body or in a cell,
      is left exactly as it was. */
  lemma UnrelatedParagraphsKept(d: Document)
    ensures forall k :: 0 <= k < |d.paragraphs| && NoKey(d.paragraphs[k]) ==>
      PlanUpdated(d).paragraphs[k] == d.paragraphs[k]
    ensures forall i, m, j, k ::
      && 0 <= i < |d.tables| && 0 <= m < |d.tables[i].rows| && 0 <= j < |d.tables[i].rows[m]|
      && 0 <= k < |d.tables[i].rows[m][j].paragraphs| && NoKey(d.tables[i].rows[m][j].paragraphs[k])
      ==> PlanUpdated(d).tables[i].rows[m][j].paragraphs[k] == d.tables[i].rows[m][j].paragraphs[k]
  {
    var rs := PlanReplacements();
    forall p | NoKey(p) ensures ApplyReplacements(p, rs) == p {
      ApplyReplacementsAbsent(p, rs);
    }
  }

  predicate NoKey(p: string) {
    var rs := PlanReplacements();
    forall n :: 0 <= n < |rs| ==> !Contains(p, rs[n].pat)
  }

  // The choice of the input file.

  const Prefix: string := "Commercial_Proposal_v"
  const Suffix: string := ".docx"

  /** A name the listing comprehension keeps. */
  predicate IsCandidate(f: string) {
    StartsWith(f, Prefix) && EndsWith(f, Suffix)
  }

  /** Python's `int(s)` on a string of decimal digits; anything else raises.
      Signs, surrounding whitespace and underscores, which `int` also
      accepts, are not modelled. */
  function ParseInt(s: string): (r: Option<nat>)
    ensures r.Some? <==> |s| > 0 && forall i :: 0 <= i < |s| ==> '0' <= s[i] <= '9'
  {
    if |s| > 0 && forall i :: 0 <= i < |s| ==> '0' <= s[i] <= '9' then Some(Value(s, ' ')) else None
  }

  /** No `_v` starts before the one that ends the prefix. */
  predicate NoPairFrom(x: string, a: char, b: char, j: nat)
    decreases |x| - j
  {
    j + 1 >= |x| || (!(x[j] == a && x[j + 1] == b) && NoPairFrom(x, a, b, j + 1))
  }

  lemma {:induction false} NoPairFromAt(x: string, a: char, b: char, j: nat, i: nat)
    requires NoPairFrom(x, a, b, j) && j <= i && i + 1 < |x|
    ensures !(x[i] == a && x[i + 1] == b)
    decreases i - j
  {
    if j < i {
      NoPairFromAt(x, a, b, j + 1, i);
    }
  }

  /** In a name starting with the prefix, the first `_v` is the prefix's own. */
  lemma FirstVersionMark(f: string)
    requires StartsWith(f, Prefix)
    ensures FindFrom(f, "_v", 0) == 19
  {
    var lit := Prefix[..20];
    assert lit == "Commercial_Proposal_";
    assert NoPairFrom("Commercial_Proposal_", '_', 'v', 15);
    assert NoPairFrom("Commercial_Proposal_", '_', 'v', 10);
    assert NoPairFrom("Commercial_Proposal_", '_', 'v', 5);
    assert NoPairFrom("Commercial_Proposal_", '_', 'v', 0);
    assert f[..21] == Prefix;
    assert OccursAt(f, "_v", 19) by {
      assert f[19..21] == Prefix[19..21];
    }
    forall p: nat | p < 19 ensures !OccursAt(f, "_v", p) {
      NoPairFromAt(lit, '_', 'v', 0, p);
      assert f[p] == lit[p] && f[p + 1] == lit[p + 1];
      var two := f[p..p + 2];
      assert two[0] == f[p] && two[1] == f[p + 1];
    }
  }

  /** `x.split('_v')[1].split('.')[0]`. */
  function VersionText(f: string): (v: string)
    requires StartsWith(f, Prefix)
    ensures v == SplitHead(SplitHead(f[21..], "_v"), ".")
  {
    FirstVersionMark(f);
    ContainsWitness(f, "_v", 19);
    SplitHead(SplitSecond(f, "_v"), ".")
  }

  /** The sort key of a candidate: `int(x.split('_v')[1].split('.')[0])`,
      `None` where `int` raises. */
  function Version(f: string): Option<nat>
    requires StartsWith(f, Prefix)
  {
    ParseInt(VersionText(f))
  }

  /** The output name for a version number. */
  function OutputName(n: nat): string {
    Prefix + Digits(n) + Suffix
  }

  /** What the script's main block ends with. */
  datatype Outcome =
    | NoProposal                                     // message and exit(1)
    | BadVersion(file: string)                       // `int` raises inside `sorted`
    | Update(latest: string, version: nat, output: string)

  /** The sort key of a listed name, `None` for a name the filter drops or
      whose key raises. */
  function Key(f: string): Option<nat> {
    if IsCandidate(f) then Version(f) else None
  }

  /** Kept entry `k` carries the maximal key `v`, and no later kept entry
      carries it too: the last element of a stable ascending sort. */
  predicate IsLatest(files: seq<string>, keep: string -> bool, key: string -> Option<nat>, k: int, v: nat) {
    && 0 <= k < |files| && keep(files[k]) && key(files[k]) == Some(v)
    && (forall n :: 0 <= n < |files| && keep(files[n]) ==> key(files[n]).Some? && key(files[n]).value <= v)
    && (forall n :: k < n < |files| && keep(files[n]) ==> key(files[n]).value < v)
  }

  /** The main block over any filter and key: filter, sort by key (every key
      is computed, in list order, before anything is compared), take the
      last, add one. */
  method LatestBy(files: seq<string>, keep: string -> bool, key: string -> Option<nat>) returns (o: Outcome)
    ensures o.NoProposal? <==> forall k :: 0 <= k < |files| ==> !keep(files[k])
    ensures o.BadVersion? <==> exists k :: 0 <= k < |files| && keep(files[k]) && key(files[k]).None?
    ensures o.BadVersion? ==> exists k :: && 0 <= k < |files| && files[k] == o.file
                                          && keep(files[k]) && key(files[k]).None?
                                          && forall n :: 0 <= n < k && keep(files[n]) ==> key(files[n]).Some?
    ensures o.Update? ==> (exists k :: 0 <= k < |files| && files[k] == o.latest && IsLatest(files, keep, key, k, o.version))
                          && o.output == OutputName(o.version + 1)
  {
    var found := false;
    var best: nat := 0;
    var bestK := 0;
    var i := 0;
    while i < |files|
      invariant 0 <= i <= |files|
      invariant found <==> exists k :: 0 <= k < i && keep(files[k])
      invariant forall n :: 0 <= n < i && keep(files[n]) ==> key(files[n]).Some?
      invariant found ==> && 0 <= bestK < i && keep(files[bestK]) && key(files[bestK]) == Some(best)
                          && (forall n :: 0 <= n < i && keep(files[n]) ==> key(files[n]).value <= best)
                          && (forall n :: bestK < n < i && keep(files[n]) ==> key(files[n]).value < best)
    {
      if keep(files[i]) {
        var v := key(files[i]);
        if v.None? {
          return BadVersion(files[i]);
        }
        if !found || v.value >= best {
          best := v.value;
          bestK := i;
        }
        found := true;
      }
      i := i + 1;
    }
    if !found {
      return NoProposal;
    }
    o := Update(files[bestK], best, OutputName(best + 1));
  }

  /** The script's own filter and key. */
  method LatestProposal(files: seq<string>) returns (o: Outcome)
    ensures o.NoProposal? <==> forall k :: 0 <= k < |files| ==> !IsCandidate(files[k])
    ensures o.BadVersion? <==> exists k :: 0 <= k < |files| && IsCandidate(files[k]) && Key(files[k]).None?
    ensures o.Update? ==> (exists k :: 0 <= k < |files| && files[k] == o.latest && IsLatest(files, IsCandidate, Key, k, o.version))
                          && o.output == OutputName(o.version + 1)
  {
    o := LatestBy(files, IsCandidate, Key);
  }

  /** The output name is itself a candidate, and its version reads back as the
      number written into it. */
  lemma OutputNameRoundTrip(n: nat)
    ensures IsCandidate(OutputName(n)) && Version(OutputName(n)) == Some(n)
  {
    var f := OutputName(n);
    var ds := Digits(n);
    var rest := ds + Suffix;
    assert f[..21] == Prefix && f[21..] == rest && f[|f| - 5..] == Suffix;
    // No `_` in the digits or the suffix: `split('_v')[0]` keeps everything.
    assert NoCharFrom(".docx", '_', 0, false);
    forall i | 0 <= i < |rest| ensures rest[i] != '_' {
      if i >= |ds| {
        NoCharFromAt(".docx", '_', 0, false, i - |ds|);
      }
    }
    SplitHeadWhole(rest, "_v");
    // The first `.` is the suffix's.
    assert rest[|ds|..|ds| + 1] == ".";
    SplitHeadAt(rest, ".", |ds|);
    assert rest[..|ds|] == ds;
    DigitsValue(n, ' ');
  }
}
