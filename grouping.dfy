/** Python's `f'{n:,.0f}'` for a whole number of roubles (digits grouped by
    three with commas) followed by `.replace(',', ' ')`, as the proposal
    scripts print amounts, and the reading of such a string back into a number. */
module Grouping {
  import opened Text

  function DigitChar(d: nat): (c: char)
    requires d < 10
    ensures '0' <= c <= '9'
  {
    ('0' as int + d) as char
  }

  function DigitValue(c: char): (d: nat)
    requires '0' <= c <= '9'
    ensures d < 10 && DigitChar(d) == c
  {
    (c as int - '0' as int) as nat
  }

  /** Plain decimal digits of `n`, as `str(n)`. */
  function Digits(n: nat): (s: string)
    ensures |s| > 0 && forall i :: 0 <= i < |s| ==> '0' <= s[i] <= '9'
    decreases n
  {
    if n < 10 then [DigitChar(n)] else Digits(n / 10) + [DigitChar(n % 10)]
  }

  /** Three digits with leading zeros, for a group after the first. */
  function Pad3(k: nat): (s: string)
    requires k < 1000
    ensures |s| == 3 && forall i :: 0 <= i < 3 ==> '0' <= s[i] <= '9'
  {
    [DigitChar(k / 100), DigitChar(k / 10 % 10), DigitChar(k % 10)]
  }

  /** `n` written with its digits grouped by three, groups separated by `sep`. */
  function Grouped(n: nat, sep: char): (s: string)
    ensures |s| > 0 && forall i :: 0 <= i < |s| ==> ('0' <= s[i] <= '9' || s[i] == sep)
    decreases n
  {
    if n < 1000 then Digits(n) else Grouped(n / 1000, sep) + [sep] + Pad3(n % 1000)
  }


  /** The number a string of digits and separators `sep` denotes. */
  function Value(s: string, sep: char): nat
    requires forall i :: 0 <= i < |s| ==> ('0' <= s[i] <= '9' || s[i] == sep)
    decreases |s|
  {
    if |s| == 0 then 0
    else if s[|s| - 1] == sep then Value(s[..|s| - 1], sep)
    else Value(s[..|s| - 1], sep) * 10 + DigitValue(s[|s| - 1])
  }

  lemma {:induction false} DigitsValue(n: nat, sep: char)
    requires sep < '0' || '9' < sep
    ensures Value(Digits(n), sep) == n
    decreases n
  {
    if n >= 10 {
      var s := Digits(n);
      assert s[..|s| - 1] == Digits(n / 10);
      DigitsValue(n / 10, sep);
    }
  }

  lemma ValueSnoc(s: string, c: char, sep: char)
    requires forall i :: 0 <= i < |s| ==> ('0' <= s[i] <= '9' || s[i] == sep)
    requires '0' <= c <= '9' || c == sep
    ensures Value(s + [c], sep) == if c == sep then Value(s, sep) else Value(s, sep) * 10 + DigitValue(c)
  {
    assert (s + [c])[..|s|] == s;
  }

  lemma ThreeDigits(v: nat, k: nat)
    requires k < 1000
    ensures ((v * 10 + k / 100) * 10 + k / 10 % 10) * 10 + k % 10 == v * 1000 + k
  {
    assert k == k / 100 * 100 + k / 10 % 10 * 10 + k % 10;
  }

  lemma GroupValue(a: string, sep: char, k: nat)
    requires sep < '0' || '9' < sep
    requires forall i :: 0 <= i < |a| ==> ('0' <= a[i] <= '9' || a[i] == sep)
    requires k < 1000
    ensures Value(a + [sep] + Pad3(k), sep) == Value(a, sep) * 1000 + k
  {
    var p := Pad3(k);
    var a1 := a + [sep];
    var a2 := a1 + [p[0]];
    var a3 := a2 + [p[1]];
    ValueSnoc(a, sep, sep);
    ValueSnoc(a1, p[0], sep);
    ValueSnoc(a2, p[1], sep);
    ValueSnoc(a3, p[2], sep);
    assert a + [sep] + p == a3 + [p[2]];
    ThreeDigits(Value(a, sep), k);
  }

  /** Reading a grouped amount back gives the number that was written. */
  lemma {:induction false} GroupedRoundTrip(n: nat, sep: char)
    requires sep < '0' || '9' < sep
    ensures Value(Grouped(n, sep), sep) == n
    decreases n
  {
    if n < 1000 {
      DigitsValue(n, sep);
    } else {
      GroupedRoundTrip(n / 1000, sep);
      GroupValue(Grouped(n / 1000, sep), sep, n % 1000);
    }
  }

  /** Replacing one character distributes over concatenation. */
  lemma {:induction false} ReplaceCharConcat(a: string, b: string, c: char, rep: string)
    ensures ReplaceAll(a + b, [c], rep) == ReplaceAll(a, [c], rep) + ReplaceAll(b, [c], rep)
    decreases |a|
  {
    if |a| == 0 {
      assert a + b == b;
    } else {
      assert (a + b)[1..] == a[1..] + b;
      assert (a + b)[..1] == a[..1] == [a[0]];
      ReplaceCharConcat(a[1..], b, c, rep);
      if a[0] == c {
        assert ReplaceAll(a, [c], rep) == rep + ReplaceAll(a[1..], [c], rep);
        assert ReplaceAll(a + b, [c], rep) == rep + ReplaceAll(a[1..] + b, [c], rep);
      } else {
        assert ReplaceAll(a, [c], rep) == [a[0]] + ReplaceAll(a[1..], [c], rep);
        assert ReplaceAll(a + b, [c], rep) == [a[0]] + ReplaceAll(a[1..] + b, [c], rep);
      }
    }
  }

  lemma {:induction false} ReplaceNoChar(s: string, c: char, rep: string)
    requires forall i :: 0 <= i < |s| ==> s[i] != c
    ensures ReplaceAll(s, [c], rep) == s
    decreases |s|
  {
    if |s| > 0 {
      ReplaceNoChar(s[1..], c, rep);
      assert s == [s[0]] + s[1..];
    }
  }

  /** Formatting with commas and then replacing every comma by a space is
      formatting with spaces. */
  lemma {:induction false} AmountIsSpaceGrouped(n: nat)
    ensures ReplaceAll(Grouped(n, ','), ",", " ") == Grouped(n, ' ')
    decreases n
  {
    if n < 1000 {
      ReplaceNoChar(Digits(n), ',', " ");
    } else {
      var g := Grouped(n / 1000, ',');
      AmountIsSpaceGrouped(n / 1000);
      ReplaceCharConcat(g + [','], Pad3(n % 1000), ',', " ");
      ReplaceCharConcat(g, [','], ',', " ");
      ReplaceNoChar(Pad3(n % 1000), ',', " ");
    }
  }

  /** The amount as the scripts print it, `f'{n:,.0f}'.replace(',', ' ')`:
      digits grouped by three with spaces, reading back as `n`. */
  function Amount(n: nat): (s: string)
    ensures s == Grouped(n, ' ')
    ensures Value(s, ' ') == n
  {
    AmountIsSpaceGrouped(n);
    GroupedRoundTrip(n, ' ');
    ReplaceAll(Grouped(n, ','), ",", " ")
  }

  /** The scripts format a whole line, `f'...{n:,.0f}...'.replace(',', ' ')`:
      where the literal text around the number has no comma, that is the
      text around `Amount(n)`. */
  lemma {:induction false} AmountInLine(pre: string, n: nat, post: string)
    requires NoCharFrom(pre, ',', 0, false) && NoCharFrom(post, ',', 0, false)
    ensures ReplaceAll(pre + Grouped(n, ',') + post, ",", " ") == pre + Amount(n) + post
  {
    forall i | 0 <= i < |pre| ensures pre[i] != ',' {
      NoCharFromAt(pre, ',', 0, false, i);
    }
    forall i | 0 <= i < |post| ensures post[i] != ',' {
      NoCharFromAt(post, ',', 0, false, i);
    }
    ReplaceCharConcat(pre + Grouped(n, ','), post, ',', " ");
    ReplaceCharConcat(pre, Grouped(n, ','), ',', " ");
    ReplaceNoChar(pre, ',', " ");
    ReplaceNoChar(post, ',', " ");
    AmountIsSpaceGrouped(n);
  }
}
