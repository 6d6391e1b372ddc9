/** Python string operations used by the document-editing scripts: `w in s`,
    `s.replace(old, new)`, `s.strip()` and `"\n".join(...)`, over `seq<char>`. */
module Text {

  datatype Option<T> = None | Some(value: T)

  /** `w` occurs in `s` starting at offset `p` (slice form, used in proofs). */
  predicate OccursAt(s: string, w: string, p: nat) {
    p + |w| <= |s| && s[p..p + |w|] == w
  }

  /** `s` starts with `w`. */
  predicate StartsWith(s: string, w: string) {
    OccursAt(s, w, 0)
  }

  /** Characters `j..` of `w` match `s` at offset `i` (index form, which the
      verifier can evaluate on literals). */
  predicate MatchAt(s: string, w: string, i: nat, j: nat)
    requires i + |w| <= |s| && j <= |w|
    decreases |w| - j
  {
    j == |w| || (s[i + j] == w[j] && MatchAt(s, w, i, j + 1))
  }

  /** `w` occurs in `s` at some offset `>= i`. */
  predicate OccursFrom(s: string, w: string, i: nat)
    decreases |s| + 1 - i
  {
    i + |w| <= |s| && (MatchAt(s, w, i, 0) || OccursFrom(s, w, i + 1))
  }

  /** Python's `w in s`. */
  predicate Contains(s: string, w: string) {
    OccursFrom(s, w, 0)
  }

  lemma {:induction false} MatchAtSlice(s: string, w: string, i: nat, j: nat)
    requires i + |w| <= |s| && j <= |w|
    ensures MatchAt(s, w, i, j) <==> s[i + j..i + |w|] == w[j..]
    decreases |w| - j
  {
    if j < |w| {
      MatchAtSlice(s, w, i, j + 1);
      assert s[i + j..i + |w|] == [s[i + j]] + s[i + j + 1..i + |w|];
      assert w[j..] == [w[j]] + w[j + 1..];
    }
  }

  lemma {:induction false} OccursFromIff(s: string, w: string, i: nat)
    ensures OccursFrom(s, w, i) <==> exists p: nat :: i <= p && OccursAt(s, w, p)
    decreases |s| + 1 - i
  {
    if i + |w| <= |s| {
      MatchAtSlice(s, w, i, 0);
      OccursFromIff(s, w, i + 1);
      if OccursFrom(s, w, i) {
        if MatchAt(s, w, i, 0) {
          assert OccursAt(s, w, i);
        }
      } else {
        forall p: nat | i <= p ensures !OccursAt(s, w, p) {
          if p == i {
            assert !MatchAt(s, w, i, 0);
          }
        }
      }
    } else {
      forall p: nat | i <= p ensures !OccursAt(s, w, p) {}
    }
  }

  /** `Contains` is exactly "occurs at some offset". */
  lemma ContainsIff(s: string, w: string)
    ensures Contains(s, w) <==> exists p: nat :: OccursAt(s, w, p)
  {
    OccursFromIff(s, w, 0);
  }

  lemma ContainsWitness(s: string, w: string, p: nat)
    requires OccursAt(s, w, p)
    ensures Contains(s, w)
  {
    ContainsIff(s, w);
  }

  lemma ContainsSuffix(s: string, w: string, k: nat)
    requires k <= |s| && Contains(s[k..], w)
    ensures Contains(s, w)
  {
    ContainsIff(s[k..], w);
    var p: nat :| OccursAt(s[k..], w, p);
    assert s[k..][p..p + |w|] == s[k + p..k + p + |w|];
    ContainsWitness(s, w, k + p);
  }

  /** Python's `s.replace(pat, rep)`: scans left to right and replaces every
      non-overlapping occurrence of `pat`. Every caller passes a non-empty `pat`. */
  function ReplaceAll(s: string, pat: string, rep: string): string
    requires |pat| > 0
    decreases |s|
  {
    if |s| < |pat| then s
    else if s[..|pat|] == pat then rep + ReplaceAll(s[|pat|..], pat, rep)
    else [s[0]] + ReplaceAll(s[1..], pat, rep)
  }

  /** A string without `pat` comes back unchanged. */
  lemma {:induction false} ReplaceAbsent(s: string, pat: string, rep: string)
    requires |pat| > 0 && !Contains(s, pat)
    ensures ReplaceAll(s, pat, rep) == s
    decreases |s|
  {
    if |s| >= |pat| {
      if s[..|pat|] == pat {
        ContainsWitness(s, pat, 0);
      }
      if Contains(s[1..], pat) {
        ContainsSuffix(s, pat, 1);
      }
      ReplaceAbsent(s[1..], pat, rep);
      assert s == [s[0]] + s[1..];
    }
  }

  /** Every occurrence is replaced: with `pat` present and `rep` not
      containing `pat`, the result differs from the input. */
  lemma {:induction false} ReplacePresentChanges(s: string, pat: string, rep: string)
    requires |pat| > 0 && Contains(s, pat) && CannotCreate(pat, rep)
    ensures ReplaceAll(s, pat, rep) != s
  {
    NoOccurrenceAfterReplace(s, pat, rep, pat);
  }

  /** `x` has character `c` nowhere in positions `j..`, except possibly at its
      last position when `butLast` holds. */
  predicate NoCharFrom(x: string, c: char, j: nat, butLast: bool)
    decreases |x| - j
  {
    j + (if butLast then 1 else 0) >= |x| || (x[j] != c && NoCharFrom(x, c, j + 1, butLast))
  }

  /** The last `|rep| - k` characters of `rep`, compared from position `j`,
      equal the first characters of `x`. */
  predicate TailMatches(rep: string, x: string, k: nat, j: nat)
    requires k <= |rep| && |rep| - k <= |x| && j <= |rep| - k
    decreases |rep| - k - j
  {
    j == |rep| - k || (rep[k + j] == x[j] && TailMatches(rep, x, k, j + 1))
  }

  /** No tail of `rep` starting at `k` or later is a proper beginning of `x`. */
  predicate NoTailIsHead(rep: string, x: string, k: nat)
    decreases |rep| - k
  {
    k >= |rep| || ((|rep| - k >= |x| || !TailMatches(rep, x, k, 0)) && NoTailIsHead(rep, x, k + 1))
  }

  /** Replacing anything by `rep` can never create a new occurrence of `x`:
      `x` does not occur inside `rep`, `x` has the first character of `rep`
      only at its head, and no tail of `rep` begins `x` (checked either
      directly or because `x` has the last character of `rep` only at its end). */
  predicate CannotCreate(x: string, rep: string) {
    && |x| > 0 && |rep| > 0 && !Contains(rep, x)
    && NoCharFrom(x, rep[0], 1, false)
    && (NoCharFrom(x, rep[|rep| - 1], 0, true) || NoTailIsHead(rep, x, 0))
  }

  lemma {:induction false} TailMatchesSlice(rep: string, x: string, k: nat, j: nat)
    requires k <= |rep| && |rep| - k <= |x| && j <= |rep| - k
    ensures TailMatches(rep, x, k, j) <==> rep[k + j..] == x[j..|rep| - k]
    decreases |rep| - k - j
  {
    if j < |rep| - k {
      TailMatchesSlice(rep, x, k, j + 1);
      assert rep[k + j..] == [rep[k + j]] + rep[k + j + 1..];
      assert x[j..|rep| - k] == [x[j]] + x[j + 1..|rep| - k];
    }
  }

  lemma {:induction false} NoTailIsHeadAt(rep: string, x: string, k: nat, i: nat)
    requires NoTailIsHead(rep, x, k) && k <= i < |rep| && |rep| - i < |x|
    ensures rep[i..] != x[..|rep| - i]
    decreases i - k
  {
    if k < i {
      NoTailIsHeadAt(rep, x, k + 1, i);
    } else {
      TailMatchesSlice(rep, x, i, 0);
    }
  }

  lemma {:induction false} NoCharFromAt(x: string, c: char, j: nat, butLast: bool, i: nat)
    requires NoCharFrom(x, c, j, butLast) && j <= i && i + (if butLast then 1 else 0) < |x|
    ensures x[i] != c
    decreases i - j
  {
    if j < i {
      NoCharFromAt(x, c, j + 1, butLast, i);
    }
  }

  /** If the replaced string starts with `w`, and `w` never contains the first
      character of `rep`, then the original string already started with `w`. */
  lemma {:induction false} PrefixSurvives(t: string, pat: string, rep: string, w: string)
    requires |pat| > 0 && |rep| > 0
    requires forall j :: 0 <= j < |w| ==> w[j] != rep[0]
    requires StartsWith(ReplaceAll(t, pat, rep), w)
    ensures StartsWith(t, w)
    decreases |t|
  {
    var r := ReplaceAll(t, pat, rep);
    if |w| > 0 && |t| >= |pat| {
      assert w[0] != rep[0];
      assert r[0] == w[0];
      if t[..|pat|] == pat {
        assert false;
      } else {
        var r' := ReplaceAll(t[1..], pat, rep);
        assert r == [t[0]] + r';
        assert r'[..|w| - 1] == r[1..|w|];
        assert w[1..] == r[1..|w|];
        PrefixSurvives(t[1..], pat, rep, w[1..]);
        assert t == [t[0]] + t[1..];
        assert t[..|w|] == [t[0]] + t[1..][..|w| - 1];
      }
    }
  }

  /** `x` does not occur at `p` in `rep + b`: not within `b`, not within
      `rep`, and not across the boundary. */
  lemma NotAtJoin(rep: string, b: string, x: string, p: nat)
    requires CannotCreate(x, rep) && !Contains(b, x)
    ensures !OccursAt(rep + b, x, p)
  {
    var u := rep + b;
    if p + |x| <= |u| {
      var v := u[p..p + |x|];
      if p >= |rep| {
        ContainsIff(b, x);
        assert !OccursAt(b, x, p - |rep|);
        assert v == b[p - |rep|..p - |rep| + |x|];
      } else if p + |x| <= |rep| {
        ContainsIff(rep, x);
        assert !OccursAt(rep, x, p);
        assert v == rep[p..p + |x|];
      } else if NoCharFrom(x, rep[|rep| - 1], 0, true) {
        NoCharFromAt(x, rep[|rep| - 1], 0, true, |rep| - 1 - p);
        assert v[|rep| - 1 - p] == rep[|rep| - 1];
      } else {
        NoTailIsHeadAt(rep, x, 0, p);
        assert v[..|rep| - p] == u[p..|rep|];
        assert u[p..|rep|] == rep[p..];
      }
    }
  }

  /** `x` cannot straddle the boundary between `rep` and what follows it. */
  lemma NoStraddle(rep: string, b: string, x: string)
    requires CannotCreate(x, rep) && !Contains(b, x)
    ensures !Contains(rep + b, x)
  {
    forall p: nat
      ensures !OccursAt(rep + b, x, p)
    {
      NotAtJoin(rep, b, x, p);
    }
    ContainsIff(rep + b, x);
  }

  /** After `s.replace(pat, rep)` the string contains `x` nowhere, provided
      `rep` cannot create `x` and either `x` is `pat` itself or `s` had no `x`. */
  lemma {:induction false} NoOccurrenceAfterReplace(s: string, pat: string, rep: string, x: string)
    requires |pat| > 0 && CannotCreate(x, rep)
    requires x == pat || !Contains(s, x)
    ensures !Contains(ReplaceAll(s, pat, rep), x)
    decreases |s|
  {
    if |s| < |pat| {
      if x == pat {
        ContainsIff(s, x);
      }
    } else if s[..|pat|] == pat {
      var t := s[|pat|..];
      if x != pat && Contains(t, x) {
        ContainsSuffix(s, x, |pat|);
      }
      NoOccurrenceAfterReplace(t, pat, rep, x);
      NoStraddle(rep, ReplaceAll(t, pat, rep), x);
    } else {
      if x != pat && Contains(s[1..], x) {
        ContainsSuffix(s, x, 1);
      }
      NoOccurrenceAfterReplace(s[1..], pat, rep, x);
      NotAtHead(s, pat, rep, x);
      NoOccurrencePastHead(s[0], ReplaceAll(s[1..], pat, rep), x);
    }
  }

  /** A string with no `x` after its first character, and none at it, has no `x`. */
  lemma NoOccurrencePastHead(c: char, r: string, x: string)
    requires !Contains(r, x) && !OccursAt([c] + r, x, 0)
    ensures !Contains([c] + r, x)
  {
    ContainsIff([c] + r, x);
    forall p: nat | p > 0 ensures !OccursAt([c] + r, x, p) {
      if OccursAt([c] + r, x, p) {
        assert ([c] + r)[p..p + |x|] == r[p - 1..p - 1 + |x|];
        ContainsWitness(r, x, p - 1);
      }
    }
  }

  /** When `s` does not start with `pat`, its replacement cannot start with `x`. */
  lemma NotAtHead(s: string, pat: string, rep: string, x: string)
    requires |pat| > 0 && CannotCreate(x, rep)
    requires |s| >= |pat| && s[..|pat|] != pat
    requires x == pat || !Contains(s, x)
    ensures !OccursAt(ReplaceAll(s, pat, rep), x, 0)
  {
    var r' := ReplaceAll(s[1..], pat, rep);
    assert ReplaceAll(s, pat, rep) == [s[0]] + r';
    if OccursAt([s[0]] + r', x, 0) {
      HeadSplit(s[0], r', x);
      forall j | 0 <= j < |x[1..]| ensures x[1..][j] != rep[0] {
        NoCharFromAt(x, rep[0], 1, false, j + 1);
      }
      PrefixSurvives(s[1..], pat, rep, x[1..]);
      HeadJoin(s, x);
      if x != pat {
        ContainsWitness(s, x, 0);
      }
    }
  }

  lemma HeadSplit(c: char, t: string, x: string)
    requires |x| > 0 && OccursAt([c] + t, x, 0)
    ensures c == x[0] && StartsWith(t, x[1..])
  {
    assert ([c] + t)[1..|x|] == t[..|x| - 1];
  }

  lemma HeadJoin(s: string, x: string)
    requires |x| > 0 && |s| > 0 && s[0] == x[0] && StartsWith(s[1..], x[1..])
    ensures StartsWith(s, x)
  {
    assert s[..|x|] == [s[0]] + s[1..][..|x| - 1];
  }

  /** With a `rep` that cannot recreate `pat`, replacing twice is replacing once. */
  lemma ReplaceIdempotent(s: string, pat: string, rep: string)
    requires |pat| > 0 && CannotCreate(pat, rep)
    ensures ReplaceAll(ReplaceAll(s, pat, rep), pat, rep) == ReplaceAll(s, pat, rep)
  {
    NoOccurrenceAfterReplace(s, pat, rep, pat);
    ReplaceAbsent(ReplaceAll(s, pat, rep), pat, rep);
  }

  /** Python's `sep.join(ps)`. */
  function Join(ps: seq<string>, sep: string): string
    decreases |ps|
  {
    if |ps| == 0 then ""
    else if |ps| == 1 then ps[0]
    else ps[0] + sep + Join(ps[1..], sep)
  }

  /** A paragraph's text is part of the joined text, so a cell whose text lacks
      `w` has no paragraph containing `w`. */
  lemma {:induction false} JoinContains(ps: seq<string>, sep: string, i: nat, w: string)
    requires i < |ps| && Contains(ps[i], w)
    ensures Contains(Join(ps, sep), w)
    decreases |ps|
  {
    if |ps| > 1 {
      var head := ps[0] + sep;
      var rest := Join(ps[1..], sep);
      assert Join(ps, sep) == head + rest;
      if i == 0 {
        ContainsPrefix(ps[0], sep + rest, w);
        assert ps[0] + (sep + rest) == head + rest;
      } else {
        JoinContains(ps[1..], sep, i - 1, w);
        assert (head + rest)[|head|..] == rest;
        ContainsSuffix(head + rest, w, |head|);
      }
    }
  }

  /** What a string contains, it still contains with text appended. */
  lemma ContainsPrefix(s: string, t: string, w: string)
    requires Contains(s, w)
    ensures Contains(s + t, w)
  {
    ContainsIff(s, w);
    var p: nat :| OccursAt(s, w, p);
    assert (s + t)[p..p + |w|] == s[p..p + |w|];
    ContainsWitness(s + t, w, p);
  }

  /** Python's `str.isspace()` for one character. */
  predicate IsSpace(c: char) {
    ('\t' <= c <= '\r') || ('\U{1c}' <= c <= ' ') || c == '\U{85}' || c == '\U{a0}'
    || c == '\U{1680}' || ('\U{2000}' <= c <= '\U{200a}') || c == '\U{2028}' || c == '\U{2029}'
    || c == '\U{202f}' || c == '\U{205f}' || c == '\U{3000}'
  }

  function TrimLeft(s: string): (r: string)
    ensures |r| <= |s| && s[|s| - |r|..] == r
    ensures |r| > 0 ==> !IsSpace(r[0])
    ensures forall i :: 0 <= i < |s| - |r| ==> IsSpace(s[i])
    decreases |s|
  {
    if |s| > 0 && IsSpace(s[0]) then TrimLeft(s[1..]) else s
  }

  function TrimRight(s: string): (r: string)
    ensures |r| <= |s| && s[..|r|] == r
    ensures |r| > 0 ==> !IsSpace(r[|r| - 1])
    ensures forall i :: |r| <= i < |s| ==> IsSpace(s[i])
    decreases |s|
  {
    if |s| > 0 && IsSpace(s[|s| - 1]) then TrimRight(s[..|s| - 1]) else s
  }

  /** Python's `s.strip()`. */
  function Strip(s: string): string {
    TrimRight(TrimLeft(s))
  }

  predicate AllSpace(t: string) {
    forall i :: 0 <= i < |t| ==> IsSpace(t[i])
  }

  /** `s.strip()` is the part of `s` between a run of leading and a run of
      trailing whitespace, and it neither starts nor ends with whitespace. */
  lemma StripSpec(s: string)
    ensures var r := Strip(s);
      && (exists a: nat :: OccursAt(s, r, a) && AllSpace(s[..a]) && AllSpace(s[a + |r|..]))
      && (|r| > 0 ==> !IsSpace(r[0]) && !IsSpace(r[|r| - 1]))
  {
    var l := TrimLeft(s);
    var r := TrimRight(l);
    var a := |s| - |l|;
    assert s[a..] == l;
    assert s[a..a + |r|] == r by {
      assert s[a..a + |r|] == s[a..][..|r|];
    }
    assert AllSpace(s[..a]);
    var tail := s[a + |r|..];
    assert AllSpace(tail) by {
      forall i | 0 <= i < |tail| ensures IsSpace(tail[i]) {
        assert tail[i] == l[|r| + i];
      }
    }
    assert OccursAt(s, r, a);
  }

  /** `s` ends with `w`. */
  predicate EndsWith(s: string, w: string) {
    |w| <= |s| && s[|s| - |w|..] == w
  }

  /** Python's `s.find(w, i)` for a non-empty `w`: the first offset `>= i` at
      which `w` occurs, or -1. */
  function FindFrom(s: string, w: string, i: nat): (r: int)
    requires |w| > 0
    ensures r == -1 || (i <= r && OccursAt(s, w, r))
    ensures r == -1 ==> forall p: nat :: i <= p ==> !OccursAt(s, w, p)
    ensures r >= 0 ==> forall p: nat :: i <= p < r ==> !OccursAt(s, w, p)
    decreases |s| - i
  {
    if i + |w| > |s| then -1
    else if s[i..i + |w|] == w then i
    else FindFrom(s, w, i + 1)
  }

  /** Python's `s.split(w)[0]`: the text before the first `w`, or all of `s`. */
  function SplitHead(s: string, w: string): (r: string)
    requires |w| > 0
    ensures StartsWith(s, r) && !Contains(r, w)
    ensures forall p: nat :: p < |r| ==> !OccursAt(s, w, p)
    ensures r == s || (OccursAt(s, w, |r|) && s[|r|] == w[0])
  {
    var f := FindFrom(s, w, 0);
    var r := if f < 0 then s else s[..f];
    ContainsIff(r, w);
    assert forall p: nat :: OccursAt(r, w, p) ==> OccursAt(s, w, p) by {
      forall p: nat | OccursAt(r, w, p) ensures OccursAt(s, w, p) {
        assert s[p..p + |w|] == r[p..p + |w|];
      }
    }
    assert s[..|r|] == r;
    r
  }

  /** Python's `s.split(w)[1]`, defined when `w` occurs in `s`: the text
      between the first and the second `w`, or to the end. */
  function SplitSecond(s: string, w: string): (r: string)
    requires |w| > 0 && Contains(s, w)
    ensures exists f: nat :: && OccursAt(s, w, f) && !Contains(s[..f + |w| - 1], w)
                             && StartsWith(s[f + |w|..], r)
                             && (r == s[f + |w|..] || OccursAt(s[f + |w|..], w, |r|))
    ensures !Contains(r, w)
  {
    ContainsIff(s, w);
    var f := FindFrom(s, w, 0);
    FirstIsFirst(s, w, f);
    var r := SplitHead(s[f + |w|..], w);
    assert OccursAt(s, w, f) && !Contains(s[..f + |w| - 1], w) && StartsWith(s[f + |w|..], r)
      && (r == s[f + |w|..] || OccursAt(s[f + |w|..], w, |r|));
    r
  }

  /** An offset before which `w` does not occur starts the only prefix
      without `w` that reaches one character into it. */
  lemma FirstIsFirst(s: string, w: string, f: nat)
    requires |w| > 0 && OccursAt(s, w, f)
    requires forall p: nat :: p < f ==> !OccursAt(s, w, p)
    ensures !Contains(s[..f + |w| - 1], w)
  {
    var t := s[..f + |w| - 1];
    ContainsIff(t, w);
    forall p: nat | OccursAt(t, w, p) ensures false {
      assert t[p..p + |w|] == s[p..p + |w|];
      assert p < f && OccursAt(s, w, p);
    }
  }

  /** Where `w` occurs at `k` and no character before `k` is `w[0]`,
      `s.split(w)[0]` is `s[..k]`. */
  lemma SplitHeadAt(s: string, w: string, k: nat)
    requires |w| > 0 && OccursAt(s, w, k)
    requires forall i :: 0 <= i < k ==> s[i] != w[0]
    ensures SplitHead(s, w) == s[..k]
  {
  }

  /** Where no character of `s` is `w[0]`, `s.split(w)[0]` is all of `s`. */
  lemma SplitHeadWhole(s: string, w: string)
    requires |w| > 0
    requires forall i :: 0 <= i < |s| ==> s[i] != w[0]
    ensures SplitHead(s, w) == s
  {
  }
}
