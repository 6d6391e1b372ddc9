/** `set_cell_border` of generate_proposal_v13.py: inside a cell's `w:tcPr`
    element, find the first `w:tcBorders` child or append a new one; then for
    each of the six edges, in order, whose keyword argument is a non-empty
    dictionary, find the first child element of that edge's tag or append a
    new one, and set on it those of the five attribute keys, in their order,
    that the dictionary holds. XML elements are values here: the function
    returns the rewritten `w:tcPr`. The script defines the helper but never
    calls it: the call at line 34 is the usage example in its docstring. */
module CellBorder {
  import opened Text

  /** An XML element: its tag, its attributes in document order, its children. */
  datatype Xml = Xml(tag: string, attrs: seq<(string, string)>, children: seq<Xml>)

  const Edges: seq<string> := ["start", "top", "end", "bottom", "insideH", "insideV"]
  const Keys: seq<string> := ["sz", "val", "color", "space", "shadow"]
  const BordersTag: string := "w:tcBorders"

  /** The qualified name `w:<name>`. */
  function Qn(name: string): string {
    "w:" + name
  }

  lemma QnInjective(a: string, b: string)
    ensures Qn(a) == Qn(b) ==> a == b
  {
    if Qn(a) == Qn(b) {
      assert a == Qn(a)[2..] && b == Qn(b)[2..];
    }
  }

  /** No two names of `ns` have the same qualified name. */
  predicate DistinctNames(ns: seq<string>) {
    forall i, j :: 0 <= i < j < |ns| ==> Qn(ns[i]) != Qn(ns[j])
  }

  lemma EdgesAndKeysDistinct()
    ensures DistinctNames(Edges) && DistinctNames(Keys)
  {
    forall i, j | 0 <= i < j < |Edges| ensures Qn(Edges[i]) != Qn(Edges[j]) {
      QnInjective(Edges[i], Edges[j]);
    }
    forall i, j | 0 <= i < j < |Keys| ensures Qn(Keys[i]) != Qn(Keys[j]) {
      QnInjective(Keys[i], Keys[j]);
    }
  }

  // ---- finding children ----

  /** `find(tag)` from position `i`: the first child at or after `i` with the tag. */
  function FindChildFrom(cs: seq<Xml>, tag: string, i: nat): (r: Option<nat>)
    ensures r.Some? ==> i <= r.value < |cs| && cs[r.value].tag == tag
    ensures r.Some? ==> forall j :: i <= j < r.value ==> cs[j].tag != tag
    ensures r.None? <==> forall j :: i <= j < |cs| ==> cs[j].tag != tag
    decreases |cs| - i
  {
    if i >= |cs| then None
    else if cs[i].tag == tag then Some(i)
    else FindChildFrom(cs, tag, i + 1)
  }

  function Find(cs: seq<Xml>, tag: string): (r: Option<nat>) {
    FindChildFrom(cs, tag, 0)
  }

  /** Two child lists with the same tags at the same positions find the same
      first child for every tag. */
  lemma {:induction false} FindSameTags(cs: seq<Xml>, ds: seq<Xml>, tag: string, i: nat)
    requires |cs| == |ds| && forall j :: 0 <= j < |cs| ==> cs[j].tag == ds[j].tag
    ensures FindChildFrom(cs, tag, i) == FindChildFrom(ds, tag, i)
    decreases |cs| - i
  {
    if i < |cs| {
      FindSameTags(cs, ds, tag, i + 1);
    }
  }

  /** Appending a child of another tag does not change what is found. */
  lemma AppendOtherTag(cs: seq<Xml>, x: Xml, tag: string)
    requires x.tag != tag
    ensures Find(cs + [x], tag) == Find(cs, tag)
  {
    var r := Find(cs + [x], tag);
    if r.Some? {
      assert (cs + [x])[r.value].tag == tag;
    }
    if Find(cs, tag).Some? {
      var k := Find(cs, tag).value;
      assert (cs + [x])[k].tag == tag;
    }
  }

  /** `find(tag)` or, when there is none, a new empty element of that tag
      appended: the children afterwards and the index of the element. */
  function FindOrAppend(cs: seq<Xml>, tag: string): (r: (seq<Xml>, nat))
    ensures r.1 < |r.0| && r.0[r.1].tag == tag && Find(r.0, tag) == Some(r.1)
    ensures Find(cs, tag).Some? ==> r.0 == cs
    ensures Find(cs, tag).None? ==> r.0 == cs + [Xml(tag, [], [])] && r.1 == |cs|
  {
    var f := Find(cs, tag);
    if f.Some? then (cs, f.value)
    else
      var cs' := cs + [Xml(tag, [], [])];
      assert forall j :: 0 <= j < |cs| ==> cs'[j].tag != tag;
      (cs', |cs|)
  }

  // ---- attributes ----

  /** The value of the first attribute called `name`. */
  function Lookup(attrs: seq<(string, string)>, name: string): Option<string> {
    if |attrs| == 0 then None
    else if attrs[0].0 == name then Some(attrs[0].1)
    else Lookup(attrs[1..], name)
  }

  /** `element.set(name, v)`: an existing attribute keeps its place and takes
      the value, a new one goes last. */
  function SetAttr(attrs: seq<(string, string)>, name: string, v: string): (r: seq<(string, string)>)
    ensures Lookup(r, name) == Some(v)
    ensures forall n :: n != name ==> Lookup(r, n) == Lookup(attrs, n)
    ensures Lookup(attrs, name) == Some(v) ==> r == attrs
    ensures |r| == |attrs| + (if Lookup(attrs, name).None? then 1 else 0)
  {
    if |attrs| == 0 then [(name, v)]
    else if attrs[0].0 == name then
      assert ([(name, v)] + attrs[1..])[1..] == attrs[1..];
      [(name, v)] + attrs[1..]
    else
      var t := SetAttr(attrs[1..], name, v);
      assert ([attrs[0]] + t)[1..] == t;
      [attrs[0]] + t
  }

  /** The attribute loop over `keys`, in order: each key the dictionary holds
      is set as `w:<key>`. */
  function SetAttrs(attrs: seq<(string, string)>, data: map<string, string>, keys: seq<string>): seq<(string, string)>
    decreases |keys|
  {
    if |keys| == 0 then attrs
    else
      var a := SetAttrs(attrs, data, keys[..|keys| - 1]);
      var k := keys[|keys| - 1];
      if k in data then SetAttr(a, Qn(k), data[k]) else a
  }

  /** Every attribute the element already has with the requested value. */
  predicate HasAttrs(attrs: seq<(string, string)>, data: map<string, string>, keys: seq<string>) {
    forall k :: k in keys && k in data ==> Lookup(attrs, Qn(k)) == Some(data[k])
  }

  /** After the loop, each requested attribute has its value; every other
      attribute is as it was. */
  lemma {:induction false} SetAttrsSets(attrs: seq<(string, string)>, data: map<string, string>, keys: seq<string>)
    requires DistinctNames(keys)
    ensures HasAttrs(SetAttrs(attrs, data, keys), data, keys)
    ensures forall n :: (forall k :: k in keys ==> n != Qn(k)) ==>
      Lookup(SetAttrs(attrs, data, keys), n) == Lookup(attrs, n)
    decreases |keys|
  {
    if |keys| > 0 {
      var init := keys[..|keys| - 1];
      var last := keys[|keys| - 1];
      assert DistinctNames(init);
      SetAttrsSets(attrs, data, init);
      forall k | k in init
        ensures Qn(k) != Qn(last)
      {
        var i :| 0 <= i < |init| && init[i] == k;
        assert keys[i] == k;
      }
      assert forall k :: k in keys ==> k in init || k == last;
    }
  }

  /** Setting attributes the element already has changes nothing. */
  lemma {:induction false} SetAttrsNoop(attrs: seq<(string, string)>, data: map<string, string>, keys: seq<string>)
    requires HasAttrs(attrs, data, keys)
    ensures SetAttrs(attrs, data, keys) == attrs
    decreases |keys|
  {
    if |keys| > 0 {
      var init := keys[..|keys| - 1];
      assert HasAttrs(attrs, data, init) by {
        forall k | k in init && k in data
          ensures Lookup(attrs, Qn(k)) == Some(data[k])
        {
          assert k in keys;
        }
      }
      SetAttrsNoop(attrs, data, init);
      assert keys[|keys| - 1] in keys;
    }
  }

  // ---- edges ----

  /** The keyword argument of an edge: missing counts as empty. */
  function DataFor(kwargs: map<string, map<string, string>>, edge: string): map<string, string> {
    if edge in kwargs then kwargs[edge] else map[]
  }

  /** One edge: nothing for an empty dictionary, otherwise find or append the
      edge element and set its attributes. */
  function ApplyEdge(cs: seq<Xml>, edge: string, data: map<string, string>): seq<Xml> {
    if |data| == 0 then cs
    else
      var (cs', i) := FindOrAppend(cs, Qn(edge));
      cs'[i := cs'[i].(attrs := SetAttrs(cs'[i].attrs, data, Keys))]
  }

  /** The edge loop over `es`, in order. */
  function ApplyEdges(cs: seq<Xml>, kwargs: map<string, map<string, string>>, es: seq<string>): seq<Xml>
    decreases |es|
  {
    if |es| == 0 then cs
    else
      var e := es[|es| - 1];
      ApplyEdge(ApplyEdges(cs, kwargs, es[..|es| - 1]), e, DataFor(kwargs, e))
  }

  /** The whole call on the `w:tcPr` element. */
  function CellBorders(tcPr: Xml, kwargs: map<string, map<string, string>>): Xml {
    var (cs, b) := FindOrAppend(tcPr.children, BordersTag);
    tcPr.(children := cs[b := cs[b].(children := ApplyEdges(cs[b].children, kwargs, Edges))])
  }

  /** `set_cell_border`: the find-or-create of `w:tcBorders`, then the edge
      loop and, per edge, the attribute loop. */
  method SetCellBorder(tcPr: Xml, kwargs: map<string, map<string, string>>) returns (r: Xml)
    ensures r == CellBorders(tcPr, kwargs)
  {
    var cs := tcPr.children;
    var found := Find(cs, BordersTag);
    var b: nat;
    if found.None? {
      cs := cs + [Xml(BordersTag, [], [])];
      b := |cs| - 1;
    } else {
      b := found.value;
    }
    var borders := cs[b].children;
    for n := 0 to |Edges|
      invariant borders == ApplyEdges(cs[b].children, kwargs, Edges[..n])
    {
      assert Edges[..n + 1][..n] == Edges[..n];
      var data := DataFor(kwargs, Edges[n]);
      if |data| > 0 {
        var tag := Qn(Edges[n]);
        var (bs, i) := FindOrAppend(borders, tag);
        var attrs := bs[i].attrs;
        for m := 0 to |Keys|
          invariant attrs == SetAttrs(bs[i].attrs, data, Keys[..m])
        {
          assert Keys[..m + 1][..m] == Keys[..m];
          if Keys[m] in data {
            attrs := SetAttr(attrs, Qn(Keys[m]), data[Keys[m]]);
          }
        }
        assert Keys[..|Keys|] == Keys;
        borders := bs[i := bs[i].(attrs := attrs)];
      }
    }
    assert Edges[..|Edges|] == Edges;
    r := tcPr.(children := cs[b := cs[b].(children := borders)]);
  }

  // ---- what the edge loop writes ----

  /** `t` is the tag of one of `es` whose dictionary is non-empty. */
  predicate Written(kwargs: map<string, map<string, string>>, es: seq<string>, t: string) {
    exists i :: 0 <= i < |es| && Qn(es[i]) == t && |DataFor(kwargs, es[i])| > 0
  }

  /** The edge loop only rewrites attributes of, or appends, elements whose
      tag is a written edge; appended elements have no children; positions
      and tags of the children already there are kept. */
  lemma {:induction false} OnlyEdgesWritten(cs: seq<Xml>, kwargs: map<string, map<string, string>>, es: seq<string>)
    ensures var r := ApplyEdges(cs, kwargs, es);
      && |r| >= |cs|
      && (forall j :: 0 <= j < |cs| ==> r[j].tag == cs[j].tag && r[j].children == cs[j].children)
      && (forall j :: 0 <= j < |cs| && r[j] != cs[j] ==> Written(kwargs, es, r[j].tag))
      && (forall j :: |cs| <= j < |r| ==> Written(kwargs, es, r[j].tag) && r[j].children == [])
    decreases |es|
  {
    if |es| > 0 {
      var init := es[..|es| - 1];
      var e := es[|es| - 1];
      OnlyEdgesWritten(cs, kwargs, init);
      var p := ApplyEdges(cs, kwargs, init);
      var data := DataFor(kwargs, e);
      var r := ApplyEdges(cs, kwargs, es);
      assert r == ApplyEdge(p, e, data);
      forall t | Written(kwargs, init, t)
        ensures Written(kwargs, es, t)
      {
        var i :| 0 <= i < |init| && Qn(init[i]) == t && |DataFor(kwargs, init[i])| > 0;
        assert es[i] == init[i];
      }
      if |data| > 0 {
        assert Qn(es[|es| - 1]) == Qn(e);
        assert Written(kwargs, es, Qn(e));
      }
    }
  }

  /** How many children have the tag. */
  function Count(cs: seq<Xml>, tag: string): nat {
    if |cs| == 0 then 0 else Count(cs[..|cs| - 1], tag) + (if cs[|cs| - 1].tag == tag then 1 else 0)
  }

  lemma {:induction false} CountNoneIsZero(cs: seq<Xml>, tag: string)
    ensures Count(cs, tag) == 0 <==> Find(cs, tag).None?
    decreases |cs|
  {
    if |cs| > 0 {
      var init := cs[..|cs| - 1];
      CountNoneIsZero(init, tag);
      if Find(init, tag).Some? {
        var k := Find(init, tag).value;
        assert cs[k].tag == tag;
      }
      if Find(cs, tag).Some? && cs[|cs| - 1].tag != tag {
        var k := Find(cs, tag).value;
        assert init[k].tag == tag;
      }
    }
  }

  lemma {:induction false} CountSameTags(cs: seq<Xml>, ds: seq<Xml>, tag: string)
    requires |cs| == |ds| && forall j :: 0 <= j < |cs| ==> cs[j].tag == ds[j].tag
    ensures Count(cs, tag) == Count(ds, tag)
    decreases |cs|
  {
    if |cs| > 0 {
      CountSameTags(cs[..|cs| - 1], ds[..|ds| - 1], tag);
    }
  }

  /** One edge adds an element of its tag only when there was none. */
  lemma ApplyEdgeCount(cs: seq<Xml>, edge: string, data: map<string, string>, tag: string)
    ensures Count(ApplyEdge(cs, edge, data), tag) ==
      if |data| > 0 && tag == Qn(edge) && Count(cs, tag) == 0 then 1 else Count(cs, tag)
  {
    if |data| > 0 {
      var (cs', i) := FindOrAppend(cs, Qn(edge));
      var r := cs'[i := cs'[i].(attrs := SetAttrs(cs'[i].attrs, data, Keys))];
      CountSameTags(r, cs', tag);
      CountNoneIsZero(cs, Qn(edge));
      if Find(cs, Qn(edge)).None? {
        assert cs'[..|cs'| - 1] == cs;
      }
    }
  }

  /** The edge loop never duplicates an edge element: a written edge's tag
      occurs once if it was absent and as often as before otherwise; every
      other tag as often as before. */
  lemma {:induction false} NoDuplicateEdges(cs: seq<Xml>, kwargs: map<string, map<string, string>>, es: seq<string>, tag: string)
    requires DistinctNames(es)
    ensures Count(ApplyEdges(cs, kwargs, es), tag) ==
      if Written(kwargs, es, tag) && Count(cs, tag) == 0 then 1 else Count(cs, tag)
    decreases |es|
  {
    if |es| > 0 {
      var init := es[..|es| - 1];
      var e := es[|es| - 1];
      assert DistinctNames(init);
      NoDuplicateEdges(cs, kwargs, init, tag);
      ApplyEdgeCount(ApplyEdges(cs, kwargs, init), e, DataFor(kwargs, e), tag);
      if Written(kwargs, es, tag) {
        var i :| 0 <= i < |es| && Qn(es[i]) == tag && |DataFor(kwargs, es[i])| > 0;
        if i < |es| - 1 {
          assert init[i] == es[i];
          assert Qn(e) != tag;
        }
      }
      if Written(kwargs, init, tag) {
        var i :| 0 <= i < |init| && Qn(init[i]) == tag && |DataFor(kwargs, init[i])| > 0;
        assert es[i] == init[i];
      }
    }
  }

  // ---- the values written, and idempotence ----

  /** The edge's element is there with every requested attribute value. */
  predicate Applied(cs: seq<Xml>, edge: string, data: map<string, string>) {
    |data| == 0 || (Find(cs, Qn(edge)).Some? && HasAttrs(cs[Find(cs, Qn(edge)).value].attrs, data, Keys))
  }

  lemma ApplyEdgeEstablishes(cs: seq<Xml>, edge: string, data: map<string, string>)
    ensures Applied(ApplyEdge(cs, edge, data), edge, data)
  {
    if |data| > 0 {
      var (cs', i) := FindOrAppend(cs, Qn(edge));
      var r := cs'[i := cs'[i].(attrs := SetAttrs(cs'[i].attrs, data, Keys))];
      FindSameTags(r, cs', Qn(edge), 0);
      EdgesAndKeysDistinct();
      SetAttrsSets(cs'[i].attrs, data, Keys);
    }
  }

  lemma ApplyEdgeKeeps(cs: seq<Xml>, edge: string, data: map<string, string>, other: string, d: map<string, string>)
    requires Qn(edge) != Qn(other) && Applied(cs, other, d)
    ensures Applied(ApplyEdge(cs, edge, data), other, d)
  {
    if |data| > 0 && |d| > 0 {
      var (cs', i) := FindOrAppend(cs, Qn(edge));
      var r := cs'[i := cs'[i].(attrs := SetAttrs(cs'[i].attrs, data, Keys))];
      FindSameTags(r, cs', Qn(other), 0);
      if Find(cs, Qn(edge)).None? {
        AppendOtherTag(cs, Xml(Qn(edge), [], []), Qn(other));
      }
      var k := Find(cs, Qn(other)).value;
      assert k != i;
    }
  }

  lemma ApplyEdgeNoop(cs: seq<Xml>, edge: string, data: map<string, string>)
    requires Applied(cs, edge, data)
    ensures ApplyEdge(cs, edge, data) == cs
  {
    if |data| > 0 {
      var i := Find(cs, Qn(edge)).value;
      SetAttrsNoop(cs[i].attrs, data, Keys);
      assert cs[i := cs[i].(attrs := cs[i].attrs)] == cs;
    }
  }

  /** After the edge loop every edge of `es` is applied. */
  lemma {:induction false} ApplyEdgesEstablish(cs: seq<Xml>, kwargs: map<string, map<string, string>>, es: seq<string>)
    requires DistinctNames(es)
    ensures forall i :: 0 <= i < |es| ==> Applied(ApplyEdges(cs, kwargs, es), es[i], DataFor(kwargs, es[i]))
    decreases |es|
  {
    if |es| > 0 {
      var init := es[..|es| - 1];
      var e := es[|es| - 1];
      var p := ApplyEdges(cs, kwargs, init);
      assert DistinctNames(init);
      ApplyEdgesEstablish(cs, kwargs, init);
      ApplyEdgeEstablishes(p, e, DataFor(kwargs, e));
      forall i | 0 <= i < |es| - 1
        ensures Applied(ApplyEdge(p, e, DataFor(kwargs, e)), es[i], DataFor(kwargs, es[i]))
      {
        assert init[i] == es[i];
        ApplyEdgeKeeps(p, e, DataFor(kwargs, e), es[i], DataFor(kwargs, es[i]));
      }
    }
  }

  /** An edge loop over edges that are all applied changes nothing. */
  lemma {:induction false} ApplyEdgesNoop(cs: seq<Xml>, kwargs: map<string, map<string, string>>, es: seq<string>)
    requires forall i :: 0 <= i < |es| ==> Applied(cs, es[i], DataFor(kwargs, es[i]))
    ensures ApplyEdges(cs, kwargs, es) == cs
    decreases |es|
  {
    if |es| > 0 {
      var init := es[..|es| - 1];
      assert forall i :: 0 <= i < |init| ==> init[i] == es[i];
      ApplyEdgesNoop(cs, kwargs, init);
      ApplyEdgeNoop(cs, es[|es| - 1], DataFor(kwargs, es[|es| - 1]));
    }
  }

  /** Each requested edge ends up with its first element of that tag holding
      every requested attribute value. */
  lemma BordersWritten(tcPr: Xml, kwargs: map<string, map<string, string>>, e: nat)
    requires e < |Edges|
    ensures var r := CellBorders(tcPr, kwargs);
      var b := Find(r.children, BordersTag);
      b.Some? && Applied(r.children[b.value].children, Edges[e], DataFor(kwargs, Edges[e]))
  {
    var (cs, b) := FindOrAppend(tcPr.children, BordersTag);
    var r := CellBorders(tcPr, kwargs);
    FindSameTags(r.children, cs, BordersTag, 0);
    EdgesAndKeysDistinct();
    ApplyEdgesEstablish(cs[b].children, kwargs, Edges);
  }

  /** Calling `set_cell_border` twice with the same arguments gives the same
      element as calling it once. */
  lemma CellBordersIdempotent(tcPr: Xml, kwargs: map<string, map<string, string>>)
    ensures CellBorders(CellBorders(tcPr, kwargs), kwargs) == CellBorders(tcPr, kwargs)
  {
    var (cs, b) := FindOrAppend(tcPr.children, BordersTag);
    var x := CellBorders(tcPr, kwargs);
    FindSameTags(x.children, cs, BordersTag, 0);
    EdgesAndKeysDistinct();
    var inner := ApplyEdges(cs[b].children, kwargs, Edges);
    ApplyEdgesEstablish(cs[b].children, kwargs, Edges);
    ApplyEdgesNoop(inner, kwargs, Edges);
    assert x.children[b := x.children[b].(children := inner)] == x.children;
  }
}
