/** What the pages share when they price a list of items: the catalog
    lookup `prices[id]?.currentPrice || 0`, the resolution
    `fixedPrice || catalog || 0`, totals of price times quantity, and the
    selection record with its toggle `{...prev, [id]: !prev[id]}`. */
module Quote {
  import opened Text
  import opened Pricing

  datatype Category = Hardware | Software | Implementation
  datatype Variant = Basic | Optimal

  /** An item of a hard-coded list; `fixedPrice` is absent on items priced
      from the catalog. (The lists' display names are not part of the
      model.) */
  datatype Item = Item(id: string, qty: nat, category: Category, fixedPrice: Option<int>)

  /** An item with the unit price it was given. */
  datatype PricedItem = PricedItem(id: string, qty: nat, category: Category, price: int)

  /** What an exporter is handed: the variant, the items and their total. */
  datatype Proposal = Proposal(variant: Variant, items: seq<PricedItem>, totalPrice: int)

  /** A row as the exporters read it: a display name, a quantity and a unit
      price. */
  datatype LineItem = LineItem(name: string, qty: nat, price: int)

  /** The exporters' view of priced items; `name` stands for the display
      names the hard-coded lists give their ids. */
  function Named(items: seq<PricedItem>, name: string -> string): (r: seq<LineItem>)
    ensures |r| == |items|
    ensures forall k :: 0 <= k < |items| ==> r[k] == LineItem(name(items[k].id), items[k].qty, items[k].price)
  {
    seq(|items|, k requires 0 <= k < |items| => LineItem(name(items[k].id), items[k].qty, items[k].price))
  }

  /** `prices[id]?.currentPrice || 0`: a missing entry reads as 0 (and a zero
      price reads as 0 either way). */
  function CatalogPrice(prices: map<string, Entry>, id: string): int {
    if id in prices then prices[id].currentPrice else 0
  }

  /** `fixedPrice || catalog || 0`: a fixed price wins unless it is absent or
      0, which JavaScript's `||` treats alike. */
  function Resolve(it: Item, prices: map<string, Entry>): (p: int)
    ensures it.fixedPrice.Some? && it.fixedPrice.value != 0 ==> p == it.fixedPrice.value
    ensures (it.fixedPrice.None? || it.fixedPrice.value == 0) ==> p == CatalogPrice(prices, it.id)
  {
    match it.fixedPrice
    case Some(f) => if f != 0 then f else CatalogPrice(prices, it.id)
    case None => CatalogPrice(prices, it.id)
  }

  function WithPrice(it: Item, price: int): PricedItem {
    PricedItem(it.id, it.qty, it.category, price)
  }

  /** `items.map(item => ({...item, price: fixedPrice || catalog || 0}))`. */
  function PriceAll(items: seq<Item>, prices: map<string, Entry>): (r: seq<PricedItem>)
    ensures |r| == |items|
    ensures forall k :: 0 <= k < |items| ==> r[k] == WithPrice(items[k], Resolve(items[k], prices))
  {
    seq(|items|, k requires 0 <= k < |items| => WithPrice(items[k], Resolve(items[k], prices)))
  }

  /** The sum of price times quantity over the first `n` items. */
  function Total(items: seq<PricedItem>, n: nat): int
    requires n <= |items|
  {
    if n == 0 then 0 else Total(items, n - 1) + items[n - 1].price * items[n - 1].qty
  }

  /** `selectedItems[id]` read as a condition: an absent id is not selected. */
  predicate Selected(sel: map<string, bool>, id: string) {
    id in sel && sel[id]
  }

  /** `{...prev, [id]: !prev[id]}`: the given id is set to the negation of
      its truthiness; every other entry, and the key set apart from `id`,
      stays as it was. */
  function Toggle(sel: map<string, bool>, id: string): (r: map<string, bool>)
    ensures r.Keys == sel.Keys + {id}
    ensures Selected(r, id) <==> !Selected(sel, id)
    ensures forall k :: k in sel && k != id ==> r[k] == sel[k]
  {
    sel[id := !Selected(sel, id)]
  }

  /** Toggling twice restores a present id; an absent id comes back as an
      explicit `false`, which still reads as not selected. */
  lemma ToggleTwice(sel: map<string, bool>, id: string)
    ensures id in sel ==> Toggle(Toggle(sel, id), id) == sel
    ensures id !in sel ==> Toggle(Toggle(sel, id), id) == sel[id := false]
    ensures Selected(Toggle(Toggle(sel, id), id), id) == Selected(sel, id)
  {
    if id in sel {
      assert Toggle(Toggle(sel, id), id)[id] == sel[id];
      assert Toggle(Toggle(sel, id), id).Keys == sel.Keys;
    }
  }

  /** The export loop's result: the listed items that are selected, in list
      order, each priced by the catalog or, when `useFixed`, by its fixed
      price first. */
  function Chosen(items: seq<Item>, sel: map<string, bool>, prices: map<string, Entry>, useFixed: bool, n: nat): seq<PricedItem>
    requires n <= |items|
  {
    if n == 0 then []
    else
      var it := items[n - 1];
      Chosen(items, sel, prices, useFixed, n - 1)
        + (if Selected(sel, it.id)
           then [WithPrice(it, if useFixed then Resolve(it, prices) else CatalogPrice(prices, it.id))]
           else [])
  }

  /** The indices below `n` of the selected items, in increasing order. */
  function SelectedIndices(items: seq<Item>, sel: map<string, bool>, n: nat): (ks: seq<nat>)
    requires n <= |items|
    ensures forall j :: 0 <= j < |ks| ==> ks[j] < n
    ensures forall i, j :: 0 <= i < j < |ks| ==> ks[i] < ks[j]
    ensures forall k :: 0 <= k < n ==> (k in ks <==> Selected(sel, items[k].id))
  {
    if n == 0 then []
    else SelectedIndices(items, sel, n - 1) + (if Selected(sel, items[n - 1].id) then [n - 1] else [])
  }

  /** An item is exported iff it is listed and selected. */
  lemma {:induction false} ChosenMembers(items: seq<Item>, sel: map<string, bool>, prices: map<string, Entry>, useFixed: bool, n: nat)
    requires n <= |items|
    ensures |Chosen(items, sel, prices, useFixed, n)| <= n
    ensures forall p :: p in Chosen(items, sel, prices, useFixed, n) ==>
      exists k :: 0 <= k < n && Selected(sel, items[k].id) && p.id == items[k].id && p.qty == items[k].qty
    ensures forall k :: 0 <= k < n && Selected(sel, items[k].id) ==>
      exists p :: p in Chosen(items, sel, prices, useFixed, n) && p.id == items[k].id
  {
    if n > 0 {
      ChosenMembers(items, sel, prices, useFixed, n - 1);
      var prev := Chosen(items, sel, prices, useFixed, n - 1);
      forall k | 0 <= k < n && Selected(sel, items[k].id)
        ensures exists p :: p in Chosen(items, sel, prices, useFixed, n) && p.id == items[k].id
      {
        if k < n - 1 {
          var p :| p in prev && p.id == items[k].id;
          assert p in Chosen(items, sel, prices, useFixed, n);
        } else {
          assert Chosen(items, sel, prices, useFixed, n)[|prev|].id == items[k].id;
        }
      }
    }
  }

  /** The chosen items are the selected ones in list order: the `j`-th is the
      listed item at the `j`-th selected index, with its price. */
  lemma {:induction false} ChosenInOrder(items: seq<Item>, sel: map<string, bool>, prices: map<string, Entry>, useFixed: bool, n: nat)
    requires n <= |items|
    ensures var c, ks := Chosen(items, sel, prices, useFixed, n), SelectedIndices(items, sel, n);
      && |c| == |ks|
      && forall j :: 0 <= j < |c| ==> c[j] == WithPrice(items[ks[j]],
           if useFixed then Resolve(items[ks[j]], prices) else CatalogPrice(prices, items[ks[j]].id))
  {
    if n > 0 {
      ChosenInOrder(items, sel, prices, useFixed, n - 1);
    }
  }

  /** With every listed item selected, the chosen items are all of them. */
  lemma {:induction false} ChosenAll(items: seq<Item>, sel: map<string, bool>, prices: map<string, Entry>, useFixed: bool, n: nat)
    requires n <= |items|
    requires forall k :: 0 <= k < |items| ==> Selected(sel, items[k].id)
    ensures |Chosen(items, sel, prices, useFixed, n)| == n
  {
    if n > 0 {
      ChosenAll(items, sel, prices, useFixed, n - 1);
    }
  }

  /** No item of the list carries a fixed price. */
  predicate NoFixedPrices(items: seq<Item>) {
    forall k :: 0 <= k < |items| ==> items[k].fixedPrice.None?
  }

  /** With every listed item selected, the export loop yields the mapped list:
      with fixed prices honoured, or, when the list has none, with catalog
      prices alone. */
  lemma {:induction false} ChosenAllPriced(items: seq<Item>, sel: map<string, bool>, prices: map<string, Entry>, useFixed: bool, n: nat)
    requires n <= |items|
    requires forall k :: 0 <= k < |items| ==> Selected(sel, items[k].id)
    requires useFixed || NoFixedPrices(items)
    ensures Chosen(items, sel, prices, useFixed, n) == PriceAll(items, prices)[..n]
  {
    if n > 0 {
      ChosenAllPriced(items, sel, prices, useFixed, n - 1);
      var p := PriceAll(items, prices);
      assert p[..n] == p[..n - 1] + [p[n - 1]];
    }
  }
}
