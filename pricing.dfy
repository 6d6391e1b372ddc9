/** useEquipmentPricing.ts: the equipment price catalog. It is seeded from a
    fixed table; while live mode is on, a timer rewrites one randomly chosen
    entry every five seconds with the old price moved by up to 2 % and
    rounded to the nearest thousand. The effect that seeds the catalog and
    starts the timer depends on the live flag, so every change of the flag
    seeds the catalog again. The timer, the clock and the random source are
    parameters here: `Tick` receives the chosen position and fluctuation. */
module Pricing {
  datatype Trend = Up | Down | Stable

  /** An entry of the catalog (its `lastUpdated` timestamp is left out). */
  datatype Entry = Entry(id: string, name: string, basePrice: int, currentPrice: int, currency: string, trend: Trend)

  /** The seed table, in the order its keys are written. */
  function Seed(): seq<(string, int)> {
    [ ("graviton-h22i", 9122600), ("das-storage", 900000), ("eltex-mes2300-24", 186550),
      ("yadro-g4208p", 18390000), ("aerodisk-storage", 9800000), ("eltex-mes5324", 499000),
      ("alt-linux", 48600), ("alt-virtualization", 101200), ("postgres-pro", 238781),
      ("ml-platform", 800000), ("data-connectors", 850000),
      ("impl-basic-phase-1", 3000000), ("impl-basic-phase-2", 5000000), ("impl-basic-phase-3", 3000000),
      ("impl-optimal-phase-1", 5000000), ("impl-optimal-phase-2", 7000000), ("impl-optimal-phase-3", 4000000),
      ("server-budget", 1200000), ("storage-budget", 300000), ("switch-budget", 45000),
      ("linux-free", 0), ("postgres-free", 0), ("virtualization-free", 0),
      ("ml-platform-opensource", 0), ("connectors-opensource", 0),
      ("impl-budget-phase-1", 1000000), ("impl-budget-phase-2", 1500000), ("impl-budget-phase-3", 500000) ]
  }

  /** The entry a seed row becomes: named by its id, both prices the seed,
      roubles, stable. */
  function Fresh(id: string, price: int): Entry {
    Entry(id, id, price, price, "RUB", Stable)
  }

  /** The catalog after the first `n` seed rows have been written. */
  function Seeded(seed: seq<(string, int)>, n: nat): map<string, Entry>
    requires n <= |seed|
  {
    if n == 0 then map[] else Seeded(seed, n - 1)[seed[n - 1].0 := Fresh(seed[n - 1].0, seed[n - 1].1)]
  }

  /** The ids of the first `n` seed rows. */
  function Ids(seed: seq<(string, int)>, n: nat): (r: set<string>)
    requires n <= |seed|
    ensures forall i :: 0 <= i < n ==> seed[i].0 in r
    ensures forall id :: id in r ==> exists i :: 0 <= i < n && seed[i].0 == id
  {
    if n == 0 then {} else Ids(seed, n - 1) + {seed[n - 1].0}
  }

  /** Seeding gives exactly the seed ids. */
  lemma {:induction false} SeededKeys(seed: seq<(string, int)>, n: nat)
    requires n <= |seed|
    ensures Seeded(seed, n).Keys == Ids(seed, n)
  {
    if n > 0 {
      SeededKeys(seed, n - 1);
    }
  }

  /** Every seeded entry is named by its id and has equal base and current
      prices and a stable trend. */
  lemma {:induction false} SeededFresh(seed: seq<(string, int)>, n: nat)
    requires n <= |seed|
    ensures forall id :: id in Seeded(seed, n) ==> Seeded(seed, n)[id] == Fresh(id, Seeded(seed, n)[id].basePrice)
  {
    if n > 0 {
      SeededFresh(seed, n - 1);
    }
  }

  /** Each id holds the price of its last row, as a later key overwrites an
      earlier one in the record being filled. */
  lemma {:induction false} SeededLast(seed: seq<(string, int)>, n: nat, j: nat)
    requires j < n <= |seed|
    requires forall b :: j < b < n ==> seed[b].0 != seed[j].0
    ensures seed[j].0 in Seeded(seed, n) && Seeded(seed, n)[seed[j].0] == Fresh(seed[j].0, seed[j].1)
  {
    if j < n - 1 {
      SeededLast(seed, n - 1, j);
    }
  }

  /** JavaScript's `Math.round`: the nearest integer, halves rounded up. */
  function Round(x: real): (r: int)
    ensures x - 0.5 < r as real <= x + 0.5
  {
    (x + 0.5).Floor
  }

  /** The new price: the old one moved by the fluctuation `f`, rounded to the
      nearest thousand. It is a multiple of 1000 within 500 of the moved
      price, and a zero price stays zero. */
  function NewPrice(prev: int, f: real): (p: int)
    ensures p % 1000 == 0
    ensures -500.0 < p as real - prev as real * (1.0 + f) <= 500.0
    ensures prev == 0 ==> p == 0
  {
    Round(prev as real * (1.0 + f) / 1000.0) * 1000
  }

  /** The trend of a move from `prev` to `p`. */
  function TrendOf(p: int, prev: int): (t: Trend)
    ensures t == Up <==> p > prev
    ensures t == Down <==> p < prev
    ensures t == Stable <==> p == prev
  {
    if p > prev then Up else if p < prev then Down else Stable
  }

  /** One entry after a tick: a new current price and its trend; the id, name,
      base price and currency are kept. */
  function Ticked(e: Entry, f: real): (r: Entry)
    ensures r.id == e.id && r.name == e.name && r.basePrice == e.basePrice && r.currency == e.currency
    ensures r.currentPrice % 1000 == 0
    ensures -500.0 < r.currentPrice as real - e.currentPrice as real * (1.0 + f) <= 500.0
    ensures r.trend == TrendOf(r.currentPrice, e.currentPrice)
  {
    var p := NewPrice(e.currentPrice, f);
    e.(currentPrice := p, trend := TrendOf(p, e.currentPrice))
  }

  /** The catalog after the tick that chose `key`. */
  function TickAt(prices: map<string, Entry>, key: string, f: real): map<string, Entry>
    requires key in prices
  {
    prices[key := Ticked(prices[key], f)]
  }

  /** A tick changes only the chosen entry and keeps the key set. */
  lemma TickLocal(prices: map<string, Entry>, key: string, f: real)
    requires key in prices
    ensures TickAt(prices, key, f).Keys == prices.Keys
    ensures forall k :: k in prices && k != key ==> TickAt(prices, key, f)[k] == prices[k]
    ensures TickAt(prices, key, f)[key].currentPrice % 1000 == 0
  {
  }

  /** The catalog after a series of ticks, each naming its key. */
  function TickAll(prices: map<string, Entry>, ticks: seq<(string, real)>): map<string, Entry>
    decreases |ticks|
  {
    if |ticks| == 0 then prices
    else
      var (key, f) := ticks[0];
      TickAll(if key in prices then TickAt(prices, key, f) else prices, ticks[1..])
  }

  /** An entry whose price is zero keeps a zero price through any series of
      ticks, and every tick keeps the key set. */
  lemma {:induction false} ZeroStaysZero(prices: map<string, Entry>, ticks: seq<(string, real)>, id: string)
    requires id in prices && prices[id].currentPrice == 0
    ensures TickAll(prices, ticks).Keys == prices.Keys
    ensures TickAll(prices, ticks)[id].currentPrice == 0
    decreases |ticks|
  {
    if |ticks| > 0 {
      var (key, f) := ticks[0];
      var next := if key in prices then TickAt(prices, key, f) else prices;
      assert next.Keys == prices.Keys && next[id].currentPrice == 0;
      ZeroStaysZero(next, ticks[1..], id);
    }
  }

  /** Three seed prices are not multiples of 1000, so the first tick that
      picks one of them changes its last digits. */
  lemma SeedFacts()
    ensures |Seed()| == 28
    ensures Seed()[0] == ("graviton-h22i", 9122600) && Seed()[0].1 % 1000 != 0
    ensures Seed()[2] == ("eltex-mes2300-24", 186550) && Seed()[2].1 % 1000 != 0
    ensures Seed()[8] == ("postgres-pro", 238781) && Seed()[8].1 % 1000 != 0
  {
  }

  /** The catalog as the hook holds it. */
  class PriceCatalog {
    var prices: map<string, Entry>
    var isLive: bool
    /** The seed table the effect reads. */
    const seed: seq<(string, int)>

    predicate Valid()
      reads this
    {
      prices.Keys == Ids(seed, |seed|)
    }

    /** The mount: live mode off, then the effect seeds the catalog. */
    constructor()
      ensures seed == Seed() && Valid() && !isLive && prices == Seeded(seed, |seed|)
    {
      seed := Seed();
      isLive := false;
      prices := map[];
      new;
      Initialise();
    }

    /** The effect's seeding loop: a fresh record filled row by row, then
        stored. */
    method Initialise()
      modifies this
      ensures isLive == old(isLive) && prices == Seeded(seed, |seed|) && Valid()
    {
      var initial: map<string, Entry> := map[];
      for k := 0 to |seed|
        invariant initial == Seeded(seed, k)
      {
        initial := initial[seed[k].0 := Fresh(seed[k].0, seed[k].1)];
      }
      prices := initial;
      SeededKeys(seed, |seed|);
    }

    /** The timer callback: nothing while not live; otherwise the entry at
        position `i` of the catalog's keys (which are always the seed ids in
        seed order) is rewritten with fluctuation `f`. */
    method Tick(i: nat, f: real)
      requires Valid() && i < |seed|
      modifies this
      ensures Valid() && isLive == old(isLive)
      ensures !old(isLive) ==> prices == old(prices)
      ensures old(isLive) ==> prices == TickAt(old(prices), seed[i].0, f)
    {
      if !isLive {
        return;
      }
      var key := seed[i].0;
      var item := prices[key];
      var newPrice := NewPrice(item.currentPrice, f);
      var next := prices;
      next := next[key := item.(currentPrice := newPrice,
        trend := if newPrice > item.currentPrice then Up else if newPrice < item.currentPrice then Down else Stable)];
      assert next[key] == Ticked(item, f);
      prices := next;
    }

    /** `setIsLive`: a change of the flag re-runs the effect, which seeds the
        catalog again; setting the same value changes nothing. */
    method SetLive(live: bool)
      requires Valid()
      modifies this
      ensures Valid() && isLive == live
      ensures live != old(isLive) ==> prices == Seeded(seed, |seed|)
      ensures live == old(isLive) ==> prices == old(prices)
    {
      if live != isLive {
        isLive := live;
        Initialise();
      }
    }
  }
}
