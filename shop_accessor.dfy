/**
 * The ShopAccessor of ProfitCalculator/main/accessors/ShopAccessor.cs and its
 * older copy in ProfitCalculator/main/ShopAccessor.cs: the price lookups are
 * the same in both. A seed price comes from the SeedPrices table when the id,
 * stripped of its "(O)"-style prefix, is listed there; otherwise from the
 * cached shop stock, the cheapest or dearest positive price offered for it,
 * or 0 when nobody sells it.
 *
 * Both files name `Cache<T>` from the namespace ProfitCalculator.main, which
 * is the older cache of module LegacyCache.
 */
module ShopAccessor {
  import opened Wrappers
  import Text
  import LegacyCache
  import SS = ShopStock

  /** The SeedPrices.json table: unqualified item id to price. */
  type SeedTable = map<string, int>

  /** `cropId.TrimStart()[3..]`: a range past the end throws. */
  function Unqualified(cropId: string): (r: Result<string>)
    ensures |Text.TrimStart(cropId)| < 3 <==> r.Throws?
    ensures r.Throws? ==> r.error == ArgumentOutOfRange
    ensures r.Ok? ==> Text.TrimStart(cropId) == Text.TrimStart(cropId)[..3] + r.value
  {
    var t := Text.TrimStart(cropId);
    if |t| < 3 then Throws(ArgumentOutOfRange) else Ok(t[3..])
  }

  /** A qualified id loses exactly its three-character type prefix, such as "(O)". */
  lemma UnqualifiedDropsPrefix(prefix: string, id: string)
    requires |prefix| == 3 && !Text.IsWhiteSpace(prefix[0])
    ensures Unqualified(prefix + id) == Ok(id)
  {
    assert (prefix + id)[3..] == id;
  }

  /** Some shop offers the item at price p. */
  predicate Offers(stock: SS.Stock, cropId: string, p: int)
  {
    exists k, j :: 0 <= k < |stock| && 0 <= j < |stock[k].1|
      && stock[k].1[j].itemId == cropId && stock[k].1[j].price == p
  }

  /** The positive prices of the entries for the item. */
  function PositivePricesIn(entries: seq<SS.StockEntry>, cropId: string): (r: seq<int>)
    ensures forall p :: p in r <==> p > 0 && OffersIn(entries, cropId, p)
  {
    if |entries| == 0 then []
    else
      var rest := PositivePricesIn(entries[1..], cropId);
      assert forall p :: OffersIn(entries, cropId, p) <==>
        (entries[0].itemId == cropId && entries[0].price == p) || OffersIn(entries[1..], cropId, p) by {
        forall p ensures OffersIn(entries, cropId, p) <==>
          (entries[0].itemId == cropId && entries[0].price == p) || OffersIn(entries[1..], cropId, p)
        {
          if OffersIn(entries, cropId, p) {
            var j :| 0 <= j < |entries| && entries[j].itemId == cropId && entries[j].price == p;
            if j > 0 { assert entries[1..][j - 1] == entries[j]; }
          }
          if OffersIn(entries[1..], cropId, p) {
            var j :| 0 <= j < |entries| - 1 && entries[1..][j].itemId == cropId && entries[1..][j].price == p;
            assert entries[j + 1] == entries[1..][j];
          }
        }
      }
      if entries[0].itemId == cropId && entries[0].price > 0 then [entries[0].price] + rest else rest
  }

  /** SelectMany over the shops, then the positive prices of the item. */
  function PositivePrices(stock: SS.Stock, cropId: string): (r: seq<int>)
    ensures forall p :: p in r <==> p > 0 && Offers(stock, cropId, p)
  {
    if |stock| == 0 then []
    else
      var init := stock[..|stock| - 1];
      var last := stock[|stock| - 1];
      var rest := PositivePrices(init, cropId);
      var here := PositivePricesIn(last.1, cropId);
      assert forall p :: Offers(stock, cropId, p) <==> Offers(init, cropId, p) || OffersIn(last.1, cropId, p) by {
        forall p ensures Offers(stock, cropId, p) <==> Offers(init, cropId, p) || OffersIn(last.1, cropId, p) {
          if Offers(stock, cropId, p) {
            var k, j :| 0 <= k < |stock| && 0 <= j < |stock[k].1| && stock[k].1[j].itemId == cropId && stock[k].1[j].price == p;
            if k < |init| { assert init[k] == stock[k]; }
          }
          if Offers(init, cropId, p) {
            var k, j :| 0 <= k < |init| && 0 <= j < |init[k].1| && init[k].1[j].itemId == cropId && init[k].1[j].price == p;
            assert init[k] == stock[k];
          }
          if OffersIn(last.1, cropId, p) {
            var j :| 0 <= j < |last.1| && last.1[j].itemId == cropId && last.1[j].price == p;
            assert stock[|stock| - 1].1[j] == last.1[j];
          }
        }
      }
      rest + here
  }

  /** Some entry of one shop offers the item at price p. */
  predicate OffersIn(entries: seq<SS.StockEntry>, cropId: string, p: int)
  {
    exists j :: 0 <= j < |entries| && entries[j].itemId == cropId && entries[j].price == p
  }

  /** `DefaultIfEmpty(0).Min()`. */
  function MinOrZero(s: seq<int>): (r: int)
    ensures |s| == 0 ==> r == 0
    ensures |s| > 0 ==> r in s && forall x :: x in s ==> r <= x
  {
    if |s| == 0 then 0
    else if |s| == 1 then s[0]
    else
      var m := MinOrZero(s[1..]);
      assert forall x :: x in s ==> x == s[0] || x in s[1..];
      if s[0] <= m then s[0] else m
  }

  /** `DefaultIfEmpty(0).Max()`. */
  function MaxOrZero(s: seq<int>): (r: int)
    ensures |s| == 0 ==> r == 0
    ensures |s| > 0 ==> r in s && forall x :: x in s ==> x <= r
  {
    if |s| == 0 then 0
    else if |s| == 1 then s[0]
    else
      var m := MaxOrZero(s[1..]);
      assert forall x :: x in s ==> x == s[0] || x in s[1..];
      if s[0] >= m then s[0] else m
  }

  /**
   * GetCheapestSeedPrice on the values the two caches hand out: a null
   * table throws NullReferenceException, a null stock ArgumentNullException
   * (LINQ on a null source).
   */
  function CheapestSeedPrice(table: Option<SeedTable>, stock: Option<SS.Stock>, cropId: string): (r: Result<int>)
    ensures Unqualified(cropId).Throws? ==> r == Throws(ArgumentOutOfRange)
    ensures Unqualified(cropId).Ok? && table.None? ==> r == Throws(NullReference)
    ensures Unqualified(cropId).Ok? && table.Some? && Unqualified(cropId).value in table.value
      ==> r == Ok(table.value[Unqualified(cropId).value])
    ensures Unqualified(cropId).Ok? && table.Some? && Unqualified(cropId).value !in table.value ==>
      (stock.None? ==> r == Throws(ArgumentNull))
      && (stock.Some? ==> (r.Ok?
        && (r.value == 0 <==> forall p :: Offers(stock.value, cropId, p) ==> p <= 0)
        && (r.value != 0 ==> r.value > 0 && Offers(stock.value, cropId, r.value))
        && forall p :: p > 0 && Offers(stock.value, cropId, p) ==> r.value <= p))
  {
    var id :- Unqualified(cropId);
    if table.None? then Throws(NullReference)
    else if id in table.value then Ok(table.value[id])
    else if stock.None? then Throws(ArgumentNull)
    else Ok(MinOrZero(PositivePrices(stock.value, cropId)))
  }

  /** GetExpensiveSeedPrice: the same lookup, with the largest positive price. */
  function ExpensiveSeedPrice(table: Option<SeedTable>, stock: Option<SS.Stock>, cropId: string): (r: Result<int>)
    ensures Unqualified(cropId).Throws? ==> r == Throws(ArgumentOutOfRange)
    ensures Unqualified(cropId).Ok? && table.None? ==> r == Throws(NullReference)
    ensures Unqualified(cropId).Ok? && table.Some? && Unqualified(cropId).value in table.value
      ==> r == Ok(table.value[Unqualified(cropId).value])
    ensures Unqualified(cropId).Ok? && table.Some? && Unqualified(cropId).value !in table.value ==>
      (stock.None? ==> r == Throws(ArgumentNull))
      && (stock.Some? ==> (r.Ok?
        && (r.value == 0 <==> forall p :: Offers(stock.value, cropId, p) ==> p <= 0)
        && (r.value != 0 ==> r.value > 0 && Offers(stock.value, cropId, r.value))
        && forall p :: p > 0 && Offers(stock.value, cropId, p) ==> p <= r.value))
  {
    var id :- Unqualified(cropId);
    if table.None? then Throws(NullReference)
    else if id in table.value then Ok(table.value[id])
    else if stock.None? then Throws(ArgumentNull)
    else Ok(MaxOrZero(PositivePrices(stock.value, cropId)))
  }

  /** The cheapest seed price never exceeds the dearest, and the two fail together. */
  lemma CheapestAtMostExpensive(table: Option<SeedTable>, stock: Option<SS.Stock>, cropId: string)
    ensures CheapestSeedPrice(table, stock, cropId).Ok? <==> ExpensiveSeedPrice(table, stock, cropId).Ok?
    ensures CheapestSeedPrice(table, stock, cropId).Ok? ==>
      CheapestSeedPrice(table, stock, cropId).value <= ExpensiveSeedPrice(table, stock, cropId).value
  {
    var id := Unqualified(cropId);
    if id.Ok? && table.Some? && id.value !in table.value && stock.Some? {
      var ps := PositivePrices(stock.value, cropId);
      if |ps| > 0 {
        assert MinOrZero(ps) <= ps[0] <= MaxOrZero(ps);
      }
    }
  }

  /** `DefaultIfEmpty(-1).FirstOrDefault()` over the item's prices in one shop's entries. */
  function FirstPrice(entries: seq<SS.StockEntry>, cropId: string): (r: int)
    ensures (forall j :: 0 <= j < |entries| ==> entries[j].itemId != cropId) ==> r == -1
  {
    if |entries| == 0 then -1
    else if entries[0].itemId == cropId then entries[0].price
    else FirstPrice(entries[1..], cropId)
  }

  /** The price found is that of the first entry for the item, whatever its sign. */
  lemma {:induction false} FirstPriceIsFirst(entries: seq<SS.StockEntry>, cropId: string, j: nat)
    requires j < |entries| && entries[j].itemId == cropId
    requires forall i :: 0 <= i < j ==> entries[i].itemId != cropId
    ensures FirstPrice(entries, cropId) == entries[j].price
    decreases j
  {
    if j > 0 {
      FirstPriceIsFirst(entries[1..], cropId, j - 1);
    }
  }

  /** The entries of the shops with the given id (at most one: the stock is a dictionary). */
  function EntriesOf(stock: SS.Stock, shopId: string): seq<SS.StockEntry>
  {
    if |stock| == 0 then []
    else (if stock[0].0 == shopId then stock[0].1 else []) + EntriesOf(stock[1..], shopId)
  }

  /** With distinct shop ids, the entries of a shop are exactly its own. */
  lemma {:induction false} EntriesOfShop(stock: SS.Stock, k: nat)
    requires k < |stock|
    requires forall i, j :: 0 <= i < j < |stock| ==> stock[i].0 != stock[j].0
    ensures EntriesOf(stock, stock[k].0) == stock[k].1
    decreases |stock|
  {
    if k == 0 {
      NoEntriesOf(stock[1..], stock[0].0);
    } else {
      EntriesOfShop(stock[1..], k - 1);
    }
  }

  lemma {:induction false} NoEntriesOf(stock: SS.Stock, shopId: string)
    requires forall i :: 0 <= i < |stock| ==> stock[i].0 != shopId
    ensures EntriesOf(stock, shopId) == []
    decreases |stock|
  {
    if |stock| > 0 {
      NoEntriesOf(stock[1..], shopId);
    }
  }

  /** GetSpecificShopPrice: the first price listed for the item in that shop, unfiltered, or -1. */
  function SpecificShopPrice(stock: Option<SS.Stock>, cropId: string, shopId: string): (r: Result<int>)
    ensures stock.None? <==> r == Throws(ArgumentNull)
    ensures stock.Some? ==> r == Ok(FirstPrice(EntriesOf(stock.value, shopId), cropId))
  {
    if stock.None? then Throws(ArgumentNull) else Ok(FirstPrice(EntriesOf(stock.value, shopId), cropId))
  }

  /** The value a legacy cache hands out for a read in the given game state. */
  function Read<S, T>(c: LegacyCache.State<S, T>, world: S): (r: Option<T>)
    requires c.build.Some?
    ensures c.valid ==> r == c.value
    ensures !c.valid ==> r == Some(c.build.value(world))
  {
    LegacyCache.Get(c, world).value.1
  }

  /** A null at either level of the seed cache is a null table. */
  function Flatten(v: Option<Option<SeedTable>>): Option<SeedTable>
  {
    if v.Some? then v.value else None
  }

  /** The state of a legacy cache after a read in the given game state. */
  function AfterRead<S, T>(c: LegacyCache.State<S, T>, world: S): (r: LegacyCache.State<S, T>)
    requires c.build.Some?
    ensures r.valid == c.valid && r.build == c.build
    ensures r.value == Read(c, world)
  {
    LegacyCache.Get(c, world).value.0
  }

  /** Whether a seed price lookup reaches the shop stock. */
  predicate MissesTable(table: Option<SeedTable>, cropId: string)
  {
    Unqualified(cropId).Ok? && table.Some? && Unqualified(cropId).value !in table.value
  }

  class ShopAccessor<S> {
    const SeedPrices: LegacyCache.Cache<S, Option<SeedTable>>
    const ShopStock: LegacyCache.Cache<S, SS.Stock>

    /** The two caches are different objects and both have builders. */
    ghost predicate Valid()
      reads this, SeedPrices, ShopStock
    {
      SeedPrices as object != ShopStock as object && SeedPrices.Build.Some? && ShopStock.Build.Some?
    }

    /**
     * The constructor: `load` reads SeedPrices.json (None when no mod
     * helper is registered), `build` is BuildCache over the game's shops.
     * Both caches build once and start valid.
     */
    constructor (load: S -> Option<SeedTable>, build: S -> SS.Stock, world: S)
      ensures Valid()
      ensures SeedPrices.Snapshot() == LegacyCache.State(Some(load(world)), true, Some(load))
      ensures ShopStock.Snapshot() == LegacyCache.State(Some(build(world)), true, Some(build))
    {
      SeedPrices := new LegacyCache.Cache.Built(load, world);
      ShopStock := new LegacyCache.Cache.Built(build, world);
    }

    /** InvalidateCaches: both caches. */
    method InvalidateCaches()
      requires Valid()
      modifies SeedPrices, ShopStock
      ensures Valid()
      ensures SeedPrices.Snapshot() == old(SeedPrices.Snapshot()).(valid := false)
      ensures ShopStock.Snapshot() == old(ShopStock.Snapshot()).(valid := false)
    {
      SeedPrices.InvalidateCache();
      ShopStock.InvalidateCache();
    }

    /** ForceRebuildCache: both caches rebuild in the current game state (and, being legacy caches, keep their flags). */
    method ForceRebuildCache(world: S)
      requires Valid()
      modifies SeedPrices, ShopStock
      ensures Valid()
      ensures SeedPrices.Snapshot() == old(SeedPrices.Snapshot()).(value := Some(old(SeedPrices.Build).value(world)))
      ensures ShopStock.Snapshot() == old(ShopStock.Snapshot()).(value := Some(old(ShopStock.Build).value(world)))
    {
      var a := SeedPrices.RebuildCache(world);
      var b := ShopStock.RebuildCache(world);
    }

    /** GetCheapestSeedPrice; the table cache is read twice on a hit, the stock cache only on a miss. */
    method GetCheapestSeedPrice(cropId: string, world: S) returns (r: Result<int>)
      requires Valid()
      modifies SeedPrices, ShopStock
      ensures Valid()
      ensures r == CheapestSeedPrice(Flatten(Read(old(SeedPrices.Snapshot()), world)),
                                     Read(old(ShopStock.Snapshot()), world), cropId)
      ensures SeedPrices.Snapshot() == if Unqualified(cropId).Throws? then old(SeedPrices.Snapshot())
                                       else AfterRead(old(SeedPrices.Snapshot()), world)
      ensures ShopStock.Snapshot() == if MissesTable(Flatten(Read(old(SeedPrices.Snapshot()), world)), cropId)
                                      then AfterRead(old(ShopStock.Snapshot()), world) else old(ShopStock.Snapshot())
    {
      r := Lookup(cropId, world, true);
    }

    /** GetExpensiveSeedPrice: the same reads, with the largest price. */
    method GetExpensiveSeedPrice(cropId: string, world: S) returns (r: Result<int>)
      requires Valid()
      modifies SeedPrices, ShopStock
      ensures Valid()
      ensures r == ExpensiveSeedPrice(Flatten(Read(old(SeedPrices.Snapshot()), world)),
                                      Read(old(ShopStock.Snapshot()), world), cropId)
      ensures SeedPrices.Snapshot() == if Unqualified(cropId).Throws? then old(SeedPrices.Snapshot())
                                       else AfterRead(old(SeedPrices.Snapshot()), world)
      ensures ShopStock.Snapshot() == if MissesTable(Flatten(Read(old(SeedPrices.Snapshot()), world)), cropId)
                                      then AfterRead(old(ShopStock.Snapshot()), world) else old(ShopStock.Snapshot())
    {
      r := Lookup(cropId, world, false);
    }

    /** The body the two seed price lookups share; `cheapest` picks Min or Max. */
    method Lookup(cropId: string, world: S, cheapest: bool) returns (r: Result<int>)
      requires Valid()
      modifies SeedPrices, ShopStock
      ensures Valid()
      ensures r == (if cheapest then CheapestSeedPrice else ExpensiveSeedPrice)(
                     Flatten(Read(old(SeedPrices.Snapshot()), world)), Read(old(ShopStock.Snapshot()), world), cropId)
      ensures SeedPrices.Snapshot() == if Unqualified(cropId).Throws? then old(SeedPrices.Snapshot())
                                       else AfterRead(old(SeedPrices.Snapshot()), world)
      ensures ShopStock.Snapshot() == if MissesTable(Flatten(Read(old(SeedPrices.Snapshot()), world)), cropId)
                                      then AfterRead(old(ShopStock.Snapshot()), world) else old(ShopStock.Snapshot())
    {
      var id := Unqualified(cropId);
      if id.Throws? {
        return Throws(id.error);
      }
      var first := SeedPrices.GetCache(world);
      var table := Flatten(first.value);
      if table.None? {
        return Throws(NullReference);
      }
      if id.value in table.value {
        var second := SeedPrices.GetCache(world);
        return Ok(Flatten(second.value).value[id.value]);
      }
      var stock := ShopStock.GetCache(world);
      if stock.value.None? {
        return Throws(ArgumentNull);
      }
      if cheapest {
        return Ok(MinOrZero(PositivePrices(stock.value.value, cropId)));
      }
      return Ok(MaxOrZero(PositivePrices(stock.value.value, cropId)));
    }

    /** GetSpecificShopPrice: reads the stock cache once. */
    method GetSpecificShopPrice(cropId: string, shopId: string, world: S) returns (r: Result<int>)
      requires Valid()
      modifies ShopStock
      ensures Valid()
      ensures r == SpecificShopPrice(Read(old(ShopStock.Snapshot()), world), cropId, shopId)
      ensures ShopStock.Snapshot() == AfterRead(old(ShopStock.Snapshot()), world)
    {
      var stock := ShopStock.GetCache(world);
      r := SpecificShopPrice(stock.value, cropId, shopId);
    }
  }
}
