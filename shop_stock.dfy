/**
 * The shop stock the ShopAccessors cache: for every shop that sells for
 * money (Currency 0), each item entry of the shop is resolved by the game to
 * a list of query results, and every result that is not a repeat becomes a
 * stock entry (an ItemStockInformation) after normalisation: a recipe is
 * sold one at a time, a negative stock means unlimited (int.MaxValue), a
 * trade item without an id or with a negative amount is dropped, and the
 * sync key numbers the entries an item entry produced.
 *
 * What the game computes is an input: the resolved results, each result's
 * price after the price modifiers, its stock after the stock modifiers, and
 * whether ShopBuilder.TrackSeenItems had seen it already.
 */
module ShopStock {
  import opened Wrappers
  import Numeric
  import Text

  /** LimitedStockMode; NoLimit is the enum's None. */
  datatype LimitedStockMode = Global | Player | NoLimit

  /** The fields of a ShopItemData entry that the normalisation reads. */
  datatype ShopItemData = ShopItemData(
    id: string,
    isRecipe: bool,
    avoidRepeat: bool,
    tradeItemId: Option<string>,
    tradeItemAmount: int,
    stockLimit: LimitedStockMode)

  /** One ItemQueryResult of an entry, with what the game computes for it. */
  datatype QueryResult = QueryResult(
    itemId: string,
    stack: int,
    overrideStack: Option<int>,
    price: real,
    modifiedStock: int,
    overrideTradeItemId: Option<string>,
    overrideTradeItemAmount: Option<int>,
    seenBefore: bool)

  /** An ItemStockInformation, with the item it is for and that item's stack. */
  datatype StockEntry = StockEntry(
    itemId: string,
    stack: int,
    price: int,
    stock: int,
    tradeItemId: Option<string>,
    tradeItemAmount: Option<int>,
    limit: LimitedStockMode,
    syncKey: string)

  /** A shop as DataLoader.Shops gives it, with its entries already resolved; a failed resolution is None. */
  datatype ShopData = ShopData(id: string, currency: int, items: seq<(ShopItemData, Option<seq<QueryResult>>)>)

  /** The cached stock: the Currency-0 shops in order, each with its entries. */
  type Stock = seq<(string, seq<StockEntry>)>

  /** The sync key of the n-th entry an item entry stocks: the entry's Id, then Id2, Id3, ... */
  function SyncKey(id: string, n: nat): (r: string)
    requires n >= 1
    ensures n == 1 ==> r == id
    ensures n > 1 ==> |r| > |id|
  {
    if n > 1 then id + Text.NatText(n) else id
  }

  /** A later entry's sync key is the entry's Id followed by the decimal digits of its number. */
  lemma SyncKeySuffix(id: string, n: nat)
    requires n > 1
    ensures SyncKey(id, n)[..|id|] == id
    ensures Text.AllDigits(SyncKey(id, n)[|id|..]) && Text.DigitsValue(SyncKey(id, n)[|id|..]) == n
  {
    var r := SyncKey(id, n);
    assert r[..|id|] == id && r[|id|..] == Text.NatText(n);
  }

  /** Two entries of one item entry never share a sync key. */
  lemma SyncKeysDistinct(id: string, a: nat, b: nat)
    requires 1 <= a && 1 <= b && a != b
    ensures SyncKey(id, a) != SyncKey(id, b)
  {
    if a > 1 && b > 1 {
      SyncKeySuffix(id, a);
      SyncKeySuffix(id, b);
    }
  }

  /** The result is stocked unless TrackSeenItems had seen it and the entry avoids repeats. */
  predicate Stocked(r: QueryResult, data: ShopItemData)
  {
    !r.seenBefore || !data.avoidRepeat
  }

  /** The stock entry of a result that is the n-th one its item entry stocks. */
  function Normalise(r: QueryResult, data: ShopItemData, n: nat): (e: StockEntry)
    requires n >= 1
    ensures e.itemId == r.itemId && e.syncKey == SyncKey(data.id, n)
    ensures e.stock >= 0
    ensures data.isRecipe ==> e.stack == 1 && e.stock == 1 && e.limit == NoLimit
    ensures !data.isRecipe ==> (e.limit == data.stockLimit
      && e.stack == (if r.overrideStack.Some? then r.overrideStack.value else r.stack)
      && e.stock == (if r.modifiedStock < 0 then Numeric.IntMax else r.modifiedStock))
    ensures e.tradeItemId.None? <==> e.tradeItemAmount.None?
    ensures e.tradeItemAmount.Some? ==> e.tradeItemAmount.value >= 0
    ensures e.price == Numeric.Truncate(r.price)
  {
    var tradeId := if r.overrideTradeItemId.Some? then r.overrideTradeItemId else data.tradeItemId;
    var tradeAmount :=
      if r.overrideTradeItemAmount.Some? && r.overrideTradeItemAmount.value > 0 then r.overrideTradeItemAmount.value
      else data.tradeItemAmount;
    var stock := if data.isRecipe then 1 else r.modifiedStock;
    StockEntry(
      r.itemId,
      if data.isRecipe then 1 else if r.overrideStack.Some? then r.overrideStack.value else r.stack,
      Numeric.Truncate(r.price),
      if stock < 0 then Numeric.IntMax else stock,
      if tradeId.None? || tradeAmount < 0 then None else tradeId,
      if tradeId.None? || tradeAmount < 0 then None else Some(tradeAmount),
      if data.isRecipe then NoLimit else data.stockLimit,
      SyncKey(data.id, n))
  }

  /** The entries the results add to the stock when `added` results of the same item entry were stocked before them. */
  function AddedFrom(list: seq<QueryResult>, data: ShopItemData, added: nat): (r: seq<StockEntry>)
    ensures |r| <= |list|
    decreases |list|
  {
    if |list| == 0 then []
    else if Stocked(list[0], data) then [Normalise(list[0], data, added + 1)] + AddedFrom(list[1..], data, added + 1)
    else AddedFrom(list[1..], data, added)
  }

  /** The k-th entry stocked after `added` others has sync key number added + k + 1. */
  lemma {:induction false} AddedSyncKeyAt(list: seq<QueryResult>, data: ShopItemData, added: nat, k: nat)
    requires k < |AddedFrom(list, data, added)|
    ensures AddedFrom(list, data, added)[k].syncKey == SyncKey(data.id, added + k + 1)
    decreases |list|
  {
    if Stocked(list[0], data) {
      if k > 0 {
        AddedSyncKeyAt(list[1..], data, added + 1, k - 1);
      }
    } else {
      AddedSyncKeyAt(list[1..], data, added, k);
    }
  }

  /** The k-th entry an item entry stocks has sync key number k + 1, so its sync keys are all different. */
  lemma AddedSyncKeys(list: seq<QueryResult>, data: ShopItemData, added: nat)
    ensures forall k :: 0 <= k < |AddedFrom(list, data, added)| ==>
      AddedFrom(list, data, added)[k].syncKey == SyncKey(data.id, added + k + 1)
  {
    forall k | 0 <= k < |AddedFrom(list, data, added)|
      ensures AddedFrom(list, data, added)[k].syncKey == SyncKey(data.id, added + k + 1)
    {
      AddedSyncKeyAt(list, data, added, k);
    }
  }

  /** The entries one item entry stocks all have different sync keys. */
  lemma AddedSyncKeysUnique(list: seq<QueryResult>, data: ShopItemData)
    ensures forall i, j :: 0 <= i < j < |AddedFrom(list, data, 0)| ==>
      AddedFrom(list, data, 0)[i].syncKey != AddedFrom(list, data, 0)[j].syncKey
  {
    AddedSyncKeys(list, data, 0);
    forall i, j | 0 <= i < j < |AddedFrom(list, data, 0)|
      ensures AddedFrom(list, data, 0)[i].syncKey != AddedFrom(list, data, 0)[j].syncKey
    {
      SyncKeysDistinct(data.id, i + 1, j + 1);
    }
  }

  /** When repeats are allowed, every result is stocked. */
  lemma {:induction false} AddedCount(list: seq<QueryResult>, data: ShopItemData, added: nat)
    requires !data.avoidRepeat
    ensures |AddedFrom(list, data, added)| == |list|
    decreases |list|
  {
    if |list| > 0 {
      AddedCount(list[1..], data, added + 1);
    }
  }

  /** When repeats are allowed, the k-th result becomes the (added + k + 1)-th entry of its item entry. */
  lemma {:induction false} AddedAt(list: seq<QueryResult>, data: ShopItemData, added: nat, k: nat)
    requires !data.avoidRepeat && k < |list|
    ensures k < |AddedFrom(list, data, added)| && AddedFrom(list, data, added)[k] == Normalise(list[k], data, added + k + 1)
    decreases k
  {
    AddedCount(list, data, added);
    if k > 0 {
      AddedAt(list[1..], data, added + 1, k - 1);
      assert list[1..][k - 1] == list[k];
    }
  }

  /** Every result that is not a repeat is stocked, in order. */
  lemma AddedKeepsNonRepeats(list: seq<QueryResult>, data: ShopItemData, added: nat)
    requires !data.avoidRepeat
    ensures |AddedFrom(list, data, added)| == |list|
    ensures forall k :: 0 <= k < |list| ==> AddedFrom(list, data, added)[k] == Normalise(list[k], data, added + k + 1)
  {
    AddedCount(list, data, added);
    forall k | 0 <= k < |list|
      ensures AddedFrom(list, data, added)[k] == Normalise(list[k], data, added + k + 1)
    {
      AddedAt(list, data, added, k);
    }
  }

  /** AddItemsToStock: the loop over one item entry's results. */
  method AddItemsToStock(list: seq<QueryResult>, data: ShopItemData, stock: seq<StockEntry>) returns (r: seq<StockEntry>)
    ensures r == stock + AddedFrom(list, data, 0)
  {
    var i := 0;
    var added: nat := 0;
    r := stock;
    while i < |list|
      invariant 0 <= i <= |list|
      invariant r + AddedFrom(list[i..], data, added) == stock + AddedFrom(list, data, 0)
    {
      var item := list[i];
      assert list[i..] == [item] + list[i + 1..];
      if Stocked(item, data) {
        added := added + 1;
        r := r + [Normalise(item, data, added)];
      }
      i := i + 1;
    }
    assert list[i..] == [];
  }

  /** What one entry adds: nothing when the game failed to resolve it. */
  function EntryStock(item: (ShopItemData, Option<seq<QueryResult>>)): seq<StockEntry>
  {
    if item.1.None? then [] else AddedFrom(item.1.value, item.0, 0)
  }

  /** The stock of one shop: the entries' stock, entry by entry. */
  function ShopStockOf(items: seq<(ShopItemData, Option<seq<QueryResult>>)>): seq<StockEntry>
  {
    if |items| == 0 then [] else ShopStockOf(items[..|items| - 1]) + EntryStock(items[|items| - 1])
  }

  /** An entry whose resolution failed adds nothing, and leaves the other entries' stock as it was. */
  lemma FailedEntryAddsNothing(items: seq<(ShopItemData, Option<seq<QueryResult>>)>, data: ShopItemData)
    ensures ShopStockOf(items + [(data, None)]) == ShopStockOf(items)
  {
    assert (items + [(data, None)])[..|items|] == items;
  }

  /** GetShopStock: every entry's results in turn; an entry that failed to resolve is skipped. */
  method GetShopStock(items: seq<(ShopItemData, Option<seq<QueryResult>>)>) returns (stock: seq<StockEntry>)
    ensures stock == ShopStockOf(items)
  {
    stock := [];
    if |items| == 0 {
      return;
    }
    var i := 0;
    while i < |items|
      invariant 0 <= i <= |items|
      invariant stock == ShopStockOf(items[..i])
    {
      var item := items[i];
      assert items[..i + 1][..i] == items[..i];
      if item.1.Some? {
        stock := AddItemsToStock(item.1.value, item.0, stock);
      }
      i := i + 1;
    }
    assert items[..i] == items;
  }

  /** The cache entry of a shop: its id and its stock. */
  function CacheEntry(shop: ShopData): (string, seq<StockEntry>)
  {
    (shop.id, ShopStockOf(shop.items))
  }

  /** BuildCache's result: the Currency-0 shops, in order, each with its stock. */
  function BuildCacheOf(shops: seq<ShopData>): (r: Stock)
    ensures |r| <= |shops|
  {
    if |shops| == 0 then []
    else
      var last := shops[|shops| - 1];
      BuildCacheOf(shops[..|shops| - 1]) + (if last.currency == 0 then [CacheEntry(last)] else [])
  }

  /** Only the shops that sell for money are cached, and every one of them is. */
  lemma {:induction false} OnlyMoneyShopsCached(shops: seq<ShopData>, e: (string, seq<StockEntry>))
    ensures e in BuildCacheOf(shops) <==> exists s :: s in shops && s.currency == 0 && e == CacheEntry(s)
    decreases |shops|
  {
    if |shops| > 0 {
      var init := shops[..|shops| - 1];
      OnlyMoneyShopsCached(init, e);
      assert shops == init + [shops[|shops| - 1]];
    }
  }

  /** BuildCache: the dictionary of Currency-0 shops by id, filled shop by shop. */
  method BuildCache(shops: seq<ShopData>) returns (cache: Stock)
    ensures cache == BuildCacheOf(shops)
  {
    cache := [];
    var i := 0;
    while i < |shops|
      invariant 0 <= i <= |shops|
      invariant cache == BuildCacheOf(shops[..i])
    {
      assert shops[..i + 1][..i] == shops[..i];
      if shops[i].currency == 0 {
        var stock := GetShopStock(shops[i].items);
        cache := cache + [(shops[i].id, stock)];
      }
      i := i + 1;
    }
    assert shops[..i] == shops;
  }
}
