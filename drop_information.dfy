/**
 * A plant's drop table: the items it yields, with quantity, chance and an
 * optional season, held as one list of drop records that the table's
 * methods edit in place.
 */
module DropInformation {
  import opened Wrappers
  import Utils
  import Game

  /** One drop. Its item is compared by reference. */
  datatype Drop = Drop(item: Game.Item, quantity: int, chance: real, season: Option<Game.Season>)

  /** Whether a drop sells in the queried UtilsSeason: it has no season, the query is Greenhouse, or the seasons agree. */
  predicate SellsIn(d: Drop, season: int)
  {
    d.season.None? || season == Utils.Greenhouse || Utils.SeasonFromUtilsSeason(season) == Ok(d.season.value)
  }

  /** Drop.Price: the item's store price when the drop sells in the season, else 0. */
  function Price(d: Drop, season: int): (p: int)
    ensures SellsIn(d, season) ==> p == d.item.StorePrice
    ensures !SellsIn(d, season) ==> p == 0
  {
    if d.season.None? || season == Utils.Greenhouse then d.item.StorePrice
    else
      var s := Utils.SeasonFromUtilsSeason(season);
      if s.Ok? && d.season.value != s.value then 0 else d.item.StorePrice
  }

  /** A drop with a season sells only in that season's UtilsSeason (and in the greenhouse). */
  lemma SeasonalDropPrice(d: Drop, season: int)
    requires d.season.Some? && season != Utils.Greenhouse
    ensures Price(d, season) == (if (Utils.IsOutdoorSeason(season) && Game.Ordinal(d.season.value) == season)
                                 || (!Utils.IsOutdoorSeason(season) && d.season.value == Game.Spring)
                                 then d.item.StorePrice else 0)
  {
    if Utils.IsOutdoorSeason(season) {
      var s := Utils.SeasonFromUtilsSeason(season).value;
      assert Game.Ordinal(s) == season;
      assert d.season.value == s <==> Game.Ordinal(d.season.value) == season;
    }
  }

  /** AveragePrice: the sum over the drops of price × chance × quantity. */
  function AveragePrice(drops: seq<Drop>, season: int): (r: real)
    ensures |drops| == 0 ==> r == 0.0
    ensures (forall k :: 0 <= k < |drops| ==>
               Price(drops[k], season) >= 0 && drops[k].chance >= 0.0 && drops[k].quantity >= 0) ==> r >= 0.0
  {
    if |drops| == 0 then 0.0
    else
      var d := drops[|drops| - 1];
      AveragePrice(drops[..|drops| - 1], season) + Price(d, season) as real * d.chance * d.quantity as real
  }

  /** The average price of two tables laid end to end is the sum of their average prices. */
  lemma {:induction false} AveragePriceAppend(a: seq<Drop>, b: seq<Drop>, season: int)
    ensures AveragePrice(a + b, season) == AveragePrice(a, season) + AveragePrice(b, season)
    decreases |b|
  {
    if |b| == 0 {
      assert a + b == a;
    } else {
      assert (a + b)[..|a + b| - 1] == a + b[..|b| - 1];
      AveragePriceAppend(a, b[..|b| - 1], season);
    }
  }

  /** With no drop that sells in the season, the average price is 0. */
  lemma {:induction false} AveragePriceNothingSells(drops: seq<Drop>, season: int)
    requires forall k :: 0 <= k < |drops| ==> !SellsIn(drops[k], season)
    ensures AveragePrice(drops, season) == 0.0
    decreases |drops|
  {
    if |drops| > 0 {
      AveragePriceNothingSells(drops[..|drops| - 1], season);
    }
  }

  /** The drops a list constructor or AddRange builds from three parallel lists, index by index. */
  function Zip(items: seq<Game.Item>, quantity: seq<int>, chances: seq<real>, n: nat): (r: seq<Drop>)
    requires n <= |items| && n <= |quantity| && n <= |chances|
    ensures |r| == n
    ensures forall k :: 0 <= k < n ==> r[k] == Drop(items[k], quantity[k], chances[k], None)
  {
    if n == 0 then [] else Zip(items, quantity, chances, n - 1) + [Drop(items[n - 1], quantity[n - 1], chances[n - 1], None)]
  }

  /** How many entries the index loop over `items` reads before indexing past a shorter list. */
  function Reached(items: seq<Game.Item>, quantity: seq<int>, chances: seq<real>): (n: nat)
    ensures n <= |items| && n <= |quantity| && n <= |chances|
    ensures n == |items| || n == |quantity| || n == |chances|
  {
    if |items| <= |quantity| && |items| <= |chances| then |items|
    else if |quantity| <= |chances| then |quantity|
    else |chances|
  }

  /** RemoveAll(drop => drop.Item == item). */
  function RemoveAll(drops: seq<Drop>, item: Game.Item): (r: seq<Drop>)
    ensures forall k :: 0 <= k < |r| ==> r[k].item != item
    ensures multiset(r) <= multiset(drops)
  {
    if |drops| == 0 then []
    else
      var rest := RemoveAll(drops[..|drops| - 1], item);
      var last := drops[|drops| - 1];
      assert drops == drops[..|drops| - 1] + [last];
      if last.item == item then rest else rest + [last]
  }

  /** RemoveAll keeps every drop of another item, as often as it occurred. */
  lemma {:induction false} RemoveAllKeepsOthers(drops: seq<Drop>, item: Game.Item, x: Drop)
    requires x.item != item
    ensures multiset(RemoveAll(drops, item))[x] == multiset(drops)[x]
    decreases |drops|
  {
    if |drops| > 0 {
      var init := drops[..|drops| - 1];
      RemoveAllKeepsOthers(init, item, x);
      assert drops == init + [drops[|drops| - 1]];
    }
  }

  /** RemoveAll on one drop: a drop of the item goes, any other stays. */
  lemma RemoveAllSingle(d: Drop, item: Game.Item)
    ensures RemoveAll([d], item) == if d.item == item then [] else [d]
  {
    assert [d][..0] == [];
  }

  /**
   * RemoveAll works piece by piece, so what remains keeps its order: the
   * drops left of a concatenation are those left of each part, in turn.
   */
  lemma {:induction false} RemoveAllAppend(a: seq<Drop>, b: seq<Drop>, item: Game.Item)
    ensures RemoveAll(a + b, item) == RemoveAll(a, item) + RemoveAll(b, item)
    decreases |b|
  {
    if |b| == 0 {
      assert a + b == a;
    } else {
      var init := b[..|b| - 1];
      var last := b[|b| - 1];
      assert (a + b)[..|a + b| - 1] == a + init;
      assert (a + b)[|a + b| - 1] == last;
      RemoveAllAppend(a, init, item);
    }
  }

  /** A drop of another item at the head of the table stays at the head. */
  lemma RemoveAllKeepsFirst(drops: seq<Drop>, item: Game.Item)
    requires |drops| > 0 && drops[0].item != item
    ensures |RemoveAll(drops, item)| > 0 && RemoveAll(drops, item)[0] == drops[0]
  {
    assert drops == [drops[0]] + drops[1..];
    RemoveAllAppend([drops[0]], drops[1..], item);
    RemoveAllSingle(drops[0], item);
  }

  /** List.FindIndex(drop => drop.Item == item): the first position holding the item, or -1. */
  function FindIndex(drops: seq<Drop>, item: Game.Item): (i: int)
    ensures -1 <= i < |drops|
    ensures i >= 0 ==> drops[i].item == item && forall k :: 0 <= k < i ==> drops[k].item != item
    ensures i == -1 ==> forall k :: 0 <= k < |drops| ==> drops[k].item != item
  {
    if |drops| == 0 then -1
    else if drops[0].item == item then 0
    else
      var j := FindIndex(drops[1..], item);
      if j == -1 then -1 else j + 1
  }

  class DropInformation {
    var Name: string
    var Drops: seq<Drop>

    /** The default constructor: an empty table with an empty name. */
    constructor Empty()
      ensures Name == "" && Drops == []
    {
      Name := "";
      Drops := [];
    }

    /** A table whose drop list is given. */
    constructor (name: string, drops: seq<Drop>)
      ensures Name == name && Drops == drops
    {
      Name := name;
      Drops := drops;
    }

    /**
     * The list constructor: one season-less drop per index of `items`, reading
     * quantity[i] and chances[i]; it throws when either of those is shorter.
     */
    static method FromLists(name: string, items: seq<Game.Item>, quantity: seq<int>, chances: seq<real>)
      returns (r: Result<DropInformation>)
      ensures r.Ok? <==> |quantity| >= |items| && |chances| >= |items|
      ensures r.Throws? ==> r.error == ArgumentOutOfRange
      ensures r.Ok? ==> fresh(r.value) && r.value.Name == name && r.value.Drops == Zip(items, quantity, chances, |items|)
    {
      var table := new DropInformation(name, []);
      var error := table.AddRange(items, quantity, chances);
      if error.Some? {
        return Throws(error.value);
      }
      return Ok(table);
    }

    /** The average price of the table in a UtilsSeason. */
    function TableAveragePrice(season: int): (r: real)
      reads this
      ensures r == AveragePrice(Drops, season)
      ensures |Drops| == 0 ==> r == 0.0
    {
      AveragePrice(Drops, season)
    }

    method AddItem(item: Game.Item, quantity: int, chance: real)
      modifies this
      ensures Drops == old(Drops) + [Drop(item, quantity, chance, None)]
      ensures Name == old(Name)
    {
      Drops := Drops + [Drop(item, quantity, chance, None)];
    }

    /**
     * Appends one drop per index of `items`, in order. When `quantity` or
     * `chances` is shorter, the drops before the first missing index have
     * been appended when the exception is thrown.
     */
    method AddRange(items: seq<Game.Item>, quantity: seq<int>, chances: seq<real>) returns (error: Option<Exception>)
      modifies this
      ensures Drops == old(Drops) + Zip(items, quantity, chances, Reached(items, quantity, chances))
      ensures error.None? <==> |quantity| >= |items| && |chances| >= |items|
      ensures error.Some? ==> error.value == ArgumentOutOfRange
      ensures Name == old(Name)
    {
      var i := 0;
      while i < |items|
        invariant 0 <= i <= Reached(items, quantity, chances)
        invariant Drops == old(Drops) + Zip(items, quantity, chances, i)
        invariant Name == old(Name)
      {
        if i >= |quantity| || i >= |chances| {
          return Some(ArgumentOutOfRange);
        }
        Drops := Drops + [Drop(items[i], quantity[i], chances[i], None)];
        i := i + 1;
      }
      return None;
    }

    /** RemoveItem(item): every drop of that item goes, the others stay in order. */
    method RemoveItem(item: Game.Item)
      modifies this
      ensures Drops == RemoveAll(old(Drops), item)
      ensures Name == old(Name)
    {
      Drops := RemoveAll(Drops, item);
    }

    /** RemoveItem(index): List.RemoveAt, which throws for an index outside the list. */
    method RemoveItemAt(index: int) returns (error: Option<Exception>)
      modifies this
      ensures error.Some? <==> !(0 <= index < |old(Drops)|)
      ensures error.Some? ==> error.value == ArgumentOutOfRange && Drops == old(Drops)
      ensures error.None? ==> Drops == old(Drops[..index]) + old(Drops[index + 1..])
      ensures Name == old(Name)
    {
      if !(0 <= index < |Drops|) {
        return Some(ArgumentOutOfRange);
      }
      Drops := Drops[..index] + Drops[index + 1..];
      return None;
    }

    method Clear()
      modifies this
      ensures Drops == [] && Name == old(Name)
    {
      Drops := [];
    }

    /**
     * UpdateItem(oldItem, …): the first drop of oldItem gets the new quantity
     * and chance, and the new item when one is given; when oldItem is absent
     * the index is -1 and the list indexer throws.
     */
    method UpdateItem(oldItem: Game.Item, quantity: int, chance: real, newItem: Option<Game.Item>)
      returns (error: Option<Exception>)
      modifies this
      ensures var i := FindIndex(old(Drops), oldItem);
        && (error.Some? <==> i == -1)
        && (error.Some? ==> error.value == ArgumentOutOfRange && Drops == old(Drops))
        && (error.None? ==> Drops == old(Drops)[i := Drop(if newItem.Some? then newItem.value else oldItem,
                                                          quantity, chance, old(Drops)[i].season)])
      ensures Name == old(Name)
    {
      var index := FindIndex(Drops, oldItem);
      if index == -1 {
        return Some(ArgumentOutOfRange);
      }
      var d := Drops[index].(quantity := quantity, chance := chance);
      if newItem.Some? {
        d := d.(item := newItem.value);
      }
      Drops := Drops[index := d];
      return None;
    }

    /** UpdateItem(index, …): sets quantity and chance of the drop at that index; the item is kept. */
    method UpdateItemAt(index: int, quantity: int, chance: real) returns (error: Option<Exception>)
      modifies this
      ensures error.Some? <==> !(0 <= index < |old(Drops)|)
      ensures error.Some? ==> error.value == ArgumentOutOfRange && Drops == old(Drops)
      ensures error.None? ==> Drops == old(Drops)[index := old(Drops)[index].(quantity := quantity, chance := chance)]
      ensures Name == old(Name)
    {
      if !(0 <= index < |Drops|) {
        return Some(ArgumentOutOfRange);
      }
      Drops := Drops[index := Drops[index].(quantity := quantity, chance := chance)];
      return None;
    }
  }
}
