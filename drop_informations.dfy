/**
 * The older drop table: three parallel lists (items, quantities, chances)
 * that every method edits in lockstep. The lists are the caller's own list
 * objects, so the table and the caller share them.
 */
module DropInformations {
  import opened Wrappers
  import Seqs
  import Lists
  import Game

  class DropInformations {
    var Name: string
    var Items: Lists.List<Game.Item>
    var Quantity: Lists.List<int>
    var Chances: Lists.List<real>

    /** The three lists are equally long. */
    ghost predicate Parallel()
      reads this, Items, Quantity, Chances
    {
      |Items.Elements| == |Quantity.Elements| == |Chances.Elements|
    }

    /** The constructor keeps the caller's list objects themselves, not copies. */
    constructor (name: string, items: Lists.List<Game.Item>, quantity: Lists.List<int>, chances: Lists.List<real>)
      ensures Name == name && Items == items && Quantity == quantity && Chances == chances
    {
      Name := name;
      Items := items;
      Quantity := quantity;
      Chances := chances;
    }

    method AddItem(item: Game.Item, quantity: int, chance: real)
      modifies Items, Quantity, Chances
      ensures Items.Elements == old(Items.Elements) + [item]
      ensures Quantity.Elements == old(Quantity.Elements) + [quantity]
      ensures Chances.Elements == old(Chances.Elements) + [chance]
      ensures old(Parallel()) ==> Parallel()
    {
      Items.Add(item);
      Quantity.Add(quantity);
      Chances.Add(chance);
    }

    /** AddRange appends each argument list to its own list; nothing checks that they are equally long. */
    method AddRange(items: seq<Game.Item>, quantity: seq<int>, chances: seq<real>)
      modifies Items, Quantity, Chances
      ensures Items.Elements == old(Items.Elements) + items
      ensures Quantity.Elements == old(Quantity.Elements) + quantity
      ensures Chances.Elements == old(Chances.Elements) + chances
      ensures old(Parallel()) ==> (Parallel() <==> |items| == |quantity| == |chances|)
    {
      Items.AddRange(items);
      Quantity.AddRange(quantity);
      Chances.AddRange(chances);
    }

    /**
     * RemoveItemAt is RemoveItem(int index): RemoveAt on the three lists in
     * turn; the first list too short for the index throws, and the lists
     * before it have already lost that entry.
     */
    method RemoveItemAt(index: int) returns (error: Option<Exception>)
      modifies Items, Quantity, Chances
      ensures var n0, n1, n2 := |old(Items.Elements)|, |old(Quantity.Elements)|, |old(Chances.Elements)|;
        && (error.None? <==> 0 <= index < n0 && index < n1 && index < n2)
        && (error.Some? ==> error.value == ArgumentOutOfRange)
        && Items.Elements == (if 0 <= index < n0 then Seqs.RemoveAt(old(Items.Elements), index) else old(Items.Elements))
        && Quantity.Elements == (if 0 <= index < n0 && index < n1
                                 then Seqs.RemoveAt(old(Quantity.Elements), index) else old(Quantity.Elements))
        && Chances.Elements == (if error.None? then Seqs.RemoveAt(old(Chances.Elements), index) else old(Chances.Elements))
      ensures old(Parallel()) ==> Parallel()
    {
      error := Items.RemoveAt(index);
      if error.Some? { return; }
      error := Quantity.RemoveAt(index);
      if error.Some? { return; }
      error := Chances.RemoveAt(index);
    }

    /** RemoveItem(item): RemoveItemAt at the item's first index, so an absent item (index -1) throws before anything changes. */
    method RemoveItem(item: Game.Item) returns (error: Option<Exception>)
      modifies Items, Quantity, Chances
      ensures var i := Seqs.IndexOf(old(Items.Elements), item);
        var n1, n2 := |old(Quantity.Elements)|, |old(Chances.Elements)|;
        && (error.None? <==> 0 <= i && i < n1 && i < n2)
        && (error.Some? ==> error.value == ArgumentOutOfRange)
        && Items.Elements == (if 0 <= i then Seqs.RemoveAt(old(Items.Elements), i) else old(Items.Elements))
        && Quantity.Elements == (if 0 <= i < n1 then Seqs.RemoveAt(old(Quantity.Elements), i) else old(Quantity.Elements))
        && Chances.Elements == (if error.None? then Seqs.RemoveAt(old(Chances.Elements), i) else old(Chances.Elements))
      ensures old(Parallel()) ==> Parallel() && (error.Some? <==> item !in old(Items.Elements))
    {
      var index := Seqs.IndexOf(Items.Elements, item);
      error := RemoveItemAt(index);
    }

    method Clear()
      modifies Items, Quantity, Chances
      ensures Items.Elements == [] && Quantity.Elements == [] && Chances.Elements == []
      ensures Parallel()
    {
      Items.Clear();
      Quantity.Clear();
      Chances.Clear();
    }

    /**
     * UpdateItem(oldItem, …): quantity and chance change at the item's first
     * index, and the item is replaced only when a new one is given. An absent
     * item gives index -1, so the first write throws before anything changes.
     */
    method UpdateItem(oldItem: Game.Item, quantity: int, chance: real, newItem: Option<Game.Item>)
      returns (error: Option<Exception>)
      modifies Items, Quantity, Chances
      ensures var i := Seqs.IndexOf(old(Items.Elements), oldItem);
        var n1, n2 := |old(Quantity.Elements)|, |old(Chances.Elements)|;
        && (error.None? <==> 0 <= i && i < n1 && i < n2)
        && (error.Some? ==> error.value == ArgumentOutOfRange)
        && Quantity.Elements == (if 0 <= i < n1 then old(Quantity.Elements)[i := quantity] else old(Quantity.Elements))
        && Chances.Elements == (if error.None? then old(Chances.Elements)[i := chance] else old(Chances.Elements))
        && Items.Elements == (if error.None? && newItem.Some? then old(Items.Elements)[i := newItem.value]
                              else old(Items.Elements))
      ensures old(Parallel()) ==> Parallel() && (error.Some? <==> oldItem !in old(Items.Elements))
    {
      var index := Seqs.IndexOf(Items.Elements, oldItem);
      error := Quantity.Set(index, quantity);
      if error.Some? { return; }
      error := Chances.Set(index, chance);
      if error.Some? { return; }
      if newItem.Some? {
        error := Items.Set(index, newItem.value);
      }
    }

    /** UpdateItem(index, …): quantity and chance change at the index; the item list is never touched. */
    method UpdateItemAt(index: int, quantity: int, chance: real) returns (error: Option<Exception>)
      modifies Quantity, Chances
      ensures Items.Elements == old(Items.Elements)
      ensures var n1, n2 := |old(Quantity.Elements)|, |old(Chances.Elements)|;
        && (error.None? <==> 0 <= index < n1 && index < n2)
        && (error.Some? ==> error.value == ArgumentOutOfRange)
        && Quantity.Elements == (if 0 <= index < n1 then old(Quantity.Elements)[index := quantity] else old(Quantity.Elements))
        && Chances.Elements == (if error.None? then old(Chances.Elements)[index := chance] else old(Chances.Elements))
      ensures old(Parallel()) ==> Parallel()
    {
      error := Quantity.Set(index, quantity);
      if error.Some? { return; }
      error := Chances.Set(index, chance);
    }
  }
}
