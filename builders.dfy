/**
 * `new SObject(id, 1)`: a new object item of the game. Its qualified id is
 * the id behind the object type prefix "(O)"; its names and its store price
 * come from the game's object data, which is an input here.
 */
module Objects {
  import Game

  /** What the game's object data says of an id. */
  datatype ObjectFacts = ObjectFacts(name: string, displayName: string, storePrice: int)

  /** The object type prefix of qualified item ids. */
  const ObjectPrefix: string := "(O)"

  method NewObject(id: string, facts: string -> ObjectFacts) returns (item: Game.Item)
    ensures fresh(item)
    ensures item.ItemId == id && item.QualifiedItemId == ObjectPrefix + id
    ensures item.Name == facts(id).name && item.DisplayName == facts(id).displayName
    ensures item.StorePrice == facts(id).storePrice
  {
    item := new Game.Item(facts(id).name, facts(id).displayName, id, ObjectPrefix + id, facts(id).storePrice);
  }
}

/**
 * FruitTreeBuilder (ProfitCalculator/main/builders/FruitTreeBuilder.cs): one
 * TreeData per fruit tree of the game's data, keyed by the tree's id, each
 * fruit becoming a drop of quantity 1 whose item id has its type prefix
 * removed.
 */
module FruitTreeBuilder {
  import opened Wrappers
  import Game
  import Seqs
  import Objects
  import D = DropInformation
  import TD = TreeData

  /** String.Remove(start, count): ArgumentOutOfRange unless the removed range lies inside s. */
  function Remove(s: string, start: int, count: int): (r: Result<string>)
    ensures r.Ok? <==> 0 <= start && 0 <= count && start + count <= |s|
    ensures r.Throws? ==> r.error == ArgumentOutOfRange
    ensures r.Ok? ==> (|r.value| == |s| - count && r.value[..start] == s[..start]
      && r.value[start..] == s[start + count..])
  {
    if 0 <= start && 0 <= count && start + count <= |s| then
      var t := s[..start] + s[start + count..];
      assert t[..start] == s[..start] && t[start..] == s[start + count..];
      Ok(t)
    else Throws(ArgumentOutOfRange)
  }

  /**
   * The id without its type prefix: the text from the first '(' through the
   * first ')' is removed. With no '(' or no ')' the id is kept. When the
   * first ')' comes just before the first '(' the count is 0 and the id is
   * kept; when it comes earlier still the count is negative and Remove throws.
   */
  function StripTypePrefix(id: string): (r: Result<string>)
    ensures '(' !in id || ')' !in id ==> r == Ok(id)
    ensures r.Throws? ==> r.error == ArgumentOutOfRange
    ensures r.Ok? ==> |r.value| <= |id|
    ensures ('(' in id && ')' in id) ==> (
      var open, close := Seqs.IndexOf(id, '('), Seqs.IndexOf(id, ')');
      (r.Ok? <==> open <= close + 1)
      && (open <= close ==> r == Ok(id[..open] + id[close + 1..]))
      && (open == close + 1 ==> r == Ok(id)))
  {
    var open := Seqs.IndexOf(id, '(');
    var close := Seqs.IndexOf(id, ')');
    if open != -1 && close != -1 then
      var r := Remove(id, open, close - open + 1);
      assert r.Ok? ==> r.value == r.value[..open] + r.value[open..];
      assert open == close + 1 ==> id[..open] + id[open..] == id;
      r
    else Ok(id)
  }

  /** The first occurrence of x is at i exactly when s[i] is x and x does not occur before i. */
  lemma IndexOfAt<T>(s: seq<T>, x: T, i: nat)
    requires i < |s| && s[i] == x && x !in s[..i]
    ensures Seqs.IndexOf(s, x) == i
  {
  }

  /** A qualified id "(T)id", whose type T and id hold no parenthesis, loses exactly its "(T)". */
  lemma {:induction false} StripsQualifier(t: string, id: string)
    requires '(' !in t && ')' !in t && '(' !in id && ')' !in id
    ensures StripTypePrefix("(" + t + ")" + id) == Ok(id)
  {
    var q := "(" + t + ")" + id;
    assert q[..0] == [];
    IndexOfAt(q, '(', 0);
    assert q[..|t| + 1] == "(" + t;
    IndexOfAt(q, ')', |t| + 1);
    assert q[|t| + 2..] == id;
  }

  /** The qualified id of an object item strips back to the item's own id. */
  lemma ObjectIdRoundTrip(id: string)
    requires '(' !in id && ')' !in id
    ensures StripTypePrefix(Objects.ObjectPrefix + id) == Ok(id)
  {
    var q := "(" + "O" + ")" + id;
    assert Objects.ObjectPrefix + id == q;
    StripsQualifier("O", id);
  }

  /** A ')' before the '(' with a character between them makes Remove throw: "a)b(c" fails. */
  lemma CloseBeforeOpenThrows()
    ensures StripTypePrefix("a)b(c").Throws?
  {
    var s := "a)b(c";
    assert s[..3] == "a)b";
    IndexOfAt(s, '(', 3);
    assert s[..1] == "a";
    IndexOfAt(s, ')', 1);
  }

  /** The fruit entries all strip without throwing. */
  predicate FruitStrips(fruit: seq<Game.FruitEntry>)
  {
    forall k :: 0 <= k < |fruit| ==> StripTypePrefix(fruit[k].itemId).Ok?
  }

  /** A tree builds when it has fruit and every fruit id strips. */
  predicate Builds(record: Game.FruitTreeRecord)
  {
    |record.fruit| > 0 && FruitStrips(record.fruit)
  }

  /** The drop table a tree's fruit give: drop k is fruit k's item, stripped, quantity 1, with its chance and season. */
  predicate DropsOf(drops: seq<D.Drop>, fruit: seq<Game.FruitEntry>)
  {
    && |drops| == |fruit|
    && forall k :: 0 <= k < |drops| ==> (
      && StripTypePrefix(fruit[k].itemId).Ok?
      && drops[k].item.ItemId == StripTypePrefix(fruit[k].itemId).value
      && drops[k].quantity == 1
      && drops[k].chance == fruit[k].chance
      && drops[k].season == fruit[k].season)
  }

  /** One more fruit and its drop keep the table matching the fruit. */
  lemma DropsOfAppend(drops: seq<D.Drop>, fruit: seq<Game.FruitEntry>, d: D.Drop, f: Game.FruitEntry)
    requires DropsOf(drops, fruit)
    requires StripTypePrefix(f.itemId).Ok? && d.item.ItemId == StripTypePrefix(f.itemId).value
    requires d.quantity == 1 && d.chance == f.chance && d.season == f.season
    ensures DropsOf(drops + [d], fruit + [f])
  {
    assert forall k :: 0 <= k < |drops| ==> (drops + [d])[k] == drops[k] && (fruit + [f])[k] == fruit[k];
  }

  /** BuildCrop: the seed is the tree's own id; throws ArgumentOutOfRange on a fruit id that fails to strip, or on no fruit. */
  method BuildCrop(record: Game.FruitTreeRecord, id: string, facts: string -> Objects.ObjectFacts)
    returns (r: Result<TD.TreeData>)
    ensures r.Ok? <==> Builds(record)
    ensures r.Throws? ==> r.error == ArgumentOutOfRange
    ensures r.Ok? ==> (fresh(r.value) && fresh(r.value.DropInformation)
      && r.value.Seed.ItemId == id && r.value.Seasons == record.seasons
      && r.value.DropInformation.Name == ""
      && DropsOf(r.value.DropInformation.Drops, record.fruit)
      && |r.value.DropInformation.Drops| == |record.fruit|)
  {
    var seed := Objects.NewObject(id, facts);
    var table := new D.DropInformation.Empty();
    var i := 0;
    while i < |record.fruit|
      invariant 0 <= i <= |record.fruit|
      invariant FruitStrips(record.fruit[..i])
      invariant table.Name == "" && DropsOf(table.Drops, record.fruit[..i])
    {
      var drop := record.fruit[i];
      var unqualified := StripTypePrefix(drop.itemId);
      if unqualified.Throws? {
        assert !FruitStrips(record.fruit);
        return Throws(unqualified.error);
      }
      var item := Objects.NewObject(unqualified.value, facts);
      DropsOfAppend(table.Drops, record.fruit[..i], D.Drop(item, 1, drop.chance, drop.season), drop);
      table.Drops := table.Drops + [D.Drop(item, 1, drop.chance, drop.season)];
      assert record.fruit[..i + 1] == record.fruit[..i] + [drop];
      i := i + 1;
    }
    assert record.fruit[..i] == record.fruit;
    r := TD.TreeData.New(record, seed, table);
  }

  /** No two loaded trees share an id. */
  predicate DistinctIds(loaded: seq<(string, Game.FruitTreeRecord)>)
  {
    forall i, j :: 0 <= i < j < |loaded| ==> loaded[i].0 != loaded[j].0
  }

  /**
   * BuildCrops: the loaded trees come from a dictionary, so their ids are
   * distinct and Dictionary.Add never meets a duplicate. The first tree that
   * does not build makes the whole call throw.
   */
  method BuildCrops(loaded: seq<(string, Game.FruitTreeRecord)>, facts: string -> Objects.ObjectFacts)
    returns (r: Result<map<string, TD.TreeData>>)
    requires DistinctIds(loaded)
    ensures r.Ok? <==> forall k :: 0 <= k < |loaded| ==> Builds(loaded[k].1)
    ensures r.Throws? ==> r.error == ArgumentOutOfRange
    ensures r.Ok? ==> r.value.Keys == set k | 0 <= k < |loaded| :: loaded[k].0
    ensures r.Ok? ==> forall k :: 0 <= k < |loaded| ==> (
      && r.value[loaded[k].0].Seed.ItemId == loaded[k].0
      && r.value[loaded[k].0].Seasons == loaded[k].1.seasons
      && |r.value[loaded[k].0].DropInformation.Drops| == |loaded[k].1.fruit|
      && DropsOf(r.value[loaded[k].0].DropInformation.Drops, loaded[k].1.fruit))
  {
    var trees: map<string, TD.TreeData> := map[];
    var i := 0;
    while i < |loaded|
      invariant 0 <= i <= |loaded|
      invariant forall k :: 0 <= k < i ==> Builds(loaded[k].1)
      invariant trees.Keys == set k | 0 <= k < i :: loaded[k].0
      invariant forall k :: 0 <= k < i ==> (
        && trees[loaded[k].0].Seed.ItemId == loaded[k].0
        && trees[loaded[k].0].Seasons == loaded[k].1.seasons
        && |trees[loaded[k].0].DropInformation.Drops| == |loaded[k].1.fruit|
        && DropsOf(trees[loaded[k].0].DropInformation.Drops, loaded[k].1.fruit))
    {
      var tree := BuildCrop(loaded[i].1, loaded[i].0, facts);
      if tree.Throws? {
        return Throws(tree.error);
      }
      assert loaded[i].0 !in trees;
      trees := trees[loaded[i].0 := tree.value];
      i := i + 1;
    }
    return Ok(trees);
  }
}

/**
 * CropBuilder (ProfitCalculator/main/builders/CropBuilder.cs): one CropData
 * per crop of the game's data, keyed by the seed id. The harvest is a single
 * drop of quantity 1 and chance 1; a harvest id of "23" stands for the seed
 * id itself.
 */
module CropBuilder {
  import opened Wrappers
  import Game
  import Objects
  import Seqs
  import Registry
  import D = DropInformation
  import CD = CropData

  /** The id of the harvested item: the crop's own id when the data says "23". */
  function HarvestId(record: Game.CropRecord, id: string): (r: string)
    ensures record.harvestItemId == "23" ==> r == id
    ensures record.harvestItemId != "23" ==> r == record.harvestItemId
  {
    if record.harvestItemId == "23" then id else record.harvestItemId
  }

  /** BuildCrop: the seed, the one-drop table named after the crop, and CropData with quality and fertilizer both affecting it. */
  method BuildCrop(record: Game.CropRecord, id: string, facts: string -> Objects.ObjectFacts)
    returns (r: Result<CD.CropData>)
    ensures r.Ok?
    ensures fresh(r.value) && fresh(r.value.DropInformation)
    ensures r.value.Built(record, r.value.Seed, r.value.DropInformation, true, true)
    ensures r.value.Seed.ItemId == id && r.value.DropInformation.Name == id
    ensures |r.value.DropInformation.Drops| == 1
    ensures r.value.DropInformation.Drops[0].item.ItemId == HarvestId(record, id)
    ensures r.value.DropInformation.Drops[0].quantity == 1 && r.value.DropInformation.Drops[0].chance == 1.0
    ensures r.value.DropInformation.Drops[0].season.None?
    ensures r.value.DisplayName == facts(HarvestId(record, id)).displayName
  {
    var seed := Objects.NewObject(id, facts);
    var item := Objects.NewObject(HarvestId(record, id), facts);
    var table := D.DropInformation.FromLists(id, [item], [1], [1.0]);
    if table.Throws? {
      assert false;
    }
    r := CD.CropData.New(record, seed, table.value, true, true);
  }

  /**
   * The harvest a built crop carries: one drop of the harvested item, of
   * quantity 1 and chance 1 in every season, in a table named after the
   * crop's id, and the crop shows the harvested item's display name.
   */
  predicate Harvest(crop: CD.CropData, record: Game.CropRecord, id: string, facts: string -> Objects.ObjectFacts)
    reads crop, crop.DropInformation
  {
    var drops := crop.DropInformation.Drops;
    && crop.DropInformation.Name == id
    && |drops| == 1
    && drops[0].item.ItemId == HarvestId(record, id)
    && drops[0].quantity == 1 && drops[0].chance == 1.0 && drops[0].season.None?
    && crop.DisplayName == facts(HarvestId(record, id)).displayName
  }

  /** The k-th loaded crop is the first one with its id. */
  predicate FirstWithId(loaded: seq<(string, Game.CropRecord)>, k: nat)
    requires k < |loaded|
  {
    forall j :: 0 <= j < k ==> loaded[j].0 != loaded[k].0
  }

  /**
   * BuildCrops: every crop is built and TryAdd-ed, so every id gets an entry
   * and the first crop with an id is the one kept.
   */
  method BuildCrops(loaded: seq<(string, Game.CropRecord)>, facts: string -> Objects.ObjectFacts)
    returns (crops: map<string, CD.CropData>)
    ensures crops.Keys == set k | 0 <= k < |loaded| :: loaded[k].0
    ensures forall id :: id in crops ==> crops[id].Seed.ItemId == id
    ensures forall id :: id in crops ==> crops[id].AffectByQuality && crops[id].AffectByFertilizer
    ensures forall k :: 0 <= k < |loaded| && FirstWithId(loaded, k) ==> (
      && crops[loaded[k].0].Days == Seqs.Sum(loaded[k].1.daysInPhase)
      && crops[loaded[k].0].Seasons == loaded[k].1.seasons
      && crops[loaded[k].0].RegrowDays == loaded[k].1.regrowDays
      && Harvest(crops[loaded[k].0], loaded[k].1, loaded[k].0, facts))
  {
    crops := map[];
    var i := 0;
    while i < |loaded|
      invariant 0 <= i <= |loaded|
      invariant crops.Keys == set k | 0 <= k < i :: loaded[k].0
      invariant forall id :: id in crops ==> crops[id].Seed.ItemId == id
      invariant forall id :: id in crops ==> crops[id].AffectByQuality && crops[id].AffectByFertilizer
      invariant forall k :: 0 <= k < i && FirstWithId(loaded, k) ==> (
        && crops[loaded[k].0].Days == Seqs.Sum(loaded[k].1.daysInPhase)
        && crops[loaded[k].0].Seasons == loaded[k].1.seasons
        && crops[loaded[k].0].RegrowDays == loaded[k].1.regrowDays
        && Harvest(crops[loaded[k].0], loaded[k].1, loaded[k].0, facts))
    {
      var id := loaded[i].0;
      var crop := BuildCrop(loaded[i].1, id, facts);
      var c := crop.value;
      assert c.Days == Seqs.Sum(loaded[i].1.daysInPhase) && c.Seasons == loaded[i].1.seasons
        && c.RegrowDays == loaded[i].1.regrowDays && c.Seed.ItemId == id;
      assert Harvest(c, loaded[i].1, id, facts);
      assert FirstWithId(loaded, i) ==> id !in crops;
      crops := Registry.TryAdd(crops, id, c);
      i := i + 1;
    }
  }
}

/**
 * The older CropBuilder (ProfitCalculator/main/CropBuilder.cs): the same
 * walk over the game's crops, building CropDataExpanded from the crop data,
 * the harvested item and the seed.
 */
module LegacyCropBuilder {
  import Game
  import Objects
  import CropBuilder
  import Registry
  import CDE = CropDataExpanded

  /** BuildCrop: both flags default to true; the seed price is read once through the shop accessor. */
  method BuildCrop(record: Game.CropRecord, id: string, facts: string -> Objects.ObjectFacts, seedPrice: string -> int)
    returns (crop: CDE.CropDataExpanded)
    ensures fresh(crop)
    ensures crop.CropData == record && crop.AffectByQuality && crop.AffectByFertilizer
    ensures crop.Seed.ItemId == id && crop.Item.ItemId == CropBuilder.HarvestId(record, id)
    ensures crop.SeedPrice == seedPrice(Objects.ObjectPrefix + id)
    ensures crop.Item.StorePrice == facts(CropBuilder.HarvestId(record, id)).storePrice
  {
    var seed := Objects.NewObject(id, facts);
    var item := Objects.NewObject(CropBuilder.HarvestId(record, id), facts);
    crop := new CDE.CropDataExpanded(record, item, seed, true, true, seedPrice);
  }

  /** BuildCrops: every id gets an entry, and the first crop with an id is the one kept. */
  method BuildCrops(loaded: seq<(string, Game.CropRecord)>, facts: string -> Objects.ObjectFacts, seedPrice: string -> int)
    returns (crops: map<string, CDE.CropDataExpanded>)
    ensures crops.Keys == set k | 0 <= k < |loaded| :: loaded[k].0
    ensures forall id :: id in crops ==> crops[id].Seed.ItemId == id && crops[id].SeedPrice == seedPrice(Objects.ObjectPrefix + id)
    ensures forall k :: 0 <= k < |loaded| && CropBuilder.FirstWithId(loaded, k) ==> (
      && crops[loaded[k].0].CropData == loaded[k].1
      && crops[loaded[k].0].Item.ItemId == CropBuilder.HarvestId(loaded[k].1, loaded[k].0))
  {
    crops := map[];
    var i := 0;
    while i < |loaded|
      invariant 0 <= i <= |loaded|
      invariant crops.Keys == set k | 0 <= k < i :: loaded[k].0
      invariant forall id :: id in crops ==> crops[id].Seed.ItemId == id && crops[id].SeedPrice == seedPrice(Objects.ObjectPrefix + id)
      invariant forall k :: 0 <= k < i && CropBuilder.FirstWithId(loaded, k) ==> (
        && crops[loaded[k].0].CropData == loaded[k].1
        && crops[loaded[k].0].Item.ItemId == CropBuilder.HarvestId(loaded[k].1, loaded[k].0))
    {
      var id := loaded[i].0;
      var crop := BuildCrop(loaded[i].1, id, facts, seedPrice);
      assert CropBuilder.FirstWithId(loaded, i) ==> id !in crops;
      crops := Registry.TryAdd(crops, id, crop);
      i := i + 1;
    }
  }
}
