/**
 * The parts of the game the mods read, reduced to inputs: the game's season
 * enum, items (compared by reference) and the player's farming facts.
 */
module Game {
  import opened Wrappers

  /** StardewValley.Season: Spring = 0 … Winter = 3. */
  datatype Season = Spring | Summer | Fall | Winter

  function Ordinal(s: Season): (n: nat)
    ensures n < 4
  {
    match s
    case Spring => 0
    case Summer => 1
    case Fall => 2
    case Winter => 3
  }

  /** The cast `(Season)n`: only 0..3 name a season; any other number names none of them. */
  function SeasonOfOrdinal(n: int): (r: Option<Season>)
    ensures r.Some? <==> 0 <= n < 4
    ensures r.Some? ==> Ordinal(r.value) == n
  {
    if n == 0 then Some(Spring)
    else if n == 1 then Some(Summer)
    else if n == 2 then Some(Fall)
    else if n == 3 then Some(Winter)
    else None
  }

  /**
   * A game item. The mods compare items by reference, so an item is an
   * object; what the game would compute for it (its store price) is fixed
   * when the object is made.
   */
  class Item {
    const Name: string
    const DisplayName: string
    const ItemId: string
    const QualifiedItemId: string
    /** What `sellToStorePrice()` gives for this item. */
    const StorePrice: int

    constructor (name: string, displayName: string, itemId: string, qualifiedItemId: string, storePrice: int)
      ensures Name == name && DisplayName == displayName && ItemId == itemId
      ensures QualifiedItemId == qualifiedItemId && StorePrice == storePrice
    {
      Name := name;
      DisplayName := displayName;
      ItemId := itemId;
      QualifiedItemId := qualifiedItemId;
      StorePrice := storePrice;
    }
  }

  /** What the mods read from `Game1.player`. */
  datatype Player = Player(farmingLevel: int, tiller: bool, agriculturist: bool)

  /**
   * The game's crop data asset (StardewValley.GameData.Crops.CropData):
   * the fields the mods read.
   */
  datatype CropRecord = CropRecord(
    daysInPhase: seq<int>,
    regrowDays: int,
    harvestMinStack: int,
    harvestMaxStack: int,
    harvestMaxIncreasePerFarmingLevel: real,
    extraHarvestChance: real,
    isPaddyCrop: bool,
    seasons: seq<Season>,
    harvestItemId: string,
    spriteIndex: int)

  /** One fruit entry of a fruit tree asset: the item id (possibly with a type prefix), its chance and its season. */
  datatype FruitEntry = FruitEntry(itemId: string, chance: real, season: Option<Season>)

  /** The game's fruit tree asset (StardewValley.GameData.FruitTrees.FruitTreeData): its seasons and its fruit. */
  datatype FruitTreeRecord = FruitTreeRecord(seasons: seq<Season>, fruit: seq<FruitEntry>)
}
