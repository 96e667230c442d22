/**
 * What the plant classes read from outside themselves. They look up the
 * registered Calculator for the season, the day, the fertilizer, the pay
 * flags, the farming level and the price multipliers; they ask the game for
 * the player's professions, for object prices and, through the registered
 * shop accessor, for seed prices. All of it is bundled into one value that
 * the plant members take as a parameter.
 */
module Settings {
  import opened Wrappers
  import Numeric
  import Utils
  import Game

  /** A copy of the Calculator's settings fields. `day`, `maxDay`, `minDay` and `maxMoney` are uint values. */
  datatype Settings = Settings(
    day: int,
    maxDay: int,
    minDay: int,
    season: int,
    produceType: int,
    fertilizerQuality: int,
    payForSeeds: bool,
    payForFertilizer: bool,
    maxMoney: int,
    useBaseStats: bool,
    crossSeason: bool,
    priceMultipliers: seq<real>,
    farmingLevel: int)

  /** The Calculator's initial PriceMultipliers. */
  const DefaultPriceMultipliers: seq<real> := [1.0, 1.25, 1.5, 2.0]

  /**
   * The world a plant is evaluated in: the registered Calculator's settings
   * (None when no Calculator is registered), the player, the game's price of
   * an object by id, and the cheapest seed price the registered shop
   * accessor gives for a qualified seed id (0 when none is registered).
   */
  datatype World = World(
    calculator: Option<Settings>,
    player: Game.Player,
    objectPrice: string -> int,
    seedPrice: string -> int)

  /** `Calculator?.Season ?? UtilsSeason.Spring`. */
  function SeasonOf(w: World): (s: int)
    ensures w.calculator.None? ==> s == Utils.Spring
    ensures w.calculator.Some? ==> s == w.calculator.value.season
  {
    if w.calculator.Some? then w.calculator.value.season else Utils.Spring
  }

  /** `(int)(Calculator?.Day ?? 0)`: the uint day read as an int. */
  function DayOf(w: World): (d: int)
    ensures Numeric.IsInt32(d)
    ensures w.calculator.None? ==> d == 0
    ensures w.calculator.Some? && 0 <= w.calculator.value.day <= Numeric.IntMax ==> d == w.calculator.value.day
  {
    if w.calculator.Some? then Numeric.WrapInt32(w.calculator.value.day) else 0
  }

  /** `Calculator?.FertilizerQuality ?? FertilizerQuality.None`. */
  function FertilizerOf(w: World): (fq: int)
    ensures w.calculator.None? ==> fq == Utils.NoFertilizer
    ensures w.calculator.Some? ==> fq == w.calculator.value.fertilizerQuality
  {
    if w.calculator.Some? then w.calculator.value.fertilizerQuality else Utils.NoFertilizer
  }

  /** `Calculator?.UseBaseStats ?? false`. */
  predicate UseBaseStatsOf(w: World)
  {
    w.calculator.Some? && w.calculator.value.useBaseStats
  }

  /** `Calculator?.PayForSeeds ?? false`. */
  predicate PayForSeedsOf(w: World)
  {
    w.calculator.Some? && w.calculator.value.payForSeeds
  }

  /** `Calculator?.PayForFertilizer ?? false`. */
  predicate PayForFertilizerOf(w: World)
  {
    w.calculator.Some? && w.calculator.value.payForFertilizer
  }

  /** `Calculator?.FarmingLevel ?? 0`. */
  function FarmingLevelOf(w: World): (fl: int)
    ensures w.calculator.None? ==> fl == 0
    ensures w.calculator.Some? ==> fl == w.calculator.value.farmingLevel
  {
    if w.calculator.Some? then w.calculator.value.farmingLevel else 0
  }

  /** The tiller bonus applies when base stats are not forced and the player is a tiller. */
  predicate TillerBonus(w: World)
  {
    !UseBaseStatsOf(w) && w.player.tiller
  }
}
