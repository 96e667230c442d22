/**
 * The drop list of a custom bush and the price that CustomBushData's
 * override of `Price` computes from it. The base PlantData dispatches its
 * virtual `Price` here for a bush.
 */
module BushDrops {
  import opened Wrappers
  import Numeric
  import Utils
  import Game

  /** One custom bush drop: an object id, the chance of dropping it and the season it drops in, if any. */
  datatype BushDrop = BushDrop(itemId: string, chance: real, season: Option<Game.Season>)

  /** What a CustomBushData adds to the base class: its own drop list, the day it begins producing and its item. */
  datatype BushPart = BushPart(drops: seq<BushDrop>, daysToBeginProducing: int, item: Game.Item)

  /** Whether the override's query sums a drop: every drop in the greenhouse, else a drop whose season is the queried one. */
  predicate Counted(d: BushDrop, season: int)
  {
    season == Utils.Greenhouse || (d.season.Some? && Utils.SeasonFromUtilsSeason(season) == Ok(d.season.value))
  }

  /** The sum of object price × chance over the counted drops; an empty selection sums to 0. */
  function PriceSum(drops: seq<BushDrop>, season: int, objectPrice: string -> int): real
  {
    if |drops| == 0 then 0.0
    else
      var d := drops[|drops| - 1];
      PriceSum(drops[..|drops| - 1], season, objectPrice)
        + (if Counted(d, season) then objectPrice(d.itemId) as real * d.chance else 0.0)
  }

  /** CustomBushData.Price: the sum, truncated to an int. */
  function Price(drops: seq<BushDrop>, season: int, objectPrice: string -> int): (p: int)
    ensures |drops| == 0 ==> p == 0
    ensures PriceSum(drops, season, objectPrice) >= 0.0 ==>
      (p >= 0 && p as real <= PriceSum(drops, season, objectPrice) < p as real + 1.0)
  {
    Numeric.Truncate(PriceSum(drops, season, objectPrice))
  }

  /** A bush none of whose drops is counted in the season is worth nothing then. */
  lemma {:induction false} PriceSumNothingCounted(drops: seq<BushDrop>, season: int, objectPrice: string -> int)
    requires forall k :: 0 <= k < |drops| ==> !Counted(drops[k], season)
    ensures PriceSum(drops, season, objectPrice) == 0.0
    decreases |drops|
  {
    if |drops| > 0 {
      PriceSumNothingCounted(drops[..|drops| - 1], season, objectPrice);
    }
  }

  /**
   * With non-negative prices and chances, the greenhouse price, which sums
   * every drop, is at least the price in any one season.
   */
  lemma {:induction false} GreenhouseSumDominates(drops: seq<BushDrop>, season: int, objectPrice: string -> int)
    requires forall k :: 0 <= k < |drops| ==> objectPrice(drops[k].itemId) >= 0 && drops[k].chance >= 0.0
    ensures PriceSum(drops, season, objectPrice) <= PriceSum(drops, Utils.Greenhouse, objectPrice)
    decreases |drops|
  {
    if |drops| > 0 {
      var d := drops[|drops| - 1];
      GreenhouseSumDominates(drops[..|drops| - 1], season, objectPrice);
      assert objectPrice(d.itemId) as real * d.chance >= 0.0;
    }
  }
}

/**
 * CustomBushData: a bush from the Custom Bush mod. Its constructor hands the
 * base class an empty drop table, and it declares its own versions of most
 * plant members with `new` semantics, so they hide the base members instead
 * of overriding them. Only `Price` overrides. The calculator reaches plants
 * through PlantData references and therefore runs the base members; the
 * hidden ones run only through a reference typed CustomBushData.
 */
module CustomBushData {
  import opened Wrappers
  import Numeric
  import Utils
  import Game
  import Settings
  import D = DropInformation
  import P = PlantData
  import BushDrops

  /** What the constructor reads of the Custom Bush mod's bush definition. */
  datatype CustomBush = CustomBush(ageToProduce: int, dayToBeginProducing: int, displayName: string, seasons: seq<Game.Season>)

  /**
   * The constructor as written: the base constructor gets an empty drop
   * table and reads its first drop, so construction always throws
   * ArgumentOutOfRange before the bush's own fields are set.
   */
  method New(bush: CustomBush, drops: seq<BushDrops.BushDrop>, seed: Game.Item) returns (r: Result<P.PlantData>)
    ensures r == Throws(ArgumentOutOfRange)
  {
    var empty := new D.DropInformation.Empty();
    r := P.PlantData.New(bush.ageToProduce, 1, 1, 1, 0.0, 0.0, bush.displayName, bush.seasons, seed, false, false,
                         empty, Some(BushDrops.BushPart(drops, bush.dayToBeginProducing, seed)));
  }

  /**
   * The constructor as evidently intended: the base part without reading a
   * drop of the (empty) base table, then the bush's own fields. The bush is
   * built, and its price comes from its own drops.
   */
  method NewCorrected(bush: CustomBush, drops: seq<BushDrops.BushDrop>, seed: Game.Item) returns (plant: P.PlantData)
    ensures fresh(plant) && fresh(plant.DropInformation) && plant.DropInformation.Drops == []
    ensures plant.Days == bush.ageToProduce && plant.RegrowDays == 1 && plant.MinHarvests == 1 && plant.MaxHarvests == 1
    ensures plant.MaxHarvestIncreasePerFarmingLevel == 0.0 && plant.ChanceForExtraCrops == 0.0
    ensures plant.DisplayName == bush.displayName && plant.Seasons == bush.seasons && plant.Seed == seed
    ensures !plant.AffectByQuality && !plant.AffectByFertilizer
    ensures plant.Bush == Some(BushDrops.BushPart(drops, bush.dayToBeginProducing, seed))
    ensures forall w: Settings.World, season: int ::
      plant.Price(w, season) == BushDrops.Price(drops, season, w.objectPrice)
  {
    var empty := new D.DropInformation.Empty();
    plant := new P.PlantData.Init(bush.ageToProduce, 1, 1, 1, 0.0, 0.0, bush.displayName, bush.seasons, seed, false, false,
                                  empty, Some(BushDrops.BushPart(drops, bush.dayToBeginProducing, seed)));
  }

  // ---------------------------------------------------------------------
  // The hidden members, on a plant that is a bush

  /** The hidden growth speed: the crop formula without the paddy bonus; the agriculturist bonus ignores UseBaseStats. */
  function GetAverageGrowthSpeedValueForCrop(plant: P.PlantData, fertilizerQuality: int, w: Settings.World): (speed: real)
    ensures speed == P.GrowthSpeed(plant.AffectByFertilizer, fertilizerQuality, false, w.player.agriculturist)
    ensures !plant.AffectByFertilizer ==> speed >= 1.0
    ensures plant.AffectByFertilizer && fertilizerQuality >= 0 ==> speed == (if w.player.agriculturist then 0.1 else 0.0)
  {
    P.GrowthSpeed(plant.AffectByFertilizer, fertilizerQuality, false, w.player.agriculturist)
  }

  /**
   * The producing days of the planting season: s1 = 28 − Days − day are left
   * once the bush is grown, and a producing season has 28 −
   * DaysToBeginProducing days; s1 counts when it is at least that, a full
   * producing season counts when s1 is positive but smaller, else nothing.
   */
  function FirstSeasonDays(days: int, day: int, daysToBeginProducing: int): (d: int)
    ensures 28 - days - day > 0 ==> d == Numeric.Max(28 - days - day, 28 - daysToBeginProducing)
    ensures 28 - days - day <= 0 && daysToBeginProducing <= 28 ==> d == 0
  {
    var season1Days := 28 - days - day;
    var season1DaysToBeginProducing := 28 - daysToBeginProducing;
    if season1Days >= season1DaysToBeginProducing then season1Days
    else if season1Days > 0 then season1DaysToBeginProducing
    else 0
  }

  /** AvailableGrowingDays: the first season, then three more producing seasons in the greenhouse, else one per further list entry. */
  function AvailableGrowingDays(days: int, daysToBeginProducing: int, seasonCount: int, season: int, day: int): (d: int)
    ensures season == Utils.Greenhouse ==>
      d == FirstSeasonDays(days, day, daysToBeginProducing) + 3 * (28 - daysToBeginProducing)
    ensures season != Utils.Greenhouse ==>
      d == FirstSeasonDays(days, day, daysToBeginProducing) + Numeric.Max(0, seasonCount - 1) * (28 - daysToBeginProducing)
  {
    var perSeason := 28 - daysToBeginProducing;
    if season == Utils.Greenhouse then FirstSeasonDays(days, day, daysToBeginProducing) + 3 * perSeason
    else FirstSeasonDays(days, day, daysToBeginProducing) + Numeric.Max(0, seasonCount - 1) * perSeason
  }

  /** AvailableGrowingDays as the source computes it: branches for the first season, then a loop over the further seasons. */
  method CountAvailableGrowingDays(plant: P.PlantData, currentSeason: int, day: int) returns (availableDays: int)
    requires plant.Bush.Some?
    ensures availableDays == AvailableGrowingDays(plant.Days, plant.Bush.value.daysToBeginProducing, |plant.Seasons|,
                                                  currentSeason, day)
  {
    availableDays := 0;
    var daysToBeginProducing := plant.Bush.value.daysToBeginProducing;
    var daysToGrow := plant.Days;
    var season1Days := 28 - daysToGrow - day;
    var season1DaysToBeginProducing := 28 - daysToBeginProducing;
    if season1Days >= season1DaysToBeginProducing {
      availableDays := season1Days;
    } else if season1Days > 0 {
      availableDays := season1DaysToBeginProducing;
    }
    if currentSeason == Utils.Greenhouse {
      return availableDays + 3 * (28 - daysToBeginProducing);
    }
    var i := 1;
    while i < |plant.Seasons|
      invariant 1 <= i <= Numeric.Max(1, |plant.Seasons|)
      invariant availableDays == FirstSeasonDays(daysToGrow, day, daysToBeginProducing) + (i - 1) * (28 - daysToBeginProducing)
    {
      availableDays := availableDays + (28 - daysToBeginProducing);
      i := i + 1;
    }
  }

  /**
   * A bush that grows up well inside the season still gets a whole
   * producing season for it: grown after 10 days from day 10, it has 8 days
   * left, but producing from day 0 it is credited 28.
   */
  lemma FirstSeasonCanExceedRemainingDays()
    ensures 28 - 10 - 10 == 8 && FirstSeasonDays(10, 10, 0) == 28
  {
  }

  /** Once grown in time, a bush's first season never counts less than a producing season. */
  lemma {:induction false} FirstSeasonAtLeastProducingSeason(days: int, day: int, daysToBeginProducing: int)
    requires 28 - days - day > 0
    ensures FirstSeasonDays(days, day, daysToBeginProducing) >= 28 - daysToBeginProducing
    ensures FirstSeasonDays(days, day, daysToBeginProducing) >= 28 - days - day
  {
    assert FirstSeasonDays(days, day, daysToBeginProducing) == Numeric.Max(28 - days - day, 28 - daysToBeginProducing);
  }

  /**
   * The hidden harvest count: AvailableGrowingDays over RegrowDays in C#
   * integer division, when the bush is in season or in the greenhouse; a
   * zero RegrowDays throws DivideByZero.
   */
  function Harvests(mayGrow: bool, availableGrowingDays: int, regrowDays: int): (r: Result<int>)
    ensures !mayGrow ==> r == Ok(0)
    ensures mayGrow ==> (r.Ok? <==> regrowDays != 0)
    ensures mayGrow && regrowDays == 0 ==> r == Throws(DivideByZero)
    ensures mayGrow && regrowDays > 0 && availableGrowingDays >= 0 ==>
      r.Ok? && r.value * regrowDays <= availableGrowingDays < (r.value + 1) * regrowDays
  {
    if !mayGrow then Ok(0)
    else if regrowDays == 0 then Throws(DivideByZero)
    else
      var q := Numeric.CDiv(availableGrowingDays, regrowDays);
      assert availableGrowingDays >= 0 && regrowDays > 0 ==> q * regrowDays + availableGrowingDays % regrowDays == availableGrowingDays;
      Ok(q)
  }

  function TotalHarvestsWithRemainingDays(plant: P.PlantData, currentSeason: int, day: int): (r: Result<int>)
    requires plant.Bush.Some?
    ensures r == Harvests(P.IsAvailable(plant.Seasons, currentSeason) || currentSeason == Utils.Greenhouse,
                          AvailableGrowingDays(plant.Days, plant.Bush.value.daysToBeginProducing, |plant.Seasons|,
                                               currentSeason, day),
                          plant.RegrowDays)
  {
    Harvests(P.IsAvailable(plant.Seasons, currentSeason) || currentSeason == Utils.Greenhouse,
             AvailableGrowingDays(plant.Days, plant.Bush.value.daysToBeginProducing, |plant.Seasons|, currentSeason, day),
             plant.RegrowDays)
  }

  /** With RegrowDays fixed at 1 by the constructor, a bush in season harvests once per available growing day. */
  lemma HarvestsOncePerDay(mayGrow: bool, availableGrowingDays: int)
    requires mayGrow && availableGrowingDays >= 0
    ensures Harvests(mayGrow, availableGrowingDays, 1) == Ok(availableGrowingDays)
  {
  }

  /** The hidden multiplier: the constant chances against the calculator's multipliers, or the defaults without one. */
  function GetAverageValueMultiplierForCrop(w: Settings.World): (r: Result<real>)
    ensures w.calculator.None? ==> r == Ok(1.0)
    ensures w.calculator.Some? && |w.calculator.value.priceMultipliers| >= 4 ==> r == Ok(w.calculator.value.priceMultipliers[0])
    ensures w.calculator.Some? && |w.calculator.value.priceMultipliers| < 4 ==> r == Throws(IndexOutOfRange)
  {
    var m := if w.calculator.Some? then w.calculator.value.priceMultipliers else Settings.DefaultPriceMultipliers;
    P.ValueMultiplier(P.ConstantChances, Some(m))
  }

  function GetAverageValueForCropAfterModifiers(w: Settings.World): (r: Result<real>)
    ensures r.Ok? <==> GetAverageValueMultiplierForCrop(w).Ok?
    ensures r.Ok? ==> r.value == P.AfterModifiers(GetAverageValueMultiplierForCrop(w).value, Settings.TillerBonus(w))
  {
    var m :- GetAverageValueMultiplierForCrop(w);
    Ok(P.AfterModifiers(m, Settings.TillerBonus(w)))
  }

  /** The hidden profit: the bush's price in the season times its hidden harvest count; no quality or tiller factor. */
  function TotalCropProfit(plant: P.PlantData, w: Settings.World): (r: Result<real>)
    requires plant.Bush.Some?
    reads plant.DropInformation
    ensures r.Ok? <==> TotalHarvestsWithRemainingDays(plant, Settings.SeasonOf(w), Settings.DayOf(w)).Ok?
    ensures r.Ok? ==> r.value == BushDrops.Price(plant.Bush.value.drops, Settings.SeasonOf(w), w.objectPrice) as real
                                 * TotalHarvestsWithRemainingDays(plant, Settings.SeasonOf(w), Settings.DayOf(w)).value as real
  {
    var season := Settings.SeasonOf(w);
    var harvests :- TotalHarvestsWithRemainingDays(plant, season, Settings.DayOf(w));
    Ok(plant.Price(w, season) as real * harvests as real)
  }

  function TotalCropProfitPerDay(plant: P.PlantData, w: Settings.World): (r: Result<Numeric.Double>)
    requires plant.Bush.Some?
    reads plant.DropInformation
    ensures r.Ok? <==> TotalCropProfit(plant, w).Ok?
    ensures r.Ok? ==> r.value == P.PerDay(TotalCropProfit(plant, w).value,
                                          P.AvailableDays(plant.Seasons, Settings.SeasonOf(w), Settings.DayOf(w)))
  {
    var profit :- TotalCropProfit(plant, w);
    Ok(P.PerDay(profit, P.AvailableDays(plant.Seasons, Settings.SeasonOf(w), Settings.DayOf(w))))
  }

  /** The hidden seeds needed: one for a regrowing bush with days left, else the hidden harvest count. */
  function TotalSeedsNeeded(plant: P.PlantData, w: Settings.World): (r: Result<int>)
    requires plant.Bush.Some?
    ensures plant.RegrowDays > 0 && P.AvailableDays(plant.Seasons, Settings.SeasonOf(w), Settings.DayOf(w)) > 0 ==> r == Ok(1)
    ensures !(plant.RegrowDays > 0 && P.AvailableDays(plant.Seasons, Settings.SeasonOf(w), Settings.DayOf(w)) > 0) ==>
      r == TotalHarvestsWithRemainingDays(plant, Settings.SeasonOf(w), Settings.DayOf(w))
  {
    var season, day := Settings.SeasonOf(w), Settings.DayOf(w);
    if plant.RegrowDays > 0 && P.AvailableDays(plant.Seasons, season, day) > 0 then Ok(1)
    else TotalHarvestsWithRemainingDays(plant, season, day)
  }

  function TotalSeedsCost(plant: P.PlantData, w: Settings.World): (r: Result<int>)
    requires plant.Bush.Some?
    ensures !Settings.PayForSeedsOf(w) ==> r == Ok(0)
    ensures Settings.PayForSeedsOf(w) ==> (r.Ok? <==> TotalSeedsNeeded(plant, w).Ok?)
    ensures Settings.PayForSeedsOf(w) && r.Ok? ==> r.value == TotalSeedsNeeded(plant, w).value * plant.SeedPrice(w)
  {
    if !Settings.PayForSeedsOf(w) then Ok(0)
    else
      var needed :- TotalSeedsNeeded(plant, w);
      Ok(needed * plant.SeedPrice(w))
  }

  function TotalSeedsCostPerDay(plant: P.PlantData, w: Settings.World): (r: Result<Numeric.Double>)
    requires plant.Bush.Some?
    ensures r.Ok? <==> TotalSeedsCost(plant, w).Ok?
    ensures r.Ok? ==> r.value == P.PerDay(TotalSeedsCost(plant, w).value as real,
                                          P.AvailableDays(plant.Seasons, Settings.SeasonOf(w), Settings.DayOf(w)))
  {
    var cost :- TotalSeedsCost(plant, w);
    Ok(P.PerDay(cost as real, P.AvailableDays(plant.Seasons, Settings.SeasonOf(w), Settings.DayOf(w))))
  }

  /**
   * The hidden harvest count can differ from the base one that the
   * calculator runs: a one-season bush of age 10 producing from day 0,
   * planted on day 10 of its season, harvests 28 times by its own count but
   * 9 times by the base count (one after 10 days, one per day after that).
   */
  lemma HiddenHarvestsDifferFromBase()
    ensures var mayGrow := P.IsAvailable([Game.Spring], Utils.Spring);
      && Harvests(mayGrow, AvailableGrowingDays(10, 0, 1, Utils.Spring, 10), 1) == Ok(28)
      && P.Harvests(mayGrow, P.AvailableDays([Game.Spring], Utils.Spring, 10), 10, 1) == 9
  {
    assert Game.Ordinal([Game.Spring][0]) == Utils.Spring;
    Numeric.TruncateShift(1, 8.0 / 1.0);
  }
}
