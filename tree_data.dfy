/**
 * TreeData: a fruit tree. Its growth parameters are fixed (28 days to grow,
 * one fruit a day, unaffected by quality or fertilizer); every harvest is of
 * normal quality, and its profit uses the table's unrounded average price.
 */
module TreeData {
  import opened Wrappers
  import Numeric
  import Utils
  import Game
  import Settings
  import IPlantData
  import D = DropInformation
  import P = PlantData

  /**
   * The tree's harvest count: with no growing days, one harvest on the day
   * it may grow and one per regrowth period after that; nothing out of
   * season or with negative days. The branch for a tree that does not
   * regrow divides by its zero growing days.
   */
  function Harvests(mayGrow: bool, availableDays: int, regrowDays: int): (r: Result<int>)
    ensures !mayGrow || availableDays < 0 ==> r == Ok(0)
    ensures mayGrow && availableDays >= 0 && regrowDays > 0 ==> r == Ok(1 + availableDays / regrowDays)
    ensures mayGrow && availableDays >= 0 && regrowDays <= 0 ==> r == Throws(DivideByZero)
  {
    if !mayGrow then Ok(0)
    else if availableDays < 0 then Ok(0)
    else if regrowDays > 0 then
      Numeric.TruncateShift(1, availableDays as real / regrowDays as real);
      Numeric.TruncateQuotient(availableDays, regrowDays);
      Ok(Numeric.Truncate(1.0 + availableDays as real / regrowDays as real))
    else Throws(DivideByZero)
  }

  /**
   * TotalCropProfitPerDay: 0 for a profit within 0.0001 of zero, else the
   * profit over the available days. It agrees with the other plants'
   * per-day figure except for such tiny profits.
   */
  function PerDay(profit: real, days: int): (d: Numeric.Double)
    ensures Numeric.AbsReal(profit) < 0.0001 ==> d == Numeric.Num(0.0)
    ensures Numeric.AbsReal(profit) >= 0.0001 ==> d == P.PerDay(profit, days)
  {
    if Numeric.AbsReal(profit) < 0.0001 then Numeric.Num(0.0) else Numeric.DivDays(profit, days)
  }

  /**
   * The profit of h harvests at an average price, the price scaled by 1.1f
   * with the tiller bonus; the bonus never lowers a non-negative profit.
   */
  function ScaledProfit(avg: real, tiller: bool, h: nat): (r: real)
    ensures !tiller ==> r == avg * h as real
    ensures tiller ==> r == avg * P.TillerFactor * h as real
    ensures avg >= 0.0 ==> r >= avg * h as real
  {
    if tiller then
      if avg >= 0.0 then
        Numeric.MulMonotone(avg, h as real, avg * P.TillerFactor, h as real);
        avg * P.TillerFactor * h as real
      else avg * P.TillerFactor * h as real
    else avg * h as real
  }

  class TreeData {
    const Days: int := 28
    const RegrowDays: int := 1
    const MinHarvests: int := 1
    const MaxHarvests: int := 1
    const MaxHarvestIncreasePerFarmingLevel: real := 0.0
    const ChanceForExtraCrops: real := 0.0
    const IsPaddyCrop: bool := false
    const AffectByQuality: bool := false
    const AffectByFertilizer: bool := false
    const DisplayName: string
    const Seasons: seq<Game.Season>
    const Seed: Game.Item
    const DropInformation: D.DropInformation

    constructor Init(record: Game.FruitTreeRecord, seed: Game.Item, dropInformation: D.DropInformation)
      requires |dropInformation.Drops| > 0
      ensures Seasons == record.seasons && Seed == seed && DropInformation == dropInformation
      ensures DisplayName == dropInformation.Drops[0].item.DisplayName
    {
      Seasons := record.seasons;
      DisplayName := dropInformation.Drops[0].item.DisplayName;
      Seed := seed;
      DropInformation := dropInformation;
    }

    /** The constructor, whose read of the first drop throws ArgumentOutOfRange for an empty table. */
    static method New(record: Game.FruitTreeRecord, seed: Game.Item, dropInformation: D.DropInformation)
      returns (r: Result<TreeData>)
      ensures r.Ok? <==> |dropInformation.Drops| > 0
      ensures r.Throws? ==> r.error == ArgumentOutOfRange
      ensures r.Ok? ==> (fresh(r.value) && r.value.Seasons == record.seasons && r.value.Seed == seed
        && r.value.DropInformation == dropInformation && r.value.DisplayName == dropInformation.Drops[0].item.DisplayName)
    {
      if |dropInformation.Drops| == 0 {
        return Throws(ArgumentOutOfRange);
      }
      var tree := new TreeData.Init(record, seed, dropInformation);
      return Ok(tree);
    }

    /** SeedPrice: the registered shop accessor's cheapest price for the sapling, or 0. */
    function SeedPrice(w: Settings.World): (p: int)
      ensures p == w.seedPrice(Seed.QualifiedItemId)
    {
      w.seedPrice(Seed.QualifiedItemId)
    }

    /** A tree has no speed bonus, and it grows in its 28 days. */
    function GetAverageGrowthSpeedValueForCrop(fertilizerQuality: int): (speed: real)
      ensures P.GrowingDays(Days, speed) == Days
    {
      P.GrowingDaysWithoutSpeed(Days);
      0.0
    }

    function IsAvailableForCurrentSeason(currentSeason: int): (b: bool)
      ensures b <==> exists k :: 0 <= k < |Seasons| && Game.Ordinal(Seasons[k]) == currentSeason
    {
      P.IsAvailable(Seasons, currentSeason)
    }

    method TotalAvailableDays(currentSeason: int, day: int) returns (total: int)
      ensures total == P.AvailableDays(Seasons, currentSeason, day)
    {
      total := P.CountAvailableDays(Seasons, currentSeason, day);
    }

    /**
     * With RegrowDays fixed at 1 the harvest count never throws: a tree that
     * may grow is harvested on every available day and once more.
     */
    function TotalHarvestsWithRemainingDays(currentSeason: int, day: int): (h: int)
      ensures var mayGrow := IsAvailableForCurrentSeason(currentSeason) || currentSeason == Utils.Greenhouse;
        var available := P.AvailableDays(Seasons, currentSeason, day);
        && Harvests(mayGrow, available, RegrowDays) == Ok(h)
        && h == (if mayGrow && available >= 0 then 1 + available else 0)
    {
      Harvests(IsAvailableForCurrentSeason(currentSeason) || currentSeason == Utils.Greenhouse,
               P.AvailableDays(Seasons, currentSeason, day), RegrowDays).value
    }

    /** In the greenhouse a tree is harvested 113 times: on each of the 112 days and once more. */
    lemma GreenhouseHarvests(day: int)
      ensures TotalHarvestsWithRemainingDays(Utils.Greenhouse, day) == 113
    {
    }

    function ExtraCropsFromFarmingLevel(): (n: int)
      ensures n == 0
    {
      0
    }

    function AverageExtraCropsFromRandomness(): (x: real)
      ensures x == 0.0
    {
      0.0
    }

    /** Constant chances against the calculator's multipliers, or the defaults without one: the first multiplier. */
    function GetAverageValueMultiplierForCrop(w: Settings.World): (r: Result<real>)
      ensures w.calculator.None? ==> r == Ok(1.0)
      ensures w.calculator.Some? && |w.calculator.value.priceMultipliers| >= 4 ==> r == Ok(w.calculator.value.priceMultipliers[0])
      ensures w.calculator.Some? && |w.calculator.value.priceMultipliers| < 4 ==> r == Throws(IndexOutOfRange)
    {
      var m := if w.calculator.Some? then w.calculator.value.priceMultipliers else Settings.DefaultPriceMultipliers;
      P.ValueMultiplier(P.ConstantChances, Some(m))
    }

    function GetAverageValueForCropAfterModifiers(w: Settings.World): (r: Result<real>)
      ensures r.Ok? <==> GetAverageValueMultiplierForCrop(w).Ok?
      ensures r.Ok? ==> r.value == P.AfterModifiers(GetAverageValueMultiplierForCrop(w).value, Settings.TillerBonus(w))
    {
      var m :- GetAverageValueMultiplierForCrop(w);
      Ok(P.AfterModifiers(m, Settings.TillerBonus(w)))
    }

    /** The average price of the drops in the calculator's season. */
    function AveragePrice(w: Settings.World): (r: real)
      reads DropInformation
      ensures r == D.AveragePrice(DropInformation.Drops, Settings.SeasonOf(w))
      ensures |DropInformation.Drops| == 0 ==> r == 0.0
    {
      D.AveragePrice(DropInformation.Drops, Settings.SeasonOf(w))
    }

    /** The harvests left under the calculator's season and day. */
    function TotalHarvests(w: Settings.World): (h: nat)
      ensures !IsAvailableForCurrentSeason(Settings.SeasonOf(w)) && Settings.SeasonOf(w) != Utils.Greenhouse ==> h == 0
      ensures Settings.SeasonOf(w) == Utils.Greenhouse ==> h == 113
    {
      TotalHarvestsWithRemainingDays(Settings.SeasonOf(w), Settings.DayOf(w))
    }

    /**
     * TotalCropProfit: the unrounded average price of one harvest, times
     * 1.1f with the tiller bonus, times the harvests. It needs no
     * multipliers, so it never throws.
     */
    function TotalCropProfit(w: Settings.World): (r: real)
      reads DropInformation
      ensures r == ScaledProfit(AveragePrice(w), Settings.TillerBonus(w), TotalHarvests(w))
      ensures AveragePrice(w) >= 0.0 ==> r >= AveragePrice(w) * TotalHarvests(w) as real
    {
      ScaledProfit(AveragePrice(w), Settings.TillerBonus(w), TotalHarvests(w))
    }

    function TotalCropProfitPerDay(w: Settings.World): (d: Numeric.Double)
      reads DropInformation
      ensures d == PerDay(TotalCropProfit(w), P.AvailableDays(Seasons, Settings.SeasonOf(w), Settings.DayOf(w)))
    {
      PerDay(TotalCropProfit(w), P.AvailableDays(Seasons, Settings.SeasonOf(w), Settings.DayOf(w)))
    }

    function TotalFertilizerNeeded(w: Settings.World): (n: int)
      ensures n == IPlantData.DocumentedFertilizerNeeded(Settings.SeasonOf(w), |Seasons|,
                                                         P.AvailableDays(Seasons, Settings.SeasonOf(w), Settings.DayOf(w)))
    {
      P.FertilizerNeeded(Settings.SeasonOf(w), |Seasons|, P.AvailableDays(Seasons, Settings.SeasonOf(w), Settings.DayOf(w)))
    }

    function TotalFertilizerCost(w: Settings.World): (c: int)
      ensures !Settings.PayForFertilizerOf(w) ==> c == 0
      ensures Settings.PayForFertilizerOf(w) ==>
        c == IPlantData.DocumentedFertilizerCost(TotalFertilizerNeeded(w), Settings.FertilizerOf(w))
    {
      P.FertilizerCost(Settings.PayForFertilizerOf(w), Settings.FertilizerOf(w), TotalFertilizerNeeded(w))
    }

    function TotalFertilzerCostPerDay(w: Settings.World): (d: Numeric.Double)
      ensures d == P.PerDay(TotalFertilizerCost(w) as real, P.AvailableDays(Seasons, Settings.SeasonOf(w), Settings.DayOf(w)))
    {
      P.PerDay(TotalFertilizerCost(w) as real, P.AvailableDays(Seasons, Settings.SeasonOf(w), Settings.DayOf(w)))
    }

    /** One sapling whenever there are days left; else the harvests, which are then 1 on the last day and 0 after it. */
    function TotalSeedsNeeded(w: Settings.World): (n: int)
      ensures var avail := P.AvailableDays(Seasons, Settings.SeasonOf(w), Settings.DayOf(w));
        && (avail > 0 ==> n == 1)
        && (avail < 0 ==> n == 0)
        && (avail <= 0 ==> n == TotalHarvestsWithRemainingDays(Settings.SeasonOf(w), Settings.DayOf(w)))
    {
      var season, day := Settings.SeasonOf(w), Settings.DayOf(w);
      P.SeedsNeeded(RegrowDays, P.AvailableDays(Seasons, season, day), TotalHarvestsWithRemainingDays(season, day))
    }

    function TotalSeedsCost(w: Settings.World): (c: int)
      ensures !Settings.PayForSeedsOf(w) ==> c == 0
      ensures Settings.PayForSeedsOf(w) ==> c == TotalSeedsNeeded(w) * SeedPrice(w)
    {
      P.SeedsCost(Settings.PayForSeedsOf(w), TotalSeedsNeeded(w), SeedPrice(w))
    }

    function TotalSeedsCostPerDay(w: Settings.World): (d: Numeric.Double)
      ensures d == P.PerDay(TotalSeedsCost(w) as real, P.AvailableDays(Seasons, Settings.SeasonOf(w), Settings.DayOf(w)))
    {
      P.PerDay(TotalSeedsCost(w) as real, P.AvailableDays(Seasons, Settings.SeasonOf(w), Settings.DayOf(w)))
    }
  }
}
