/**
 * CropData: a crop built from the game's crop asset. It implements the
 * plant interface on its own (it is not a PlantData) and differs from the
 * base class in its growth speed (fertilizer, paddy and agriculturist
 * bonuses) and in falling back to the default price multipliers when no
 * calculator is registered.
 */
module CropData {
  import opened Wrappers
  import Numeric
  import Utils
  import Game
  import Seqs
  import Settings
  import IPlantData
  import D = DropInformation
  import P = PlantData

  /**
   * The quality chances with a registered calculator's fertilizer and
   * farming level, or with no fertilizer and level 0 without one; for
   * levels 0..10 and at most deluxe fertilizer they form a distribution.
   */
  function QualityChancesIn(w: Settings.World): (c: P.Chances)
    ensures c == P.QualityChances(Settings.FertilizerOf(w), Settings.FarmingLevelOf(w))
    ensures 0 <= Settings.FarmingLevelOf(w) <= 10 && Settings.FertilizerOf(w) <= Utils.Deluxe ==> c.IsDistribution()
    ensures P.IsDeluxe(Settings.FertilizerOf(w)) ==> c.normal == 0.0
    ensures !P.IsDeluxe(Settings.FertilizerOf(w)) ==> c.iridium == 0.0
  {
    var fq, fl := Settings.FertilizerOf(w), Settings.FarmingLevelOf(w);
    if 0 <= fl <= 10 && fq <= Utils.Deluxe then
      P.BaseGoldInGameRange(fq, fl);
      P.ChancesAreDistribution(fq, fl);
      P.QualityChances(fq, fl)
    else P.QualityChances(fq, fl)
  }

  class CropData {
    const Days: int
    const RegrowDays: int
    const MinHarvests: int
    const MaxHarvests: int
    const MaxHarvestIncreasePerFarmingLevel: real
    const ChanceForExtraCrops: real
    const DisplayName: string
    const IsPaddyCrop: bool
    const Seasons: seq<Game.Season>
    const Seed: Game.Item
    const AffectByQuality: bool
    const AffectByFertilizer: bool
    const DropInformation: D.DropInformation

    /**
     * What the constructor sets from its arguments: Days is the sum of the
     * phase lengths, MaxHarvests is copied from HarvestMinStack (not
     * HarvestMaxStack) and the display name is the first drop's.
     */
    predicate Built(record: Game.CropRecord, seed: Game.Item, dropInformation: D.DropInformation,
                    affectedByQuality: bool, affectedByFertilizer: bool)
      reads dropInformation
    {
      && Days == Seqs.Sum(record.daysInPhase) && RegrowDays == record.regrowDays
      && MinHarvests == record.harvestMinStack && MaxHarvests == record.harvestMinStack
      && MaxHarvestIncreasePerFarmingLevel == record.harvestMaxIncreasePerFarmingLevel
      && ChanceForExtraCrops == record.extraHarvestChance && IsPaddyCrop == record.isPaddyCrop
      && Seasons == record.seasons && Seed == seed && AffectByQuality == affectedByQuality
      && AffectByFertilizer == affectedByFertilizer && DropInformation == dropInformation
      && |dropInformation.Drops| > 0 && DisplayName == dropInformation.Drops[0].item.DisplayName
    }

    constructor Init(record: Game.CropRecord, seed: Game.Item, dropInformation: D.DropInformation,
                     affectedByQuality: bool, affectedByFertilizer: bool)
      requires |dropInformation.Drops| > 0
      ensures Built(record, seed, dropInformation, affectedByQuality, affectedByFertilizer)
    {
      Days := Seqs.Sum(record.daysInPhase);
      RegrowDays := record.regrowDays;
      MinHarvests := record.harvestMinStack;
      MaxHarvests := record.harvestMinStack;
      MaxHarvestIncreasePerFarmingLevel := record.harvestMaxIncreasePerFarmingLevel;
      ChanceForExtraCrops := record.extraHarvestChance;
      DisplayName := dropInformation.Drops[0].item.DisplayName;
      IsPaddyCrop := record.isPaddyCrop;
      Seasons := record.seasons;
      Seed := seed;
      AffectByQuality := affectedByQuality;
      AffectByFertilizer := affectedByFertilizer;
      DropInformation := dropInformation;
    }

    /** The constructor, whose read of the first drop throws ArgumentOutOfRange for an empty table. */
    static method New(record: Game.CropRecord, seed: Game.Item, dropInformation: D.DropInformation,
                      affectedByQuality: bool, affectedByFertilizer: bool) returns (r: Result<CropData>)
      ensures r.Ok? <==> |dropInformation.Drops| > 0
      ensures r.Throws? ==> r.error == ArgumentOutOfRange
      ensures r.Ok? ==> fresh(r.value) && r.value.Built(record, seed, dropInformation, affectedByQuality, affectedByFertilizer)
    {
      if |dropInformation.Drops| == 0 {
        return Throws(ArgumentOutOfRange);
      }
      var crop := new CropData.Init(record, seed, dropInformation, affectedByQuality, affectedByFertilizer);
      return Ok(crop);
    }

    /** SeedPrice: the registered shop accessor's cheapest price for the seed, or 0. */
    function SeedPrice(w: Settings.World): (p: int)
      ensures p == w.seedPrice(Seed.QualifiedItemId)
    {
      w.seedPrice(Seed.QualifiedItemId)
    }

    /** Price: the table's average price, rounded half to even. */
    function Price(season: int): (p: int)
      reads DropInformation
      ensures Numeric.AbsReal(p as real - D.AveragePrice(DropInformation.Drops, season)) <= 0.5
    {
      Numeric.RoundHalfEven(D.AveragePrice(DropInformation.Drops, season))
    }

    /**
     * The growth speed with the paddy bonus. A crop the fertilizer does not
     * affect gets speed 1 or more, so it is always ready after one day.
     */
    function GetAverageGrowthSpeedValueForCrop(fertilizerQuality: int, w: Settings.World): (speed: real)
      ensures speed == P.GrowthSpeed(AffectByFertilizer, fertilizerQuality, IsPaddyCrop, w.player.agriculturist)
      ensures !AffectByFertilizer && Days >= 0 ==> P.GrowingDays(Days, speed) == 1
    {
      var speed := P.GrowthSpeed(AffectByFertilizer, fertilizerQuality, IsPaddyCrop, w.player.agriculturist);
      if !AffectByFertilizer && Days >= 0 then
        P.GrowingDaysAtFullSpeed(Days, speed);
        speed
      else speed
    }

    function IsAvailableForCurrentSeason(currentSeason: int): (b: bool)
      ensures b <==> exists k :: 0 <= k < |Seasons| && Game.Ordinal(Seasons[k]) == currentSeason
    {
      P.IsAvailable(Seasons, currentSeason)
    }

    method TotalAvailableDays(currentSeason: int, day: int) returns (total: int)
      ensures total == P.AvailableDays(Seasons, currentSeason, day)
    {
      total := P.CountAvailableDays(Seasons, currentSeason, day);
    }

    /** The growing days for a fertilizer: max(Days − ceil(Days × speed), 1). */
    function GrowingDays(fertilizerQuality: int, w: Settings.World): (g: int)
      ensures g >= 1
      ensures !AffectByFertilizer && Days >= 0 ==> g == 1
    {
      P.GrowingDays(Days, GetAverageGrowthSpeedValueForCrop(fertilizerQuality, w))
    }

    /**
     * The harvests in the days left. A crop the fertilizer does not affect
     * and that does not regrow is harvested every available day.
     */
    function TotalHarvestsWithRemainingDays(currentSeason: int, fertilizerQuality: int, day: int, w: Settings.World): (h: int)
      ensures h == P.Harvests(IsAvailableForCurrentSeason(currentSeason) || currentSeason == Utils.Greenhouse,
                              P.AvailableDays(Seasons, currentSeason, day), GrowingDays(fertilizerQuality, w), RegrowDays)
      ensures !AffectByFertilizer && Days >= 0 && RegrowDays <= 0
              && (IsAvailableForCurrentSeason(currentSeason) || currentSeason == Utils.Greenhouse)
              && P.AvailableDays(Seasons, currentSeason, day) >= 1
        ==> h == P.AvailableDays(Seasons, currentSeason, day)
    {
      var mayGrow := IsAvailableForCurrentSeason(currentSeason) || currentSeason == Utils.Greenhouse;
      var available := P.AvailableDays(Seasons, currentSeason, day);
      var growing := GrowingDays(fertilizerQuality, w);
      if mayGrow && available >= growing && RegrowDays <= 0 then
        P.HarvestsFitOnce(available, growing, RegrowDays);
        P.Harvests(mayGrow, available, growing, RegrowDays)
      else P.Harvests(mayGrow, available, growing, RegrowDays)
    }

    /**
     * The extra crops for the player's level. The constructor makes Min and
     * Max equal, so without a level bonus the count is MinHarvests.
     */
    function ExtraCropsFromFarmingLevel(w: Settings.World): (n: int)
      ensures !(MinHarvests > 1 || MaxHarvests > 1) ==> n == MinHarvests
      ensures MinHarvests >= 0 && MaxHarvests == MinHarvests && MaxHarvestIncreasePerFarmingLevel <= 0.0 ==> n == MinHarvests
    {
      if MinHarvests >= 0 && MaxHarvests == MinHarvests && MaxHarvestIncreasePerFarmingLevel <= 0.0 then
        P.ExtraCropsBetweenMinAndMax(MinHarvests, MaxHarvests, MaxHarvestIncreasePerFarmingLevel, w.player.farmingLevel);
        P.ExtraCrops(MinHarvests, MaxHarvests, MaxHarvestIncreasePerFarmingLevel, w.player.farmingLevel)
      else P.ExtraCrops(MinHarvests, MaxHarvests, MaxHarvestIncreasePerFarmingLevel, w.player.farmingLevel)
    }

    function AverageExtraCropsFromRandomness(): (x: real)
      ensures x == ChanceForExtraCrops
    {
      ChanceForExtraCrops
    }

    /**
     * The average value multiplier. Without a registered calculator the
     * default multipliers apply, and the result lies between 1 and 2; with
     * one, its multipliers must have four entries.
     */
    function GetAverageValueMultiplierForCrop(w: Settings.World): (r: Result<real>)
      ensures r.Ok? <==> w.calculator.None? || |w.calculator.value.priceMultipliers| >= 4
      ensures w.calculator.None? ==> 1.0 <= r.value <= 2.0
      ensures w.calculator.None? ==> r == P.ValueMultiplier(QualityChancesIn(w), Some(Settings.DefaultPriceMultipliers))
      ensures w.calculator.Some? ==> r == P.ValueMultiplier(QualityChancesIn(w), Some(w.calculator.value.priceMultipliers))
    {
      if w.calculator.None? then
        P.ValueMultiplierBounds(QualityChancesIn(w));
        P.ValueMultiplier(QualityChancesIn(w), Some(Settings.DefaultPriceMultipliers))
      else P.ValueMultiplier(QualityChancesIn(w), Some(w.calculator.value.priceMultipliers))
    }

    function GetAverageValueForCropAfterModifiers(w: Settings.World): (r: Result<real>)
      ensures r.Ok? <==> GetAverageValueMultiplierForCrop(w).Ok?
      ensures r.Ok? ==> r.value == P.AfterModifiers(GetAverageValueMultiplierForCrop(w).value, Settings.TillerBonus(w))
    {
      var m :- GetAverageValueMultiplierForCrop(w);
      Ok(P.AfterModifiers(m, Settings.TillerBonus(w)))
    }

    /**
     * TotalCropProfit: the shared profit formula with this crop's price,
     * quality value, extra crops and harvests. It throws only for a crop
     * that uses the quality value when the registered multipliers are too few.
     */
    function TotalCropProfit(w: Settings.World): (r: Result<real>)
      reads DropInformation
      ensures r.Ok? <==> AffectByQuality || w.calculator.None? || |w.calculator.value.priceMultipliers| >= 4
      ensures r.Ok? && TotalHarvestsWithRemainingDays(Settings.SeasonOf(w), Settings.FertilizerOf(w), Settings.DayOf(w), w) == 0
        ==> r.value == 0.0
      ensures r == P.CropProfit(AffectByQuality, Price(Settings.SeasonOf(w)), GetAverageValueForCropAfterModifiers(w),
                                MinHarvests, ChanceForExtraCrops, Settings.TillerBonus(w),
                                TotalHarvestsWithRemainingDays(Settings.SeasonOf(w), Settings.FertilizerOf(w), Settings.DayOf(w), w))
    {
      var season := Settings.SeasonOf(w);
      P.CropProfit(AffectByQuality, Price(season), GetAverageValueForCropAfterModifiers(w), MinHarvests,
                   AverageExtraCropsFromRandomness(), Settings.TillerBonus(w),
                   TotalHarvestsWithRemainingDays(season, Settings.FertilizerOf(w), Settings.DayOf(w), w))
    }

    /** 0 for a zero profit, else the profit over the available days. */
    function TotalCropProfitPerDay(w: Settings.World): (r: Result<Numeric.Double>)
      reads DropInformation
      ensures r.Ok? <==> TotalCropProfit(w).Ok?
      ensures r.Ok? ==> r.value == P.PerDay(TotalCropProfit(w).value, P.AvailableDays(Seasons, Settings.SeasonOf(w), Settings.DayOf(w)))
    {
      var profit :- TotalCropProfit(w);
      Ok(P.PerDay(profit, P.AvailableDays(Seasons, Settings.SeasonOf(w), Settings.DayOf(w))))
    }

    function TotalFertilizerNeeded(w: Settings.World): (n: int)
      ensures n == IPlantData.DocumentedFertilizerNeeded(Settings.SeasonOf(w), |Seasons|,
                                                         P.AvailableDays(Seasons, Settings.SeasonOf(w), Settings.DayOf(w)))
    {
      P.FertilizerNeeded(Settings.SeasonOf(w), |Seasons|, P.AvailableDays(Seasons, Settings.SeasonOf(w), Settings.DayOf(w)))
    }

    function TotalFertilizerCost(w: Settings.World): (c: int)
      ensures !Settings.PayForFertilizerOf(w) ==> c == 0
      ensures Settings.PayForFertilizerOf(w) ==>
        c == IPlantData.DocumentedFertilizerCost(TotalFertilizerNeeded(w), Settings.FertilizerOf(w))
    {
      P.FertilizerCost(Settings.PayForFertilizerOf(w), Settings.FertilizerOf(w), TotalFertilizerNeeded(w))
    }

    function TotalFertilzerCostPerDay(w: Settings.World): (d: Numeric.Double)
      ensures d == P.PerDay(TotalFertilizerCost(w) as real, P.AvailableDays(Seasons, Settings.SeasonOf(w), Settings.DayOf(w)))
    {
      P.PerDay(TotalFertilizerCost(w) as real, P.AvailableDays(Seasons, Settings.SeasonOf(w), Settings.DayOf(w)))
    }

    /** As documented, except that a regrowing crop with no days left needs no seed. */
    function TotalSeedsNeeded(w: Settings.World): (n: int)
      ensures var avail := P.AvailableDays(Seasons, Settings.SeasonOf(w), Settings.DayOf(w));
        var h := TotalHarvestsWithRemainingDays(Settings.SeasonOf(w), Settings.FertilizerOf(w), Settings.DayOf(w), w);
        n == if RegrowDays > 0 && avail <= 0 then 0 else IPlantData.DocumentedSeedsNeeded(RegrowDays, h)
    {
      var season, day, fq := Settings.SeasonOf(w), Settings.DayOf(w), Settings.FertilizerOf(w);
      P.SeedsNeededAsDocumented(IsAvailableForCurrentSeason(season) || season == Utils.Greenhouse,
                                P.AvailableDays(Seasons, season, day), GrowingDays(fq, w), RegrowDays);
      P.SeedsNeeded(RegrowDays, P.AvailableDays(Seasons, season, day), TotalHarvestsWithRemainingDays(season, fq, day, w))
    }

    function TotalSeedsCost(w: Settings.World): (c: int)
      ensures !Settings.PayForSeedsOf(w) ==> c == 0
      ensures Settings.PayForSeedsOf(w) ==> c == TotalSeedsNeeded(w) * SeedPrice(w)
    {
      P.SeedsCost(Settings.PayForSeedsOf(w), TotalSeedsNeeded(w), SeedPrice(w))
    }

    function TotalSeedsCostPerDay(w: Settings.World): (d: Numeric.Double)
      ensures d == P.PerDay(TotalSeedsCost(w) as real, P.AvailableDays(Seasons, Settings.SeasonOf(w), Settings.DayOf(w)))
    {
      P.PerDay(TotalSeedsCost(w) as real, P.AvailableDays(Seasons, Settings.SeasonOf(w), Settings.DayOf(w)))
    }
  }
}
