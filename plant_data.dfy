/**
 * The crop-economics formulas the plant classes share, and the abstract
 * base class PlantData that the calculator's registry holds.
 *
 * Every plant class computes its available days, growing days, harvests,
 * fertilizer and seed needs, costs, per-day figures, quality chances and
 * profit the same way, up to a few class-specific inputs (growth speed,
 * price, whether a calculator must be registered). The formulas are defined
 * here once, with their properties; each class feeds them its own inputs.
 */
module PlantData {
  import opened Wrappers
  import Numeric
  import Utils
  import Game
  import Settings
  import IPlantData
  import D = DropInformation
  import BushDrops

  // ---------------------------------------------------------------------
  // Available days

  /**
   * IsAvailableForCurrentSeason: the UtilsSeason, cast to a game season, is
   * one of the crop's seasons. Greenhouse and any other number outside 0..3
   * name no game season the list can hold.
   */
  function IsAvailable(seasons: seq<Game.Season>, season: int): (b: bool)
    ensures b <==> exists k :: 0 <= k < |seasons| && Game.Ordinal(seasons[k]) == season
  {
    var s := Game.SeasonOfOrdinal(season);
    if s.Some? then
      assert forall k :: 0 <= k < |seasons| ==> (seasons[k] == s.value <==> Game.Ordinal(seasons[k]) == season);
      s.value in seasons
    else false
  }

  /** The days a plant has left from `day` of the season: the whole year in the greenhouse. */
  function AvailableDays(seasons: seq<Game.Season>, season: int, day: int): (d: int)
    ensures season == Utils.Greenhouse ==> d == Utils.GetSeasonDays(Utils.Greenhouse)
    ensures season != Utils.Greenhouse && !IsAvailable(seasons, season) ==> d == 0
    ensures season != Utils.Greenhouse && IsAvailable(seasons, season) ==>
      d >= IPlantData.TotalAvailableDaysInCurrentSeason(day) && (d - IPlantData.TotalAvailableDaysInCurrentSeason(day)) % 28 == 0
  {
    if season == Utils.Greenhouse then 28 * 4
    else if IsAvailable(seasons, season) then
      28 * Numeric.Max(0, |seasons| - season - 1) + IPlantData.TotalAvailableDaysInCurrentSeason(day)
    else 0
  }

  /**
   * TotalAvailableDays: for an available season, 28 days for each list
   * position after the season's number, plus the rest of the current
   * season; then the greenhouse overrides with 4 × 28.
   */
  method CountAvailableDays(seasons: seq<Game.Season>, currentSeason: int, day: int) returns (total: int)
    ensures total == AvailableDays(seasons, currentSeason, day)
  {
    total := 0;
    if IsAvailable(seasons, currentSeason) {
      var seasonIndex := currentSeason;
      var i := seasonIndex + 1;
      while i < |seasons|
        invariant seasonIndex + 1 <= i <= Numeric.Max(seasonIndex + 1, |seasons|)
        invariant total == 28 * (i - seasonIndex - 1)
      {
        total := total + 28;
        i := i + 1;
      }
      total := total + IPlantData.TotalAvailableDaysInCurrentSeason(day);
    }
    if currentSeason == Utils.Greenhouse {
      total := 28 * 4;
    }
  }

  /**
   * The count goes by list positions, not by the seasons that follow: a
   * Summer–Fall crop in Summer has only the rest of Summer, since Summer's
   * number (1) is already the last position of its two-entry list.
   */
  lemma AvailableDaysCountsPositions(day: int)
    ensures AvailableDays([Game.Summer, Game.Fall], Utils.Summer, day) == 28 - day
    ensures AvailableDays([Game.Spring, Game.Summer], Utils.Spring, day) == 56 - day
  {
    assert Game.Ordinal([Game.Summer, Game.Fall][0]) == Utils.Summer;
    assert Game.Ordinal([Game.Spring, Game.Summer][0]) == Utils.Spring;
  }

  /** A crop of at most four seasons, on a day of the season, has between 0 and 112 days left. */
  lemma AvailableDaysBounds(seasons: seq<Game.Season>, season: int, day: int)
    requires |seasons| <= 4 && 0 <= day <= 28
    ensures 0 <= AvailableDays(seasons, season, day) <= 112
  {
    if season != Utils.Greenhouse && IsAvailable(seasons, season) {
      var k :| 0 <= k < |seasons| && Game.Ordinal(seasons[k]) == season;
    }
  }

  // ---------------------------------------------------------------------
  // Growth

  /**
   * The growth speed of CropData and CropDataExpanded: 1.0 for a crop the
   * fertilizer does not affect, else the speed fertilizer's bonus; then the
   * paddy and agriculturist bonuses.
   */
  function GrowthSpeed(affectByFertilizer: bool, fertilizerQuality: int, paddy: bool, agriculturist: bool): (speed: real)
    ensures !affectByFertilizer ==> speed >= 1.0
    ensures affectByFertilizer && fertilizerQuality >= 0 ==>
      speed == (if paddy then 0.25 else 0.0) + (if agriculturist then 0.1 else 0.0)
    ensures 0.0 <= speed <= 1.35
  {
    var fertilizer :=
      if !affectByFertilizer then 1.0
      else if fertilizerQuality == Utils.SpeedGro then 0.1
      else if fertilizerQuality == Utils.DeluxeSpeedGro then 0.25
      else if fertilizerQuality == Utils.HyperSpeedGro then 0.33
      else 0.0;
    var withPaddy := if paddy then fertilizer + 0.25 else fertilizer;
    if agriculturist then withPaddy + 0.1 else withPaddy
  }

  /** The days to the first harvest: Days less ceil(Days × speed), but at least one. */
  function GrowingDays(days: int, speed: real): (g: int)
    ensures g >= 1
    ensures g >= days - Numeric.Ceiling(days as real * speed)
    ensures g > 1 ==> g == days - Numeric.Ceiling(days as real * speed)
  {
    Numeric.Max(days - Numeric.Ceiling(days as real * speed), 1)
  }

  /** With no speed bonus a plant grows in Days days, or one day when Days is not positive. */
  lemma GrowingDaysWithoutSpeed(days: int)
    ensures GrowingDays(days, 0.0) == Numeric.Max(days, 1)
  {
    assert Numeric.Ceiling(days as real * 0.0) == 0;
  }

  /** A speed of 1 or more removes every growing day: the first harvest comes after one day. */
  lemma GrowingDaysAtFullSpeed(days: nat, speed: real)
    requires speed >= 1.0
    ensures GrowingDays(days, speed) == 1
  {
    assert days as real * speed >= days as real * 1.0;
  }

  /**
   * TotalHarvestsWithRemainingDays, given whether the plant may grow now
   * (in one of its seasons or in the greenhouse): none when it may not or
   * when it cannot ripen in time; else one harvest and one per regrowth
   * period left, or, for a plant that does not regrow, one per growing period.
   */
  function Harvests(mayGrow: bool, availableDays: int, growingDays: int, regrowDays: int): (h: int)
    requires growingDays >= 1
    ensures h >= 0
    ensures !mayGrow || availableDays < growingDays ==> h == 0
    ensures mayGrow && availableDays >= growingDays ==> h >= 1
  {
    if !mayGrow then 0
    else if availableDays < growingDays then 0
    else if regrowDays > 0 then
      Numeric.TruncateShift(1, (availableDays - growingDays) as real / regrowDays as real);
      Numeric.Truncate(1.0 + (availableDays - growingDays) as real / regrowDays as real)
    else Numeric.CDiv(availableDays, growingDays)
  }

  /**
   * The harvest count of a regrowing plant is the number of harvests that
   * fit: the h-th harvest falls on day growing + (h − 1) × regrow, and one
   * more would not fit.
   */
  lemma {:induction false} HarvestsFitRegrowing(availableDays: int, growingDays: int, regrowDays: int)
    requires growingDays >= 1 && availableDays >= growingDays && regrowDays > 0
    ensures var h := Harvests(true, availableDays, growingDays, regrowDays);
      growingDays + (h - 1) * regrowDays <= availableDays < growingDays + h * regrowDays
  {
    var h := Harvests(true, availableDays, growingDays, regrowDays);
    var a := availableDays - growingDays;
    Numeric.TruncateShift(1, a as real / regrowDays as real);
    Numeric.TruncateQuotient(a, regrowDays);
    var q, m := a / regrowDays, a % regrowDays;
    assert h == 1 + q;
    assert a == q * regrowDays + m && 0 <= m < regrowDays;
    assert (h - 1) * regrowDays == q * regrowDays;
    assert h * regrowDays == q * regrowDays + regrowDays;
  }

  /** A plant that does not regrow fits h whole growing periods into its days, and not h + 1. */
  lemma {:induction false} HarvestsFitOnce(availableDays: int, growingDays: int, regrowDays: int)
    requires growingDays >= 1 && availableDays >= growingDays && regrowDays <= 0
    ensures var h := Harvests(true, availableDays, growingDays, regrowDays);
      h * growingDays <= availableDays < (h + 1) * growingDays
  {
    var h := Harvests(true, availableDays, growingDays, regrowDays);
    var q, m := availableDays / growingDays, availableDays % growingDays;
    assert h == q;
    assert availableDays == q * growingDays + m && 0 <= m < growingDays;
    assert (h + 1) * growingDays == q * growingDays + growingDays;
  }

  /** ExtraCropsFromFarmingLevel: MinHarvests, or the truncated mean of Min, Max and the level bonus when either exceeds 1. */
  function ExtraCrops(minHarvests: int, maxHarvests: int, increasePerLevel: real, farmingLevel: int): (n: int)
    ensures !(minHarvests > 1 || maxHarvests > 1) ==> n == minHarvests
  {
    if minHarvests > 1 || maxHarvests > 1 then
      var increase := if increasePerLevel > 0.0 then Numeric.Truncate(farmingLevel as real / increasePerLevel) else 0;
      Numeric.Truncate((minHarvests + maxHarvests + increase) as real / 2.0)
    else minHarvests
  }

  /** Without a level bonus, the extra-crop count lies between MinHarvests and MaxHarvests. */
  lemma ExtraCropsBetweenMinAndMax(minHarvests: nat, maxHarvests: int, increasePerLevel: real, farmingLevel: int)
    requires minHarvests <= maxHarvests && increasePerLevel <= 0.0
    ensures minHarvests <= ExtraCrops(minHarvests, maxHarvests, increasePerLevel, farmingLevel) <= maxHarvests
  {
    if minHarvests > 1 || maxHarvests > 1 {
      Numeric.TruncateQuotient(minHarvests + maxHarvests, 2);
      assert (minHarvests + maxHarvests) as real / 2.0 == (minHarvests + maxHarvests) as real / 2 as real;
    }
  }

  // ---------------------------------------------------------------------
  // Costs and per-day figures

  /** TotalFertilizerNeeded: one bag in the greenhouse or for a one-season plant, else one per 28 available days, rounded up. */
  function FertilizerNeeded(season: int, seasonCount: int, availableDays: int): (n: int)
    ensures season == Utils.Greenhouse || seasonCount == 1 ==> n == 1
    ensures !(season == Utils.Greenhouse || seasonCount == 1) ==> 28 * (n - 1) < availableDays <= 28 * n
    ensures n == IPlantData.DocumentedFertilizerNeeded(season, seasonCount, availableDays)
  {
    if season == Utils.Greenhouse || seasonCount == 1 then 1
    else
      var n := Numeric.Ceiling(availableDays as real / 28.0);
      assert (28 * (n - 1)) as real == 28.0 * (n - 1) as real;
      assert (28 * n) as real == 28.0 * n as real;
      n
  }

  /** TotalFertilizerCost: nothing unless the player pays for fertilizer, else the documented bags × bag price. */
  function FertilizerCost(payForFertilizer: bool, fertilizerQuality: int, needed: int): (c: int)
    ensures !payForFertilizer ==> c == 0
    ensures payForFertilizer ==> c == IPlantData.DocumentedFertilizerCost(needed, fertilizerQuality)
    ensures needed >= 0 ==> c >= 0
  {
    if !payForFertilizer then 0 else needed * Utils.FertilizerPrices(fertilizerQuality)
  }

  /** TotalSeedsNeeded: one seed for a regrowing plant with days left, else one per harvest. */
  function SeedsNeeded(regrowDays: int, availableDays: int, harvests: int): (n: int)
    ensures regrowDays > 0 && availableDays > 0 ==> n == 1
  {
    if regrowDays > 0 && availableDays > 0 then 1 else harvests
  }

  /**
   * Seeds needed agree with the documentation (one for a regrowing plant,
   * else one per harvest) except for a regrowing plant with no days left,
   * which needs none because it has no harvest.
   */
  lemma SeedsNeededAsDocumented(mayGrow: bool, availableDays: int, growingDays: int, regrowDays: int)
    requires growingDays >= 1
    ensures var h := Harvests(mayGrow, availableDays, growingDays, regrowDays);
      SeedsNeeded(regrowDays, availableDays, h)
        == if regrowDays > 0 && availableDays <= 0 then 0 else IPlantData.DocumentedSeedsNeeded(regrowDays, h)
  {
  }

  /** TotalSeedsCost: nothing unless the player pays for seeds, else seeds × seed price. */
  function SeedsCost(payForSeeds: bool, needed: int, seedPrice: int): (c: int)
    ensures !payForSeeds ==> c == 0
    ensures payForSeeds && needed >= 0 && seedPrice >= 0 ==> c >= 0
    ensures payForSeeds && needed == 1 ==> c == seedPrice
  {
    if !payForSeeds then 0 else needed * seedPrice
  }

  /**
   * The per-day figures: 0 for a zero amount, else the amount over the
   * available days in double arithmetic, which gives an infinity when there
   * are no days.
   */
  function PerDay(amount: real, days: int): (d: Numeric.Double)
    ensures amount == 0.0 ==> d == Numeric.Num(0.0)
    ensures amount != 0.0 && days != 0 ==> d == Numeric.Num(IPlantData.DocumentedPerDay(amount, days))
    ensures amount != 0.0 && days == 0 ==> d == (if amount > 0.0 then Numeric.PositiveInfinity else Numeric.NegativeInfinity)
  {
    if amount == 0.0 then Numeric.Num(0.0) else Numeric.DivDays(amount, days)
  }

  /** Wherever the per-day figure is finite and there are days, it times the days gives back the amount. */
  lemma PerDayTimesDays(amount: real, days: int)
    requires days != 0
    ensures PerDay(amount, days).Num? && PerDay(amount, days).r * days as real == amount
  {
  }

  // ---------------------------------------------------------------------
  // Quality

  /** The default limit of GetCropBaseGoldQualityChance. */
  const NoLimit: real := 9999999999.0

  /** The fertilizer's quality level: a quality fertilizer's value, 0 for a speed fertilizer or none. */
  function QualityLevel(fertilizerQuality: int): (q: int)
    ensures q >= 0 && q >= fertilizerQuality
  {
    if fertilizerQuality > 0 then fertilizerQuality else 0
  }

  /** GetCropBaseGoldQualityChance: 0.2 × level/10 + 0.01 + 0.2 × quality level × (level + 2)/12, capped at the limit. */
  function BaseGoldChance(fertilizerQuality: int, farmingLevel: int, limit: real): (c: real)
    ensures c <= limit
  {
    var part1 := 0.2 * (farmingLevel as real / 10.0) + 0.01;
    var part2 := 0.2 * (QualityLevel(fertilizerQuality) as real * ((farmingLevel + 2) as real / 12.0));
    if limit <= part1 + part2 then limit else part1 + part2
  }

  /** Deluxe fertilizer or better (FertilizerQuality ≥ Deluxe; an absent calculator compares as false). */
  predicate IsDeluxe(fertilizerQuality: int)
  {
    fertilizerQuality >= Utils.Deluxe
  }

  /** GetCropIridiumQualityChance: half the base gold chance with deluxe fertilizer, else 0. */
  function IridiumChance(fertilizerQuality: int, farmingLevel: int): real
  {
    if IsDeluxe(fertilizerQuality) then BaseGoldChance(fertilizerQuality, farmingLevel, NoLimit) / 2.0 else 0.0
  }

  /** GetCropGoldQualityChance: the base gold chance capped at 1, of what iridium leaves. */
  function GoldChance(fertilizerQuality: int, farmingLevel: int): real
  {
    BaseGoldChance(fertilizerQuality, farmingLevel, 1.0) * (1.0 - IridiumChance(fertilizerQuality, farmingLevel))
  }

  /** GetCropSilverQualityChance: the rest with deluxe fertilizer; else (1 − iridium)(1 − base gold) min(0.75, 2 × base gold). */
  function SilverChance(fertilizerQuality: int, farmingLevel: int): real
  {
    var iridium := IridiumChance(fertilizerQuality, farmingLevel);
    if IsDeluxe(fertilizerQuality) then 1.0 - (iridium + GoldChance(fertilizerQuality, farmingLevel))
    else
      var baseGold := BaseGoldChance(fertilizerQuality, farmingLevel, NoLimit);
      (1.0 - iridium) * (1.0 - baseGold) * (if 0.75 <= 2.0 * baseGold then 0.75 else 2.0 * baseGold)
  }

  /** GetCropBaseQualityChance: 0 with deluxe fertilizer, else what the other three leave, but not below 0. */
  function NormalChance(fertilizerQuality: int, farmingLevel: int): real
  {
    if IsDeluxe(fertilizerQuality) then 0.0
    else
      var rest := 1.0 - (IridiumChance(fertilizerQuality, farmingLevel) + GoldChance(fertilizerQuality, farmingLevel)
                         + SilverChance(fertilizerQuality, farmingLevel));
      if 0.0 >= rest then 0.0 else rest
  }

  /** The four quality chances of one harvest. */
  datatype Chances = Chances(normal: real, silver: real, gold: real, iridium: real)
  {
    function Total(): real { normal + silver + gold + iridium }

    predicate IsDistribution()
    {
      0.0 <= normal <= 1.0 && 0.0 <= silver <= 1.0 && 0.0 <= gold <= 1.0 && 0.0 <= iridium <= 1.0 && Total() == 1.0
    }
  }

  function QualityChances(fertilizerQuality: int, farmingLevel: int): Chances
  {
    Chances(NormalChance(fertilizerQuality, farmingLevel), SilverChance(fertilizerQuality, farmingLevel),
            GoldChance(fertilizerQuality, farmingLevel), IridiumChance(fertilizerQuality, farmingLevel))
  }

  /** With deluxe fertilizer, normal quality never happens and the four chances sum to exactly 1. */
  lemma DeluxeChancesSumToOne(fertilizerQuality: int, farmingLevel: int)
    requires IsDeluxe(fertilizerQuality)
    ensures QualityChances(fertilizerQuality, farmingLevel).normal == 0.0
    ensures QualityChances(fertilizerQuality, farmingLevel).Total() == 1.0
  {
  }

  /** Without deluxe fertilizer there is no iridium quality. */
  lemma NoIridiumWithoutDeluxe(fertilizerQuality: int, farmingLevel: int)
    requires !IsDeluxe(fertilizerQuality)
    ensures QualityChances(fertilizerQuality, farmingLevel).iridium == 0.0
    ensures QualityChances(fertilizerQuality, farmingLevel).gold == BaseGoldChance(fertilizerQuality, farmingLevel, 1.0)
  {
  }

  /** For farming levels 0..10 and any fertilizer, the base gold chance lies in [0.01, 0.81]. */
  lemma BaseGoldInGameRange(fertilizerQuality: int, farmingLevel: int)
    requires 0 <= farmingLevel <= 10 && fertilizerQuality <= Utils.Deluxe
    ensures 0.01 <= BaseGoldChance(fertilizerQuality, farmingLevel, NoLimit) <= 0.81
  {
    var q := QualityLevel(fertilizerQuality);
    assert 0 <= q <= 3;
    Numeric.MulMonotone(q as real, (farmingLevel + 2) as real / 12.0, 3.0, 1.0);
    var part1 := 0.2 * (farmingLevel as real / 10.0) + 0.01;
    var part2 := 0.2 * (q as real * ((farmingLevel + 2) as real / 12.0));
    assert 0.01 <= part1 <= 0.21;
    assert 0.0 <= part2 <= 0.6;
    assert BaseGoldChance(fertilizerQuality, farmingLevel, NoLimit) == part1 + part2;
  }

  /** Whenever the base gold chance is a probability, the four chances form a probability distribution. */
  lemma ChancesAreDistribution(fertilizerQuality: int, farmingLevel: int)
    requires 0.0 <= BaseGoldChance(fertilizerQuality, farmingLevel, NoLimit) <= 1.0
    ensures QualityChances(fertilizerQuality, farmingLevel).IsDistribution()
  {
    if IsDeluxe(fertilizerQuality) {
      DeluxeChancesAreDistribution(fertilizerQuality, farmingLevel);
    } else {
      PlainChancesAreDistribution(fertilizerQuality, farmingLevel);
    }
  }

  lemma DeluxeChancesAreDistribution(fertilizerQuality: int, farmingLevel: int)
    requires IsDeluxe(fertilizerQuality) && 0.0 <= BaseGoldChance(fertilizerQuality, farmingLevel, NoLimit) <= 1.0
    ensures QualityChances(fertilizerQuality, farmingLevel).IsDistribution()
  {
    var b := BaseGoldChance(fertilizerQuality, farmingLevel, NoLimit);
    assert BaseGoldChance(fertilizerQuality, farmingLevel, 1.0) == b;
    assert IridiumChance(fertilizerQuality, farmingLevel) == b / 2.0;
    assert GoldChance(fertilizerQuality, farmingLevel) == b * (1.0 - b / 2.0);
    DeluxeShares(b);
  }

  lemma PlainChancesAreDistribution(fertilizerQuality: int, farmingLevel: int)
    requires !IsDeluxe(fertilizerQuality) && 0.0 <= BaseGoldChance(fertilizerQuality, farmingLevel, NoLimit) <= 1.0
    ensures QualityChances(fertilizerQuality, farmingLevel).IsDistribution()
  {
    var b := BaseGoldChance(fertilizerQuality, farmingLevel, NoLimit);
    assert BaseGoldChance(fertilizerQuality, farmingLevel, 1.0) == b;
    var m := if 0.75 <= 2.0 * b then 0.75 else 2.0 * b;
    assert IridiumChance(fertilizerQuality, farmingLevel) == 0.0;
    assert GoldChance(fertilizerQuality, farmingLevel) == b;
    assert SilverChance(fertilizerQuality, farmingLevel) == (1.0 - b) * m;
    PlainShares(b, m);
  }

  /** The deluxe split of a probability b: b/2 iridium, b(1 − b/2) gold and the rest silver. */
  lemma DeluxeShares(b: real)
    requires 0.0 <= b <= 1.0
    ensures Chances(0.0, (1.0 - b) * (1.0 - b / 2.0), b * (1.0 - b / 2.0), b / 2.0).IsDistribution()
  {
    Numeric.MulMonotone(1.0 - b, 1.0 - b / 2.0, 1.0, 1.0);
    Numeric.MulMonotone(b, 1.0 - b / 2.0, 1.0, 1.0);
  }

  /** The plain split of a probability b with a silver factor m in [0, 1]: b gold, (1 − b)m silver, the rest normal. */
  lemma PlainShares(b: real, m: real)
    requires 0.0 <= b <= 1.0 && 0.0 <= m <= 1.0
    ensures Chances(1.0 - (b + (1.0 - b) * m), (1.0 - b) * m, b, 0.0).IsDistribution()
  {
    Numeric.MulMonotone(1.0 - b, m, 1.0 - b, 1.0);
  }

  /**
   * GetAverageValueMultiplierForCrop: Σ chance × multiplier over the four
   * qualities. Without multipliers (no registered calculator in the base
   * class) the first index throws NullReference; with fewer than four the
   * missing one throws IndexOutOfRange.
   */
  function ValueMultiplier(c: Chances, multipliers: Option<seq<real>>): (r: Result<real>)
    ensures multipliers.None? ==> r == Throws(NullReference)
    ensures multipliers.Some? && |multipliers.value| < 4 ==> r == Throws(IndexOutOfRange)
    ensures multipliers.Some? && |multipliers.value| >= 4 ==> r.Ok?
  {
    match multipliers
    case None => Throws(NullReference)
    case Some(m) =>
      if |m| < 4 then Throws(IndexOutOfRange)
      else Ok(0.0 + c.normal * m[0] + c.silver * m[1] + c.gold * m[2] + c.iridium * m[3])
  }

  /** With the default multipliers, a distribution's value multiplier lies between 1 (all normal) and 2 (all iridium). */
  lemma ValueMultiplierBounds(c: Chances)
    requires c.IsDistribution()
    ensures var r := ValueMultiplier(c, Some(Settings.DefaultPriceMultipliers));
      r.Ok? && 1.0 <= r.value <= 2.0
  {
  }

  /** The constant chances of trees and bushes: every harvest is of normal quality. */
  const ConstantChances: Chances := Chances(1.0, 0.0, 0.0, 0.0)

  lemma ConstantChancesAreDistribution()
    ensures ConstantChances.IsDistribution()
  {
  }

  /** Constant chances make the multiplier the first price multiplier. */
  lemma ConstantChancesMultiplier(multipliers: seq<real>)
    requires |multipliers| >= 4
    ensures ValueMultiplier(ConstantChances, Some(multipliers)) == Ok(multipliers[0])
  {
  }

  /** The float 1.1f, widened to double exactly. */
  const TillerFactor: real := 1.10000002384185791015625

  /** Math.Round(x, 2), half to even. */
  function Round2(x: real): (r: real)
    ensures Numeric.AbsReal(r - x) <= 0.005
    ensures (r * 100.0).Floor as real == r * 100.0
  {
    var n := Numeric.RoundHalfEven(x * 100.0);
    WholeCents(x, n);
    n as real / 100.0
  }

  /** A whole number of cents within half a cent of 100x is within 0.005 of x. */
  lemma WholeCents(x: real, n: int)
    requires Numeric.AbsReal(n as real - x * 100.0) <= 0.5
    ensures Numeric.AbsReal(n as real / 100.0 - x) <= 0.005
    ensures (n as real / 100.0 * 100.0).Floor as real == n as real / 100.0 * 100.0
  {
    assert n as real / 100.0 * 100.0 == n as real;
    assert n as real / 100.0 - x == (n as real - x * 100.0) / 100.0;
  }

  /** GetAverageValueForCropAfterModifiers: the multiplier, times 1.1f with the tiller bonus, rounded to cents. */
  function AfterModifiers(multiplier: real, tillerBonus: bool): (r: real)
    ensures Numeric.AbsReal(r - (if tillerBonus then multiplier * TillerFactor else multiplier)) <= 0.005
  {
    Round2(if tillerBonus then multiplier * TillerFactor else multiplier)
  }

  // ---------------------------------------------------------------------
  // Profit

  /**
   * The profit of one harvest. A plant affected by quality counts one
   * unit at the price; any other counts the first unit at the price ×
   * the quality value, then max(Min − 1, 0) more units and the expected
   * extra crops. The tiller bonus multiplies the part after the first unit.
   */
  function ProfitPerHarvest(affectByQuality: bool, price: int, afterModifiers: Result<real>, minHarvests: int,
                            extraCrops: real, tillerBonus: bool): (r: Result<real>)
    ensures affectByQuality ==> r == Ok(if tillerBonus then price as real * TillerFactor else price as real)
    ensures !affectByQuality ==> (r.Ok? <==> afterModifiers.Ok?)
    ensures !affectByQuality && afterModifiers.Ok? ==>
      var later := (Numeric.Max(minHarvests - 1, 0) as real + extraCrops) * price as real;
      r.value == price as real * afterModifiers.value + (if tillerBonus then later * TillerFactor else later)
  {
    if !affectByQuality && afterModifiers.Throws? then Throws(afterModifiers.error)
    else
      var first := if affectByQuality then 0.0 else price as real * afterModifiers.value;
      var remaining :=
        if affectByQuality then price as real
        else (if minHarvests - 1 >= 0 then minHarvests - 1 else 0) as real * price as real + price as real * extraCrops;
      Ok(first + (if tillerBonus then remaining * TillerFactor else remaining))
  }

  /** TotalCropProfit: the profit of one harvest times the harvests. */
  function CropProfit(affectByQuality: bool, price: int, afterModifiers: Result<real>, minHarvests: int,
                      extraCrops: real, tillerBonus: bool, harvests: int): (r: Result<real>)
    ensures r.Ok? <==> ProfitPerHarvest(affectByQuality, price, afterModifiers, minHarvests, extraCrops, tillerBonus).Ok?
    ensures r.Ok? ==> r.value == ProfitPerHarvest(affectByQuality, price, afterModifiers, minHarvests, extraCrops, tillerBonus).value * harvests as real
    ensures r.Ok? && harvests == 0 ==> r.value == 0.0
  {
    var one :- ProfitPerHarvest(affectByQuality, price, afterModifiers, minHarvests, extraCrops, tillerBonus);
    Ok(one * harvests as real)
  }

  /** The tiller bonus never lowers a non-negative profit. */
  lemma TillerNeverLowersProfit(affectByQuality: bool, price: nat, afterModifiers: Result<real>, minHarvests: int,
                                extraCrops: real, harvests: nat)
    requires extraCrops >= 0.0
    requires CropProfit(affectByQuality, price, afterModifiers, minHarvests, extraCrops, false, harvests).Ok?
    ensures CropProfit(affectByQuality, price, afterModifiers, minHarvests, extraCrops, true, harvests).value
         >= CropProfit(affectByQuality, price, afterModifiers, minHarvests, extraCrops, false, harvests).value
  {
    var remaining :=
      if affectByQuality then price as real
      else (if minHarvests - 1 >= 0 then minHarvests - 1 else 0) as real * price as real + price as real * extraCrops;
    assert remaining >= 0.0;
    var gain := remaining * (TillerFactor - 1.0);
    assert gain >= 0.0;
    var p0 := ProfitPerHarvest(affectByQuality, price, afterModifiers, minHarvests, extraCrops, false).value;
    var p1 := ProfitPerHarvest(affectByQuality, price, afterModifiers, minHarvests, extraCrops, true).value;
    var first := if affectByQuality then 0.0 else price as real * afterModifiers.value;
    assert p0 == first + remaining;
    assert p1 == first + remaining * TillerFactor;
    assert p1 - p0 == gain;
    assert (p1 - p0) * harvests as real >= 0.0;
    assert p1 * harvests as real - p0 * harvests as real == (p1 - p0) * harvests as real;
  }

  /**
   * A reference case: a plant not affected by quality, with quality value
   * 1.0, no extra crops and no tiller bonus earns max(Min, 1) units at the
   * price per harvest.
   */
  lemma PlainProfit(price: int, minHarvests: int, harvests: int)
    ensures CropProfit(false, price, Ok(1.0), minHarvests, 0.0, false, harvests)
         == Ok(price as real * Numeric.Max(minHarvests, 1) as real * harvests as real)
  {
    var units := Numeric.Max(minHarvests - 1, 0);
    assert units + 1 == Numeric.Max(minHarvests, 1);
    var one := ProfitPerHarvest(false, price, Ok(1.0), minHarvests, 0.0, false);
    assert one.value == price as real * 1.0 + (units as real + 0.0) * price as real;
    assert one.value == price as real * Numeric.Max(minHarvests, 1) as real;
    var r := CropProfit(false, price, Ok(1.0), minHarvests, 0.0, false, harvests);
    assert r.Ok?;
    assert r.value == one.value * harvests as real;
    assert r.value == price as real * Numeric.Max(minHarvests, 1) as real * harvests as real;
  }

  /** A higher quality value never lowers the profit of a non-negative price over a non-negative number of harvests. */
  lemma ProfitMonotoneInQuality(price: nat, low: real, high: real, minHarvests: int, extraCrops: real,
                                tillerBonus: bool, harvests: nat)
    requires low <= high
    ensures CropProfit(false, price, Ok(low), minHarvests, extraCrops, tillerBonus, harvests).value
         <= CropProfit(false, price, Ok(high), minHarvests, extraCrops, tillerBonus, harvests).value
  {
    var p0 := ProfitPerHarvest(false, price, Ok(low), minHarvests, extraCrops, tillerBonus).value;
    var p1 := ProfitPerHarvest(false, price, Ok(high), minHarvests, extraCrops, tillerBonus).value;
    var later := (Numeric.Max(minHarvests - 1, 0) as real + extraCrops) * price as real;
    var scaled := if tillerBonus then later * TillerFactor else later;
    assert p0 == price as real * low + scaled;
    assert p1 == price as real * high + scaled;
    var gain := price as real * (high - low);
    assert gain >= 0.0;
    assert p1 - p0 == gain;
    assert (p1 - p0) * harvests as real >= 0.0;
    assert p1 * harvests as real - p0 * harvests as real == (p1 - p0) * harvests as real;
  }

  // ---------------------------------------------------------------------
  // The base class

  /**
   * PlantData. Its properties are set by the constructor and nothing in
   * the calculator changes them later, so they are constants here; the
   * drop table is a shared, mutable object. `Bush` is present exactly for a
   * CustomBushData, whose `Price` overrides the base one.
   */
  class PlantData {
    const Days: int
    const RegrowDays: int
    const MinHarvests: int
    const MaxHarvests: int
    const MaxHarvestIncreasePerFarmingLevel: real
    const ChanceForExtraCrops: real
    const DisplayName: string
    const Seasons: seq<Game.Season>
    const Seed: Game.Item
    const AffectByQuality: bool
    const AffectByFertilizer: bool
    const DropInformation: D.DropInformation
    const Bush: Option<BushDrops.BushPart>

    /** The field assignments of the constructor, once it has read the first drop. */
    constructor Init(days: int, regrowDays: int, minHarvests: int, maxHarvests: int, maxHarvestIncreasePerFarmingLevel: real,
                     chanceForExtraCrops: real, displayName: string, seasons: seq<Game.Season>, seed: Game.Item,
                     affectByQuality: bool, affectByFertilizer: bool, dropInformation: D.DropInformation,
                     bush: Option<BushDrops.BushPart>)
      ensures Days == days && RegrowDays == regrowDays && MinHarvests == minHarvests && MaxHarvests == maxHarvests
      ensures MaxHarvestIncreasePerFarmingLevel == maxHarvestIncreasePerFarmingLevel
      ensures ChanceForExtraCrops == chanceForExtraCrops && DisplayName == displayName && Seasons == seasons
      ensures Seed == seed && AffectByQuality == affectByQuality && AffectByFertilizer == affectByFertilizer
      ensures DropInformation == dropInformation && Bush == bush
    {
      Days := days;
      RegrowDays := regrowDays;
      MinHarvests := minHarvests;
      MaxHarvests := maxHarvests;
      MaxHarvestIncreasePerFarmingLevel := maxHarvestIncreasePerFarmingLevel;
      ChanceForExtraCrops := chanceForExtraCrops;
      DisplayName := displayName;
      Seasons := seasons;
      Seed := seed;
      AffectByQuality := affectByQuality;
      AffectByFertilizer := affectByFertilizer;
      DropInformation := dropInformation;
      Bush := bush;
    }

    /**
     * The constructor: it stores its arguments and then reads the table's
     * first drop for the sprite, which throws ArgumentOutOfRange for an
     * empty table.
     */
    static method New(days: int, regrowDays: int, minHarvests: int, maxHarvests: int, maxHarvestIncreasePerFarmingLevel: real,
                      chanceForExtraCrops: real, displayName: string, seasons: seq<Game.Season>, seed: Game.Item,
                      affectByQuality: bool, affectByFertilizer: bool, dropInformation: D.DropInformation,
                      bush: Option<BushDrops.BushPart>)
      returns (r: Result<PlantData>)
      ensures r.Ok? <==> |dropInformation.Drops| > 0
      ensures r.Throws? ==> r.error == ArgumentOutOfRange
      ensures r.Ok? ==> (fresh(r.value) && r.value.Days == days && r.value.RegrowDays == regrowDays
        && r.value.MinHarvests == minHarvests && r.value.MaxHarvests == maxHarvests
        && r.value.MaxHarvestIncreasePerFarmingLevel == maxHarvestIncreasePerFarmingLevel
        && r.value.ChanceForExtraCrops == chanceForExtraCrops && r.value.DisplayName == displayName
        && r.value.Seasons == seasons && r.value.Seed == seed && r.value.AffectByQuality == affectByQuality
        && r.value.AffectByFertilizer == affectByFertilizer && r.value.DropInformation == dropInformation
        && r.value.Bush == bush)
    {
      if |dropInformation.Drops| == 0 {
        return Throws(ArgumentOutOfRange);
      }
      var plant := new PlantData.Init(days, regrowDays, minHarvests, maxHarvests, maxHarvestIncreasePerFarmingLevel,
                                      chanceForExtraCrops, displayName, seasons, seed, affectByQuality,
                                      affectByFertilizer, dropInformation, bush);
      return Ok(plant);
    }

    /** SeedPrice: the registered shop accessor's cheapest price for the seed's qualified id. */
    function SeedPrice(w: Settings.World): (p: int)
      ensures p == w.seedPrice(Seed.QualifiedItemId)
    {
      w.seedPrice(Seed.QualifiedItemId)
    }

    /** Price: the table's average price rounded to an int; a bush's override sums its own drops instead. */
    function Price(w: Settings.World, season: int): (p: int)
      reads DropInformation
      ensures Bush.None? ==> Numeric.AbsReal(p as real - D.AveragePrice(DropInformation.Drops, season)) <= 0.5
      ensures Bush.Some? ==> p == BushDrops.Price(Bush.value.drops, season, w.objectPrice)
    {
      if Bush.Some? then BushDrops.Price(Bush.value.drops, season, w.objectPrice)
      else Numeric.RoundHalfEven(D.AveragePrice(DropInformation.Drops, season))
    }

    /** The base growth speed is 0: no speed bonus of any kind. */
    function GetAverageGrowthSpeedValueForCrop(fertilizerQuality: int): (speed: real)
      ensures GrowingDays(Days, speed) == Numeric.Max(Days, 1)
    {
      GrowingDaysWithoutSpeed(Days);
      0.0
    }

    function IsAvailableForCurrentSeason(currentSeason: int): (b: bool)
      ensures b <==> exists k :: 0 <= k < |Seasons| && Game.Ordinal(Seasons[k]) == currentSeason
    {
      IsAvailable(Seasons, currentSeason)
    }

    method TotalAvailableDays(currentSeason: int, day: int) returns (total: int)
      ensures total == AvailableDays(Seasons, currentSeason, day)
    {
      total := CountAvailableDays(Seasons, currentSeason, day);
    }

    /** The harvests in the base class, whose growing days are max(Days, 1). */
    function TotalHarvestsWithRemainingDays(currentSeason: int, fertilizerQuality: int, day: int): (h: int)
      ensures h == Harvests(IsAvailable(Seasons, currentSeason) || currentSeason == Utils.Greenhouse,
                            AvailableDays(Seasons, currentSeason, day), Numeric.Max(Days, 1), RegrowDays)
    {
      Harvests(IsAvailableForCurrentSeason(currentSeason) || currentSeason == Utils.Greenhouse,
               AvailableDays(Seasons, currentSeason, day),
               GrowingDays(Days, GetAverageGrowthSpeedValueForCrop(fertilizerQuality)), RegrowDays)
    }

    function ExtraCropsFromFarmingLevel(w: Settings.World): (n: int)
      ensures !(MinHarvests > 1 || MaxHarvests > 1) ==> n == MinHarvests
    {
      ExtraCrops(MinHarvests, MaxHarvests, MaxHarvestIncreasePerFarmingLevel, w.player.farmingLevel)
    }

    /** The expected extra crops from randomness are the extra-crop chance itself. */
    function AverageExtraCropsFromRandomness(): (x: real)
      ensures x == ChanceForExtraCrops
    {
      ChanceForExtraCrops
    }

    function QualityChancesFor(w: Settings.World): (c: Chances)
      ensures c == QualityChances(Settings.FertilizerOf(w), Settings.FarmingLevelOf(w))
    {
      QualityChances(Settings.FertilizerOf(w), Settings.FarmingLevelOf(w))
    }

    /** The base class has no default multipliers: without a registered calculator it throws. */
    function GetAverageValueMultiplierForCrop(w: Settings.World): (r: Result<real>)
      ensures w.calculator.None? ==> r == Throws(NullReference)
      ensures w.calculator.Some? ==> r == ValueMultiplier(QualityChancesFor(w), Some(w.calculator.value.priceMultipliers))
    {
      ValueMultiplier(QualityChancesFor(w),
                      if w.calculator.Some? then Some(w.calculator.value.priceMultipliers) else None)
    }

    function GetAverageValueForCropAfterModifiers(w: Settings.World): (r: Result<real>)
      ensures r.Ok? <==> GetAverageValueMultiplierForCrop(w).Ok?
      ensures r.Ok? ==> r.value == AfterModifiers(GetAverageValueMultiplierForCrop(w).value, Settings.TillerBonus(w))
    {
      var m :- GetAverageValueMultiplierForCrop(w);
      Ok(AfterModifiers(m, Settings.TillerBonus(w)))
    }

    function TotalCropProfit(w: Settings.World): (r: Result<real>)
      reads DropInformation
      ensures AffectByQuality ==> r.Ok?
      ensures r == CropProfit(AffectByQuality, Price(w, Settings.SeasonOf(w)), GetAverageValueForCropAfterModifiers(w), MinHarvests,
                              AverageExtraCropsFromRandomness(), Settings.TillerBonus(w),
                              TotalHarvestsWithRemainingDays(Settings.SeasonOf(w), Settings.FertilizerOf(w), Settings.DayOf(w)))
      ensures r.Ok? && TotalHarvestsWithRemainingDays(Settings.SeasonOf(w), Settings.FertilizerOf(w), Settings.DayOf(w)) == 0
        ==> r.value == 0.0
    {
      var season := Settings.SeasonOf(w);
      CropProfit(AffectByQuality, Price(w, season), GetAverageValueForCropAfterModifiers(w), MinHarvests,
                 AverageExtraCropsFromRandomness(), Settings.TillerBonus(w),
                 TotalHarvestsWithRemainingDays(season, Settings.FertilizerOf(w), Settings.DayOf(w)))
    }

    function TotalCropProfitPerDay(w: Settings.World): (r: Result<Numeric.Double>)
      reads DropInformation
      ensures r.Ok? <==> TotalCropProfit(w).Ok?
      ensures r.Ok? ==> r.value == PerDay(TotalCropProfit(w).value, AvailableDays(Seasons, Settings.SeasonOf(w), Settings.DayOf(w)))
    {
      var profit :- TotalCropProfit(w);
      Ok(PerDay(profit, AvailableDays(Seasons, Settings.SeasonOf(w), Settings.DayOf(w))))
    }

    function TotalFertilizerNeeded(w: Settings.World): (n: int)
      ensures n == IPlantData.DocumentedFertilizerNeeded(Settings.SeasonOf(w), |Seasons|,
                                                         AvailableDays(Seasons, Settings.SeasonOf(w), Settings.DayOf(w)))
    {
      FertilizerNeeded(Settings.SeasonOf(w), |Seasons|, AvailableDays(Seasons, Settings.SeasonOf(w), Settings.DayOf(w)))
    }

    function TotalFertilizerCost(w: Settings.World): (c: int)
      ensures !Settings.PayForFertilizerOf(w) ==> c == 0
      ensures Settings.PayForFertilizerOf(w) ==>
        c == IPlantData.DocumentedFertilizerCost(TotalFertilizerNeeded(w), Settings.FertilizerOf(w))
    {
      FertilizerCost(Settings.PayForFertilizerOf(w), Settings.FertilizerOf(w), TotalFertilizerNeeded(w))
    }

    function TotalFertilzerCostPerDay(w: Settings.World): (d: Numeric.Double)
      ensures d == PerDay(TotalFertilizerCost(w) as real, AvailableDays(Seasons, Settings.SeasonOf(w), Settings.DayOf(w)))
    {
      PerDay(TotalFertilizerCost(w) as real, AvailableDays(Seasons, Settings.SeasonOf(w), Settings.DayOf(w)))
    }

    function TotalSeedsNeeded(w: Settings.World): (n: int)
      ensures var avail := AvailableDays(Seasons, Settings.SeasonOf(w), Settings.DayOf(w));
        var h := TotalHarvestsWithRemainingDays(Settings.SeasonOf(w), Settings.FertilizerOf(w), Settings.DayOf(w));
        n == if RegrowDays > 0 && avail <= 0 then 0 else IPlantData.DocumentedSeedsNeeded(RegrowDays, h)
    {
      var season, day := Settings.SeasonOf(w), Settings.DayOf(w);
      SeedsNeededAsDocumented(IsAvailable(Seasons, season) || season == Utils.Greenhouse,
                              AvailableDays(Seasons, season, day), Numeric.Max(Days, 1), RegrowDays);
      SeedsNeeded(RegrowDays, AvailableDays(Seasons, season, day),
                  TotalHarvestsWithRemainingDays(season, Settings.FertilizerOf(w), day))
    }

    function TotalSeedsCost(w: Settings.World): (c: int)
      ensures !Settings.PayForSeedsOf(w) ==> c == 0
      ensures Settings.PayForSeedsOf(w) ==> c == TotalSeedsNeeded(w) * SeedPrice(w)
    {
      SeedsCost(Settings.PayForSeedsOf(w), TotalSeedsNeeded(w), SeedPrice(w))
    }

    function TotalSeedsCostPerDay(w: Settings.World): (d: Numeric.Double)
      ensures d == PerDay(TotalSeedsCost(w) as real, AvailableDays(Seasons, Settings.SeasonOf(w), Settings.DayOf(w)))
    {
      PerDay(TotalSeedsCost(w) as real, AvailableDays(Seasons, Settings.SeasonOf(w), Settings.DayOf(w)))
    }
  }
}
