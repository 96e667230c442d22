/**
 * The Calculator: the user's settings, the registry of plants by id, and
 * the two result lists. The registry never overwrites an id; the results
 * are the CropInfos of the plants that can be harvested at least once,
 * sorted by profit per day, largest first.
 */
module Calculator {
  import opened Wrappers
  import Numeric
  import Utils
  import Seqs
  import Settings
  import Sorting
  import Registry
  import D = DropInformation
  import P = PlantData
  import CI = CropInfo

  /** The sort key of the results: profit per day. */
  function ProfitKey(ci: CI.CropInfo): Numeric.Double
  {
    ci.ProfitPerDay
  }

  /** `TotalSeedLoss <= MaxMoney` between a double and a uint widened to double: false for NaN. */
  predicate WithinBudget(loss: Numeric.Double, maxMoney: int)
  {
    match loss
    case Num(x) => x <= maxMoney as real
    case NegativeInfinity => true
    case _ => false
  }

  class Calculator {
    /** The registry, and its ids in the order they were added (the dictionary's enumeration order). */
    var Crops: map<string, P.PlantData>
    var Keys: seq<string>

    /**
     * The settings properties, held as one record: Day, MaxDay, MinDay,
     * Season, ProduceType, FertilizerQuality, PayForSeeds, PayForFertilizer,
     * MaxMoney, UseBaseStats, CrossSeason, PriceMultipliers and FarmingLevel.
     */
    var Config: Settings.Settings

    /** Every registered id is listed exactly once in Keys. */
    ghost predicate Valid()
      reads this
    {
      Seqs.Distinct(Keys) && forall id :: id in Crops <==> id in Keys
    }

    /** The drop tables of the registered plants. */
    function Tables(): set<D.DropInformation>
      reads this
    {
      set id | id in Crops :: Crops[id].DropInformation
    }

    /** An empty registry, every setting at its default and the default price multipliers. */
    constructor ()
      ensures Valid() && Crops == map[] && Keys == []
      ensures Config == Settings.Settings(0, 0, 0, Utils.Spring, 0, Utils.NoFertilizer, false, false, 0, false, false,
                                          Settings.DefaultPriceMultipliers, 0)
    {
      Crops := map[];
      Keys := [];
      Config := Settings.Settings(0, 0, 0, Utils.Spring, 0, Utils.NoFertilizer, false, false, 0, false, false,
                                  Settings.DefaultPriceMultipliers, 0);
    }

    /** SetSettings: every argument is copied; the farming level is 0 with base stats, else the player's. */
    method SetSettings(day: nat, maxDay: nat, minDay: nat, season: int, produceType: int, fertilizerQuality: int,
                       payForSeeds: bool, payForFertilizer: bool, maxMoney: nat, useBaseStats: bool,
                       crossSeason: bool, playerFarmingLevel: int)
      modifies this
      ensures Config == Settings.Settings(day, maxDay, minDay, season, produceType, fertilizerQuality, payForSeeds,
                                          payForFertilizer, maxMoney, useBaseStats, crossSeason,
                                          old(Config.priceMultipliers), if useBaseStats then 0 else playerFarmingLevel)
      ensures Crops == old(Crops) && Keys == old(Keys)
    {
      var farmingLevel := if useBaseStats then 0 else playerFarmingLevel;
      Config := Config.(day := day, maxDay := maxDay, minDay := minDay, season := season, produceType := produceType,
                        fertilizerQuality := fertilizerQuality, payForSeeds := payForSeeds,
                        payForFertilizer := payForFertilizer, maxMoney := maxMoney, useBaseStats := useBaseStats,
                        crossSeason := crossSeason, farmingLevel := farmingLevel);
    }

    /** ClearCrops empties the registry and leaves the settings alone. */
    method ClearCrops()
      modifies this
      ensures Valid() && Crops == map[] && Keys == []
      ensures Config == old(Config)
    {
      Crops := map[];
      Keys := [];
    }

    /** AddCrop registers the plant under an id that is not yet present, and otherwise changes nothing. */
    method AddCrop(id: string, crop: P.PlantData)
      requires Valid()
      modifies this
      ensures Valid()
      ensures Crops == Registry.TryAdd(old(Crops), id, crop)
      ensures Keys == if id in old(Crops) then old(Keys) else old(Keys) + [id]
      ensures Config == old(Config)
    {
      if id !in Crops {
        Crops := Crops[id := crop];
        Keys := Keys + [id];
      }
    }

    /** The plants in enumeration order. */
    function Plants(): (s: seq<P.PlantData>)
      requires Valid()
      reads this
      ensures |s| == |Keys|
      ensures forall k :: 0 <= k < |s| ==> s[k] == Crops[Keys[k]]
    {
      seq(|Keys|, k requires 0 <= k < |Keys| && Keys[k] in Crops reads this => Crops[Keys[k]])
    }

    /**
     * RetrieveCropsAsOrderderList: every registered plant exactly once,
     * ordered by non-increasing average price in the selected season.
     */
    method RetrieveCropsAsOrderderList() returns (cropList: seq<P.PlantData>)
      requires Valid()
      ensures multiset(cropList) == multiset(Plants())
      ensures forall i, j :: 0 <= i < j < |cropList| ==>
        (D.AveragePrice(cropList[j].DropInformation.Drops, Config.season)
         <= D.AveragePrice(cropList[i].DropInformation.Drops, Config.season))
    {
      var season := Config.season;
      var plants: seq<P.PlantData> := [];
      var prices: map<P.PlantData, real> := map[];
      var i := 0;
      while i < |Keys|
        invariant 0 <= i <= |Keys|
        invariant plants == Plants()[..i]
        invariant forall p :: p in plants ==> p in prices
        invariant forall p :: p in prices ==> prices[p] == D.AveragePrice(p.DropInformation.Drops, season)
      {
        var crop := Crops[Keys[i]];
        plants := plants + [crop];
        prices := prices[crop := D.AveragePrice(crop.DropInformation.Drops, season)];
        i := i + 1;
      }
      assert plants == Plants();
      var key := (p: P.PlantData) => if p in prices then Numeric.Num(prices[p]) else Numeric.NaN;
      cropList := Sorting.SortDescending(plants, key);
      forall k | 0 <= k < |cropList|
        ensures cropList[k] in prices
      {
        assert cropList[k] in multiset(plants);
      }
    }

    /**
     * RetrieveCropInfo: the plant's figures under the calculator's season,
     * day and fertilizer, with the seed and fertilizer losses netted out of
     * the profit by the CropInfo constructor. The uint day is cast to int.
     * A plant whose profit throws makes the whole call throw.
     */
    function RetrieveCropInfo(crop: P.PlantData, w: Settings.World): (r: Result<CI.CropInfo>)
      reads this, crop.DropInformation
      ensures r.Ok? <==> crop.TotalCropProfit(w).Ok?
      ensures r.Throws? ==> r.error == crop.TotalCropProfit(w).error
      ensures r.Ok? ==> r.value.Crop == crop
      ensures r.Ok? ==> r.value.TotalSeedLoss == Numeric.Num(crop.TotalSeedsCost(w) as real)
      ensures r.Ok? ==> (r.value.TotalHarvests
        == crop.TotalHarvestsWithRemainingDays(Config.season, Config.fertilizerQuality, Numeric.WrapInt32(Config.day)))
      ensures r.Ok? ==> r.value.Duration == P.AvailableDays(crop.Seasons, Config.season, Numeric.WrapInt32(Config.day))
      ensures r.Ok? ==> r.value.GrowthTime == Numeric.Max(crop.Days, 1)
      ensures r.Ok? ==> r.value.ProduceType == Config.produceType && r.value.RegrowthTime == crop.RegrowDays
      ensures r.Ok? ==> r.value.ProductCount == crop.MinHarvests
      ensures r.Ok? ==>
        r.value.ProfitPerDay
        == Numeric.Sub(Numeric.Sub(crop.TotalCropProfitPerDay(w).value, crop.TotalSeedsCostPerDay(w)), crop.TotalFertilzerCostPerDay(w))
      ensures r.Ok? ==> r.value.SeedLossPerDay == crop.TotalSeedsCostPerDay(w)
      ensures r.Ok? ==> r.value.TotalFertilizerLoss == Numeric.Num(crop.TotalFertilizerCost(w) as real)
      ensures r.Ok? ==> r.value.FertilizerLossPerDay == crop.TotalFertilzerCostPerDay(w)
      ensures r.Ok? ==> r.value.ChanceOfExtraProduct == Numeric.Num(crop.AverageExtraCropsFromRandomness())
      ensures r.Ok? ==> var c := crop.QualityChancesFor(w);
        && r.value.ChanceOfNormalQuality == Numeric.Num(c.normal) && r.value.ChanceOfSilverQuality == Numeric.Num(c.silver)
        && r.value.ChanceOfGoldQuality == Numeric.Num(c.gold) && r.value.ChanceOfIridiumQuality == Numeric.Num(c.iridium)
    {
      var profit := crop.TotalCropProfit(w);
      if profit.Throws? then Throws(profit.error)
      else
      var day := Numeric.WrapInt32(Config.day);
      Ok(Assemble(crop, profit.value, crop.TotalCropProfitPerDay(w).value,
                  crop.TotalSeedsCost(w), crop.TotalSeedsCostPerDay(w),
                  crop.TotalFertilizerCost(w), crop.TotalFertilzerCostPerDay(w),
                  Config.produceType, P.AvailableDays(crop.Seasons, Config.season, day),
                  crop.TotalHarvestsWithRemainingDays(Config.season, Config.fertilizerQuality, day),
                  GrowthTime(crop, Config.fertilizerQuality), crop.AverageExtraCropsFromRandomness(),
                  crop.QualityChancesFor(w)))
    }

    /** The CropInfo's total profit is the plant's profit less its seed and fertilizer costs. */
    lemma RetrieveCropInfoNetsLosses(crop: P.PlantData, w: Settings.World)
      requires RetrieveCropInfo(crop, w).Ok?
      ensures RetrieveCropInfo(crop, w).value.TotalProfit
        == Numeric.Num(crop.TotalCropProfit(w).value - crop.TotalSeedsCost(w) as real - crop.TotalFertilizerCost(w) as real)
    {
      var day := Numeric.WrapInt32(Config.day);
      var ci := Assemble(crop, crop.TotalCropProfit(w).value, crop.TotalCropProfitPerDay(w).value,
                         crop.TotalSeedsCost(w), crop.TotalSeedsCostPerDay(w),
                         crop.TotalFertilizerCost(w), crop.TotalFertilzerCostPerDay(w),
                         Config.produceType, P.AvailableDays(crop.Seasons, Config.season, day),
                         crop.TotalHarvestsWithRemainingDays(Config.season, Config.fertilizerQuality, day),
                         GrowthTime(crop, Config.fertilizerQuality), crop.AverageExtraCropsFromRandomness(),
                         crop.QualityChancesFor(w));
      assert RetrieveCropInfo(crop, w) == Ok(ci);
    }

    /**
     * The sort key: wherever the plant's profit per day and both losses per
     * day are finite, ProfitPerDay is the profit per day less both losses,
     * and adding the stored losses back gives the plant's profit per day.
     */
    lemma RetrieveCropInfoNetsLossesPerDay(crop: P.PlantData, w: Settings.World)
      requires RetrieveCropInfo(crop, w).Ok?
      requires crop.TotalCropProfitPerDay(w).value.Num?
      requires crop.TotalSeedsCostPerDay(w).Num? && crop.TotalFertilzerCostPerDay(w).Num?
      ensures var ci := RetrieveCropInfo(crop, w).value;
        && ci.ProfitPerDay.Num?
        && ci.ProfitPerDay.r + ci.SeedLossPerDay.r + ci.FertilizerLossPerDay.r == crop.TotalCropProfitPerDay(w).value.r
    {
    }

    /** RetrieveCropInfo for every registered plant, in enumeration order. */
    function Infos(w: Settings.World): (infos: seq<Result<CI.CropInfo>>)
      requires Valid()
      reads this, Tables()
      ensures |infos| == |Keys|
      ensures forall k :: 0 <= k < |Keys| ==> infos[k] == RetrieveCropInfo(Crops[Keys[k]], w)
    {
      seq(|Keys|, k requires 0 <= k < |Keys| && Keys[k] in Crops reads this, Tables() => RetrieveCropInfo(Crops[Keys[k]], w))
    }

    /**
     * RetrieveCropInfos: the CropInfos that Collect keeps from the registered
     * plants' CropInfos, or the first exception, sorted by non-increasing
     * profit per day.
     */
    method RetrieveCropInfos(w: Settings.World) returns (r: Result<seq<CI.CropInfo>>)
      requires Valid()
      ensures var c := Collect(old(Infos(w)), Config.payForSeeds, Config.maxMoney);
        && (r.Ok? <==> c.Ok?)
        && (r.Throws? ==> r.error == c.error)
        && (r.Ok? ==> multiset(r.value) == multiset(c.value) && Sorting.SortedDescending(r.value, ProfitKey))
      ensures r.Ok? ==> multiset(r.value) == multiset(Harvested(old(Infos(w))))
    {
      var infos := Infos(w);
      r := CollectSorted(infos, Config.payForSeeds, Config.maxMoney);
    }
  }

  /** The growing days under the plant's growth speed; never below 1, and the plain Days for a positive Days. */
  function GrowthTime(crop: P.PlantData, fertilizerQuality: int): (g: int)
    ensures g == Numeric.Max(crop.Days, 1)
  {
    P.GrowingDays(crop.Days, crop.GetAverageGrowthSpeedValueForCrop(fertilizerQuality))
  }

  /** The CropInfo constructor called with a plant's figures; the counts are stored as doubles. */
  function Assemble(crop: P.PlantData, totalProfit: real, profitPerDay: Numeric.Double, seedCost: int,
                    seedCostPerDay: Numeric.Double, fertilizerCost: int, fertilizerCostPerDay: Numeric.Double,
                    produceType: int, duration: int, harvests: int, growthTime: int, extra: real,
                    chances: P.Chances): (ci: CI.CropInfo)
    ensures ci.TotalProfit == Numeric.Num(totalProfit - seedCost as real - fertilizerCost as real)
    ensures ci.Crop == crop && ci.TotalSeedLoss == Numeric.Num(seedCost as real)
    ensures ci.TotalFertilizerLoss == Numeric.Num(fertilizerCost as real)
    ensures ci.ProduceType == produceType && ci.Duration == duration && ci.TotalHarvests == harvests
    ensures ci.GrowthTime == growthTime && ci.RegrowthTime == crop.RegrowDays && ci.ProductCount == crop.MinHarvests
    ensures ci.ProfitPerDay == Numeric.Sub(Numeric.Sub(profitPerDay, seedCostPerDay), fertilizerCostPerDay)
    ensures ci.SeedLossPerDay == seedCostPerDay && ci.FertilizerLossPerDay == fertilizerCostPerDay
    ensures ci.ChanceOfExtraProduct == Numeric.Num(extra)
    ensures ci.ChanceOfNormalQuality == Numeric.Num(chances.normal) && ci.ChanceOfSilverQuality == Numeric.Num(chances.silver)
    ensures ci.ChanceOfGoldQuality == Numeric.Num(chances.gold) && ci.ChanceOfIridiumQuality == Numeric.Num(chances.iridium)
  {
    CI.New(crop, Numeric.Num(totalProfit), profitPerDay, Numeric.Num(seedCost as real), seedCostPerDay,
           Numeric.Num(fertilizerCost as real), fertilizerCostPerDay, produceType, duration, harvests, growthTime,
           crop.RegrowDays, crop.MinHarvests, Numeric.Num(extra), Numeric.Num(chances.normal),
           Numeric.Num(chances.silver), Numeric.Num(chances.gold), Numeric.Num(chances.iridium))
  }

  /**
   * The unsorted result of the loop over the CropInfos: one with no harvest
   * is skipped, one over the seed budget while paying for seeds throws
   * InvalidOperation, any other is kept; a failed CropInfo throws its error.
   */
  function Collect(infos: seq<Result<CI.CropInfo>>, payForSeeds: bool, maxMoney: int): (r: Result<seq<CI.CropInfo>>)
    ensures r.Throws? ==> r.error == InvalidOperation || exists k :: 0 <= k < |infos| && infos[k] == Throws(r.error)
  {
    if |infos| == 0 then Ok([])
    else
      var previous :- Collect(infos[..|infos| - 1], payForSeeds, maxMoney);
      var ci :- infos[|infos| - 1];
      if ci.TotalHarvests < 1 then Ok(previous)
      else if !payForSeeds || WithinBudget(ci.TotalSeedLoss, maxMoney) then Ok(previous + [ci])
      else Throws(InvalidOperation)
  }

  method CollectSorted(infos: seq<Result<CI.CropInfo>>, payForSeeds: bool, maxMoney: int)
    returns (r: Result<seq<CI.CropInfo>>)
    ensures var c := Collect(infos, payForSeeds, maxMoney);
      && (r.Ok? <==> c.Ok?)
      && (r.Throws? ==> r.error == c.error)
      && (r.Ok? ==> multiset(r.value) == multiset(c.value) && Sorting.SortedDescending(r.value, ProfitKey))
    ensures r.Ok? ==> multiset(r.value) == multiset(Harvested(infos))
  {
    var cropInfos: seq<CI.CropInfo> := [];
    var i := 0;
    while i < |infos|
      invariant 0 <= i <= |infos|
      invariant Collect(infos[..i], payForSeeds, maxMoney) == Ok(cropInfos)
    {
      var info := infos[i];
      assert infos[..i + 1] == infos[..i] + [info];
      CollectAppend(infos[..i], info, payForSeeds, maxMoney);
      if info.Throws? {
        CollectFailureStays(infos, i + 1, payForSeeds, maxMoney);
        return Throws(info.error);
      }
      var ci := info.value;
      if ci.TotalHarvests >= 1 {
        if !payForSeeds {
          cropInfos := cropInfos + [ci];
        } else if WithinBudget(ci.TotalSeedLoss, maxMoney) {
          cropInfos := cropInfos + [ci];
        } else {
          CollectFailureStays(infos, i + 1, payForSeeds, maxMoney);
          return Throws(InvalidOperation);
        }
      }
      i := i + 1;
    }
    assert infos[..|infos|] == infos;
    CollectIsHarvested(infos, payForSeeds, maxMoney);
    r := Ok(Sorting.SortDescending(cropInfos, ProfitKey));
  }

  /** Collecting one more CropInfo after a successful prefix. */
  lemma CollectAppend(prefix: seq<Result<CI.CropInfo>>, x: Result<CI.CropInfo>, payForSeeds: bool, maxMoney: int)
    requires Collect(prefix, payForSeeds, maxMoney).Ok?
    ensures Collect(prefix + [x], payForSeeds, maxMoney)
      == if x.Throws? then Throws(x.error)
         else if x.value.TotalHarvests < 1 then Collect(prefix, payForSeeds, maxMoney)
         else if !payForSeeds || WithinBudget(x.value.TotalSeedLoss, maxMoney)
         then Ok(Collect(prefix, payForSeeds, maxMoney).value + [x.value])
         else Throws(InvalidOperation)
  {
    assert (prefix + [x])[..|prefix|] == prefix;
  }

  /** Once a prefix fails, the whole sequence fails with the same exception. */
  lemma {:induction false} CollectFailureStays(infos: seq<Result<CI.CropInfo>>, n: nat, payForSeeds: bool, maxMoney: int)
    requires n <= |infos| && Collect(infos[..n], payForSeeds, maxMoney).Throws?
    ensures Collect(infos, payForSeeds, maxMoney) == Collect(infos[..n], payForSeeds, maxMoney)
    decreases |infos|
  {
    if n < |infos| {
      var shorter := infos[..|infos| - 1];
      assert shorter[..n] == infos[..n];
      CollectFailureStays(shorter, n, payForSeeds, maxMoney);
    } else {
      assert infos[..n] == infos;
    }
  }

  /** Every collected CropInfo has a harvest and, when seeds are paid for, fits the budget. */
  lemma {:induction false} CollectedAreHarvestedAndAffordable(infos: seq<Result<CI.CropInfo>>, payForSeeds: bool,
                                                              maxMoney: int)
    requires Collect(infos, payForSeeds, maxMoney).Ok?
    ensures forall ci :: ci in Collect(infos, payForSeeds, maxMoney).value ==>
      ci.TotalHarvests >= 1 && (payForSeeds ==> WithinBudget(ci.TotalSeedLoss, maxMoney))
  {
    if |infos| > 0 {
      CollectedAreHarvestedAndAffordable(infos[..|infos| - 1], payForSeeds, maxMoney);
    }
  }

  /** Collect keeps CropInfos in their order, each at most once: the result is a subsequence of the successes. */
  lemma {:induction false} CollectedAtMostOneEach(infos: seq<Result<CI.CropInfo>>, payForSeeds: bool, maxMoney: int)
    requires Collect(infos, payForSeeds, maxMoney).Ok?
    ensures |Collect(infos, payForSeeds, maxMoney).value| <= |infos|
    ensures forall ci :: ci in Collect(infos, payForSeeds, maxMoney).value ==> Ok(ci) in infos
  {
    if |infos| > 0 {
      CollectedAtMostOneEach(infos[..|infos| - 1], payForSeeds, maxMoney);
      assert forall x :: x in infos[..|infos| - 1] ==> x in infos;
    }
  }

  /** The successful CropInfos with at least one harvest, in order: what the loop keeps when nothing throws. */
  function Harvested(infos: seq<Result<CI.CropInfo>>): (kept: seq<CI.CropInfo>)
    ensures |kept| <= |infos|
  {
    if |infos| == 0 then []
    else
      var last := infos[|infos| - 1];
      Harvested(infos[..|infos| - 1]) + (if last.Ok? && last.value.TotalHarvests >= 1 then [last.value] else [])
  }

  /**
   * Collect is complete: when it succeeds, no entry failed and the result is
   * exactly the harvested CropInfos in their order, so none with a harvest
   * is dropped.
   */
  lemma {:induction false} CollectIsHarvested(infos: seq<Result<CI.CropInfo>>, payForSeeds: bool, maxMoney: int)
    requires Collect(infos, payForSeeds, maxMoney).Ok?
    ensures forall k :: 0 <= k < |infos| ==> infos[k].Ok?
    ensures Collect(infos, payForSeeds, maxMoney).value == Harvested(infos)
  {
    if |infos| > 0 {
      var prefix := infos[..|infos| - 1];
      CollectIsHarvested(prefix, payForSeeds, maxMoney);
      assert forall k :: 0 <= k < |prefix| ==> infos[k] == prefix[k];
    }
  }

  /** Every successful CropInfo with a harvest is in a successful Collect. */
  lemma KeepsEveryHarvested(infos: seq<Result<CI.CropInfo>>, payForSeeds: bool, maxMoney: int, k: nat)
    requires Collect(infos, payForSeeds, maxMoney).Ok?
    requires k < |infos| && infos[k].Ok? && infos[k].value.TotalHarvests >= 1
    ensures infos[k].value in Collect(infos, payForSeeds, maxMoney).value
  {
    CollectIsHarvested(infos, payForSeeds, maxMoney);
    HarvestedHas(infos, k);
  }

  lemma {:induction false} HarvestedHas(infos: seq<Result<CI.CropInfo>>, k: nat)
    requires k < |infos| && infos[k].Ok? && infos[k].value.TotalHarvests >= 1
    ensures infos[k].value in Harvested(infos)
    decreases |infos|
  {
    if k < |infos| - 1 {
      var prefix := infos[..|infos| - 1];
      assert prefix[k] == infos[k];
      HarvestedHas(prefix, k);
    }
  }

  /** With no failing entry, Collect either succeeds or throws InvalidOperation. */
  lemma {:induction false} CollectOnlyThrowsInvalid(infos: seq<Result<CI.CropInfo>>, payForSeeds: bool, maxMoney: int)
    requires forall k :: 0 <= k < |infos| ==> infos[k].Ok?
    ensures Collect(infos, payForSeeds, maxMoney).Ok? || Collect(infos, payForSeeds, maxMoney) == Throws(InvalidOperation)
  {
    if |infos| > 0 {
      var prefix := infos[..|infos| - 1];
      assert forall k :: 0 <= k < |prefix| ==> prefix[k] == infos[k];
      CollectOnlyThrowsInvalid(prefix, payForSeeds, maxMoney);
    }
  }

  /**
   * When seeds are paid for, one harvested CropInfo over the budget makes
   * the whole call throw InvalidOperation, wherever it stands.
   */
  lemma {:induction false} OverBudgetThrows(infos: seq<Result<CI.CropInfo>>, maxMoney: int, k: nat)
    requires forall j :: 0 <= j < |infos| ==> infos[j].Ok?
    requires k < |infos| && infos[k].value.TotalHarvests >= 1 && !WithinBudget(infos[k].value.TotalSeedLoss, maxMoney)
    ensures Collect(infos, true, maxMoney) == Throws(InvalidOperation)
    decreases |infos|
  {
    var prefix := infos[..|infos| - 1];
    assert forall j :: 0 <= j < |prefix| ==> prefix[j] == infos[j];
    if k < |infos| - 1 {
      OverBudgetThrows(prefix, maxMoney, k);
    } else {
      CollectOnlyThrowsInvalid(prefix, true, maxMoney);
    }
  }

  /** Without a seed budget to break and with no failing entry, Collect never throws. */
  lemma {:induction false} CollectNeverThrows(infos: seq<Result<CI.CropInfo>>, maxMoney: int)
    requires forall k :: 0 <= k < |infos| ==> infos[k].Ok?
    ensures Collect(infos, false, maxMoney).Ok?
  {
    if |infos| > 0 {
      CollectNeverThrows(infos[..|infos| - 1], maxMoney);
    }
  }

  /** With multipliers for all four qualities registered, no plant's CropInfo fails. */
  lemma InfoNeverFails(calculator: Calculator, crop: P.PlantData, w: Settings.World)
    requires w.calculator.Some? && |w.calculator.value.priceMultipliers| >= 4
    ensures calculator.RetrieveCropInfo(crop, w).Ok?
  {
    assert crop.GetAverageValueMultiplierForCrop(w).Ok?;
  }
}
