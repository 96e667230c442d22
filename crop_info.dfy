/**
 * CropInfo: one row of the calculator's results. The constructor nets the
 * seed and fertilizer losses out of the profit figures and stores every
 * other argument as given; equality compares the double fields within a
 * tolerance of 0.0001 and the rest exactly.
 */
module CropInfo {
  import opened Wrappers
  import Numeric
  import Utils
  import Text
  import P = PlantData

  /** The fields of a CropInfo; the double fields may hold infinities or NaN from a per-day division by zero. */
  datatype CropInfo = CropInfo(
    Crop: P.PlantData,
    TotalProfit: Numeric.Double,
    ProfitPerDay: Numeric.Double,
    TotalSeedLoss: Numeric.Double,
    SeedLossPerDay: Numeric.Double,
    TotalFertilizerLoss: Numeric.Double,
    FertilizerLossPerDay: Numeric.Double,
    ProduceType: int,
    Duration: int,
    TotalHarvests: int,
    GrowthTime: int,
    RegrowthTime: int,
    ProductCount: int,
    ChanceOfExtraProduct: Numeric.Double,
    ChanceOfNormalQuality: Numeric.Double,
    ChanceOfSilverQuality: Numeric.Double,
    ChanceOfGoldQuality: Numeric.Double,
    ChanceOfIridiumQuality: Numeric.Double)

  /**
   * The constructor: TotalProfit and ProfitPerDay are the profits less both
   * losses, in double arithmetic; every other argument is stored unchanged.
   */
  function New(crop: P.PlantData, totalProfit: Numeric.Double, profitPerDay: Numeric.Double,
               totalSeedLoss: Numeric.Double, seedLossPerDay: Numeric.Double,
               totalFertilizerLoss: Numeric.Double, fertilizerLossPerDay: Numeric.Double,
               produceType: int, duration: int, totalHarvests: int, growthTime: int, regrowthTime: int,
               productCount: int, chanceOfExtraProduct: Numeric.Double, chanceOfNormalQuality: Numeric.Double,
               chanceOfSilverQuality: Numeric.Double, chanceOfGoldQuality: Numeric.Double,
               chanceOfIridiumQuality: Numeric.Double): (ci: CropInfo)
    ensures totalProfit.Num? && totalSeedLoss.Num? && totalFertilizerLoss.Num? ==>
      ci.TotalProfit == Numeric.Num(totalProfit.r - totalSeedLoss.r - totalFertilizerLoss.r)
    ensures profitPerDay.Num? && seedLossPerDay.Num? && fertilizerLossPerDay.Num? ==>
      ci.ProfitPerDay == Numeric.Num(profitPerDay.r - seedLossPerDay.r - fertilizerLossPerDay.r)
    ensures totalProfit.NaN? || totalSeedLoss.NaN? || totalFertilizerLoss.NaN? ==> ci.TotalProfit.NaN?
    ensures profitPerDay.NaN? || seedLossPerDay.NaN? || fertilizerLossPerDay.NaN? ==> ci.ProfitPerDay.NaN?
    ensures ci.Crop == crop && ci.TotalSeedLoss == totalSeedLoss && ci.SeedLossPerDay == seedLossPerDay
    ensures ci.TotalFertilizerLoss == totalFertilizerLoss && ci.FertilizerLossPerDay == fertilizerLossPerDay
    ensures ci.ProduceType == produceType && ci.Duration == duration && ci.TotalHarvests == totalHarvests
    ensures ci.GrowthTime == growthTime && ci.RegrowthTime == regrowthTime && ci.ProductCount == productCount
    ensures ci.ChanceOfExtraProduct == chanceOfExtraProduct && ci.ChanceOfNormalQuality == chanceOfNormalQuality
    ensures ci.ChanceOfSilverQuality == chanceOfSilverQuality && ci.ChanceOfGoldQuality == chanceOfGoldQuality
    ensures ci.ChanceOfIridiumQuality == chanceOfIridiumQuality
  {
    CropInfo(crop, Numeric.Sub(Numeric.Sub(totalProfit, totalSeedLoss), totalFertilizerLoss),
             Numeric.Sub(Numeric.Sub(profitPerDay, seedLossPerDay), fertilizerLossPerDay),
             totalSeedLoss, seedLossPerDay, totalFertilizerLoss, fertilizerLossPerDay, produceType, duration,
             totalHarvests, growthTime, regrowthTime, productCount, chanceOfExtraProduct, chanceOfNormalQuality,
             chanceOfSilverQuality, chanceOfGoldQuality, chanceOfIridiumQuality)
  }

  /** Adding the stored losses back to the netted profit gives the gross profit the constructor was handed. */
  lemma NettingRestoresGrossProfit(crop: P.PlantData, totalProfit: real, profitPerDay: real,
                                   totalSeedLoss: real, seedLossPerDay: real,
                                   totalFertilizerLoss: real, fertilizerLossPerDay: real, rest: CropInfo)
    ensures var ci := New(crop, Numeric.Num(totalProfit), Numeric.Num(profitPerDay), Numeric.Num(totalSeedLoss),
                          Numeric.Num(seedLossPerDay), Numeric.Num(totalFertilizerLoss), Numeric.Num(fertilizerLossPerDay),
                          rest.ProduceType, rest.Duration, rest.TotalHarvests, rest.GrowthTime, rest.RegrowthTime,
                          rest.ProductCount, rest.ChanceOfExtraProduct, rest.ChanceOfNormalQuality,
                          rest.ChanceOfSilverQuality, rest.ChanceOfGoldQuality, rest.ChanceOfIridiumQuality);
      && ci.TotalProfit.r + ci.TotalSeedLoss.r + ci.TotalFertilizerLoss.r == totalProfit
      && ci.ProfitPerDay.r + ci.SeedLossPerDay.r + ci.FertilizerLossPerDay.r == profitPerDay
  {
  }

  /** The eleven double fields, in the order Equals compares them. */
  function Doubles(ci: CropInfo): (d: seq<Numeric.Double>)
    ensures |d| == 11
  {
    [ci.TotalProfit, ci.ProfitPerDay, ci.TotalSeedLoss, ci.SeedLossPerDay, ci.TotalFertilizerLoss,
     ci.FertilizerLossPerDay, ci.ChanceOfExtraProduct, ci.ChanceOfNormalQuality, ci.ChanceOfSilverQuality,
     ci.ChanceOfGoldQuality, ci.ChanceOfIridiumQuality]
  }

  /** The tolerance of the double comparison. */
  const Tolerance: real := 0.0001

  /**
   * Equals: the other object is a CropInfo (None stands for null or another
   * type), every double field is within the tolerance of its counterpart,
   * and the crop reference, produce type and int fields agree exactly.
   */
  predicate Equals(a: CropInfo, other: Option<CropInfo>): (r: bool)
    ensures other.None? ==> !r
    ensures r ==> Finite(a) && Finite(other.value)
  {
    other.Some?
    && (forall k :: 0 <= k < 11 ==> Numeric.Close(Doubles(a)[k], Doubles(other.value)[k], Tolerance))
    && a.Crop == other.value.Crop && a.ProduceType == other.value.ProduceType && a.Duration == other.value.Duration
    && a.TotalHarvests == other.value.TotalHarvests && a.GrowthTime == other.value.GrowthTime
    && a.RegrowthTime == other.value.RegrowthTime && a.ProductCount == other.value.ProductCount
  }

  /** Every double field is a finite number. */
  predicate Finite(ci: CropInfo)
  {
    forall k :: 0 <= k < 11 ==> Doubles(ci)[k].Num?
  }

  /** Equals is reflexive on CropInfos whose doubles are all finite. */
  lemma EqualsReflexiveWhenFinite(ci: CropInfo)
    requires Finite(ci)
    ensures Equals(ci, Some(ci))
  {
    forall k | 0 <= k < 11 ensures Numeric.Close(Doubles(ci)[k], Doubles(ci)[k], Tolerance) {
      assert Doubles(ci)[k].Num?;
    }
  }

  /** A NaN or infinite field makes a CropInfo unequal even to itself. */
  lemma NotFiniteNeverEqual(ci: CropInfo, other: Option<CropInfo>)
    requires !Finite(ci)
    ensures !Equals(ci, other)
  {
    var k :| 0 <= k < 11 && !Doubles(ci)[k].Num?;
    assert !Numeric.Close(Doubles(ci)[k], if other.Some? then Doubles(other.value)[k] else Numeric.NaN, Tolerance);
  }

  /** Equals is symmetric. */
  lemma EqualsSymmetric(a: CropInfo, b: CropInfo)
    requires Equals(a, Some(b))
    ensures Equals(b, Some(a))
  {
    forall k | 0 <= k < 11 ensures Numeric.Close(Doubles(b)[k], Doubles(a)[k], Tolerance) {
      assert Numeric.Close(Doubles(a)[k], Doubles(b)[k], Tolerance);
    }
  }

  /** A CropInfo for the crop with the given total profit and zero everywhere else. */
  function WithProfit(crop: P.PlantData, profit: real): CropInfo
  {
    var z := Numeric.Num(0.0);
    CropInfo(crop, Numeric.Num(profit), z, z, z, z, z, 0, 0, 0, 0, 0, 0, z, z, z, z, z)
  }

  /** Equals is not transitive: profits 0, 0.00006 and 0.00012 are each close to the next but not end to end. */
  lemma EqualsNotTransitive(crop: P.PlantData)
    ensures Equals(WithProfit(crop, 0.0), Some(WithProfit(crop, 0.00006)))
    ensures Equals(WithProfit(crop, 0.00006), Some(WithProfit(crop, 0.00012)))
    ensures !Equals(WithProfit(crop, 0.0), Some(WithProfit(crop, 0.00012)))
  {
    var a, b, c := WithProfit(crop, 0.0), WithProfit(crop, 0.00006), WithProfit(crop, 0.00012);
    assert Doubles(a)[0] == Numeric.Num(0.0) && Doubles(c)[0] == Numeric.Num(0.00012);
    assert forall k :: 0 <= k < 11 ==> Numeric.Close(Doubles(a)[k], Doubles(b)[k], Tolerance);
    assert forall k :: 0 <= k < 11 ==> Numeric.Close(Doubles(b)[k], Doubles(c)[k], Tolerance);
  }

  /** The keys ToString writes, in order. */
  const Keys: seq<string> := ["CropDataExpanded", "TotalProfit", "ProfitPerDay", "TotalSeedLoss", "SeedLossPerDay",
                              "TotalFertilizerLoss", "FertilizerLossPerDay", "ProduceType", "Duration",
                              "TotalHarvests", "GrowthTime", "RegrowthTime", "ProductCount", "ChanceOfExtraProduct",
                              "ChanceOfNormalQuality", "ChanceOfSilverQuality", "ChanceOfGoldQuality",
                              "ChanceOfIridiumQuality"]

  /** The value texts, in the order of Keys; the drop table's and the doubles' texts are inputs. */
  function Values(ci: CropInfo, tableText: string, doubleText: Numeric.Double -> string): (v: seq<string>)
    ensures |v| == |Keys|
  {
    [tableText, doubleText(ci.TotalProfit), doubleText(ci.ProfitPerDay), doubleText(ci.TotalSeedLoss),
     doubleText(ci.SeedLossPerDay), doubleText(ci.TotalFertilizerLoss), doubleText(ci.FertilizerLossPerDay),
     Utils.EnumText(Utils.ProduceTypeNames, Utils.ProduceTypeValues, ci.ProduceType),
     Text.IntText(ci.Duration), Text.IntText(ci.TotalHarvests), Text.IntText(ci.GrowthTime),
     Text.IntText(ci.RegrowthTime), Text.IntText(ci.ProductCount), doubleText(ci.ChanceOfExtraProduct),
     doubleText(ci.ChanceOfNormalQuality), doubleText(ci.ChanceOfSilverQuality),
     doubleText(ci.ChanceOfGoldQuality), doubleText(ci.ChanceOfIridiumQuality)]
  }

  /** `"Key": value` for each pair, each but the last followed by a comma. */
  function Entries(keys: seq<string>, values: seq<string>): (s: string)
    requires |keys| == |values|
  {
    if |keys| == 0 then ""
    else if |keys| == 1 then "\"" + keys[0] + "\": " + values[0]
    else "\"" + keys[0] + "\": " + values[0] + "," + Entries(keys[1..], values[1..])
  }

  /** Each entry list opens with the first key's entry. */
  lemma EntriesOpenWithFirstKey(keys: seq<string>, values: seq<string>)
    requires |keys| == |values| >= 1
    ensures var lead := "\"" + keys[0] + "\": " + values[0];
      |Entries(keys, values)| >= |lead| && Entries(keys, values)[..|lead|] == lead
  {
    var lead := "\"" + keys[0] + "\": " + values[0];
    if |keys| > 1 {
      var e := Entries(keys, values);
      assert e == lead + ("," + Entries(keys[1..], values[1..]));
      assert e[..|lead|] == lead;
    }
  }

  /** ToString: the entries for the keys in their fixed order, inside braces. */
  function ToString(ci: CropInfo, tableText: string, doubleText: Numeric.Double -> string): (s: string)
    ensures |s| >= 2 && s[0] == '{' && s[|s| - 1] == '}'
    ensures s[1..|s| - 1] == Entries(Keys, Values(ci, tableText, doubleText))
  {
    var body := Entries(Keys, Values(ci, tableText, doubleText));
    var s := "{" + body + "}";
    assert s[1..|s| - 1] == body;
    s
  }
}
