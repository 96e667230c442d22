/**
 * ProfitCalculator's Utils: the season, produce-type and fertilizer enums,
 * the lookup tables for season lengths and fertilizer prices, the mapping to
 * the game's seasons and the translated enum name lists.
 */
module Utils {
  import opened Wrappers
  import opened Seqs
  import Text
  import Numeric
  import Game

  /** UtilsSeason: an enum over int; the four outdoor seasons keep the game's ordinals. */
  const Spring: int := 0
  const Summer: int := 1
  const Fall: int := 2
  const Winter: int := 3
  const Greenhouse: int := 4

  /** ProduceType. */
  const Raw: int := 0
  const Keg: int := 1
  const Cask: int := 2

  /** FertilizerQuality: growth fertilizers are negative, quality fertilizers positive. */
  const NoFertilizer: int := 0
  const Basic: int := 1
  const Quality: int := 2
  const Deluxe: int := 3
  const SpeedGro: int := -1
  const DeluxeSpeedGro: int := -2
  const HyperSpeedGro: int := -3

  const DaysPerSeason: int := 28

  predicate IsOutdoorSeason(season: int) { Spring <= season <= Winter }

  function GetSeasonDays(season: int): (d: int)
    ensures IsOutdoorSeason(season) ==> d == DaysPerSeason
    ensures !IsOutdoorSeason(season) && season != Greenhouse ==> d == 0
  {
    match season
    case 0 => 28
    case 1 => 28
    case 2 => 28
    case 3 => 28
    case 4 => 112
    case _ => 0
  }

  /** The greenhouse season lasts as long as the four outdoor seasons together. */
  lemma GreenhouseIsWholeYear()
    ensures GetSeasonDays(Greenhouse)
      == GetSeasonDays(Spring) + GetSeasonDays(Summer) + GetSeasonDays(Fall) + GetSeasonDays(Winter)
  {
  }

  /**
   * The price of one bag of fertilizer: a growth fertilizer costs as much as
   * the quality fertilizer of the same tier, 50 × (tier + 1).
   */
  function FertilizerPrices(fq: int): (price: int)
    ensures 1 <= Numeric.Abs(fq) <= 3 ==> price == 50 * (Numeric.Abs(fq) + 1)
    ensures !(1 <= Numeric.Abs(fq) <= 3) ==> price == 0
  {
    match fq
    case 0 => 0
    case 1 => 100
    case 2 => 150
    case 3 => 200
    case -1 => 100
    case -2 => 150
    case -3 => 200
    case _ => 0
  }

  /** The game season of a UtilsSeason: Greenhouse has none and throws; an unknown value becomes Spring. */
  function SeasonFromUtilsSeason(season: int): (r: Result<Game.Season>)
    ensures r.Throws? <==> season == Greenhouse
    ensures r.Throws? ==> r.error == NotSupported
    ensures IsOutdoorSeason(season) ==> r.Ok? && Game.Ordinal(r.value) == season
    ensures !IsOutdoorSeason(season) && season != Greenhouse ==> r == Ok(Game.Spring)
  {
    match season
    case 0 => Ok(Game.Spring)
    case 1 => Ok(Game.Summer)
    case 2 => Ok(Game.Fall)
    case 3 => Ok(Game.Winter)
    case 4 => Throws(NotSupported)
    case _ => Ok(Game.Spring)
  }

  /** Each game season comes back from the UtilsSeason with its ordinal. */
  lemma SeasonRoundTrip(s: Game.Season)
    ensures SeasonFromUtilsSeason(Game.Ordinal(s)) == Ok(s)
  {
  }

  /** Enum.GetNames order: the names of an enum sorted by the unsigned value of their constants. */
  const SeasonNames: seq<string> := ["Spring", "Summer", "Fall", "Winter", "Greenhouse"]
  const SeasonValues: seq<int> := [0, 1, 2, 3, 4]
  const ProduceTypeNames: seq<string> := ["Raw", "Keg", "Cask"]
  const ProduceTypeValues: seq<int> := [0, 1, 2]
  const FertilizerQualityNames: seq<string> :=
    ["None", "Basic", "Quality", "Deluxe", "HyperSpeedGro", "DeluxeSpeedGro", "SpeedGro"]
  const FertilizerQualityValues: seq<int> := [0, 1, 2, 3, -3, -2, -1]

  /** The name lists are in increasing order of the constants read as uint, as Enum.GetNames returns them. */
  lemma NamesInUnsignedOrder()
    ensures forall i, j :: 0 <= i < j < |FertilizerQualityValues| ==>
      Numeric.WrapUInt32(FertilizerQualityValues[i]) < Numeric.WrapUInt32(FertilizerQualityValues[j])
    ensures forall i, j :: 0 <= i < j < |SeasonValues| ==> SeasonValues[i] < SeasonValues[j]
    ensures forall i, j :: 0 <= i < j < |ProduceTypeValues| ==> ProduceTypeValues[i] < ProduceTypeValues[j]
  {
  }

  /** Enum.ToString: the constant's name, or its decimal value when it has no name. */
  function EnumText(names: seq<string>, values: seq<int>, v: int): (s: string)
    requires |names| == |values|
    ensures v in values ==> s == names[IndexOf(values, v)]
    ensures v !in values ==> s == Text.IntText(v)
  {
    var i := IndexOf(values, v);
    if i >= 0 then names[i] else Text.IntText(v)
  }

  /**
   * GetTranslatedName: the translation of the lower-cased name, or "Error"
   * when no mod helper is registered. The translation table is an input.
   */
  function GetTranslatedName(name: string, helper: Option<string -> string>): (s: string)
    ensures helper.None? ==> s == "Error"
    ensures helper.Some? ==> s == helper.value(Text.ToLower(name))
  {
    match helper
    case None => "Error"
    case Some(translate) => translate(Text.ToLower(name))
  }

  function GetTranslatedSeason(season: int, helper: Option<string -> string>): (s: string)
    ensures helper.None? ==> s == "Error"
    ensures season !in SeasonValues && helper.Some? ==> s == helper.value(Text.ToLower(Text.IntText(season)))
    ensures forall k :: 0 <= k < |SeasonValues| && SeasonValues[k] == season && season !in SeasonValues[..k] ==> s == GetTranslatedName(SeasonNames[k], helper)
  {
    GetTranslatedName(EnumText(SeasonNames, SeasonValues, season), helper)
  }

  function GetTranslatedProduceType(produceType: int, helper: Option<string -> string>): (s: string)
    ensures helper.None? ==> s == "Error"
    ensures produceType !in ProduceTypeValues && helper.Some? ==> s == helper.value(Text.ToLower(Text.IntText(produceType)))
    ensures forall k :: 0 <= k < |ProduceTypeValues| && ProduceTypeValues[k] == produceType && produceType !in ProduceTypeValues[..k] ==> s == GetTranslatedName(ProduceTypeNames[k], helper)
  {
    GetTranslatedName(EnumText(ProduceTypeNames, ProduceTypeValues, produceType), helper)
  }

  function GetTranslatedFertilizerQuality(fq: int, helper: Option<string -> string>): (s: string)
    ensures helper.None? ==> s == "Error"
    ensures fq !in FertilizerQualityValues && helper.Some? ==> s == helper.value(Text.ToLower(Text.IntText(fq)))
    ensures forall k :: 0 <= k < |FertilizerQualityValues| && FertilizerQualityValues[k] == fq && fq !in FertilizerQualityValues[..k] ==> s == GetTranslatedName(FertilizerQualityNames[k], helper)
  {
    GetTranslatedName(EnumText(FertilizerQualityNames, FertilizerQualityValues, fq), helper)
  }

  /** A named enum value translates as its name does. */
  lemma TranslatedFertilizerQualityByName(k: nat, helper: Option<string -> string>)
    requires k < |FertilizerQualityValues|
    ensures GetTranslatedFertilizerQuality(FertilizerQualityValues[k], helper)
      == GetTranslatedName(FertilizerQualityNames[k], helper)
  {
    assert Distinct(FertilizerQualityValues);
    IndexOfDistinct(FertilizerQualityValues, k);
  }

  /**
   * The loop shared by the three GetAllTranslated* members: a fresh array as
   * long as the name list, each name's translation stored at the name's index
   * as Array.IndexOf finds it.
   */
  method TranslateAll(names: seq<string>, helper: Option<string -> string>) returns (translated: array<string>)
    requires Distinct(names)
    ensures translated.Length == |names|
    ensures forall k :: 0 <= k < |names| ==> translated[k] == GetTranslatedName(names[k], helper)
  {
    translated := new string[|names|](_ => "");
    var i := 0;
    while i < |names|
      invariant 0 <= i <= |names|
      invariant translated.Length == |names|
      invariant forall k :: 0 <= k < i ==> translated[k] == GetTranslatedName(names[k], helper)
    {
      var name := names[i];
      IndexOfDistinct(names, i);
      translated[IndexOf(names, name)] := GetTranslatedName(name, helper);
      i := i + 1;
    }
  }

  method GetAllTranslatedSeasons(helper: Option<string -> string>) returns (translated: array<string>)
    ensures translated.Length == |SeasonNames|
    ensures forall k :: 0 <= k < |SeasonNames| ==> translated[k] == GetTranslatedName(SeasonNames[k], helper)
  {
    translated := TranslateAll(SeasonNames, helper);
  }

  method GetAllTranslatedProduceTypes(helper: Option<string -> string>) returns (translated: array<string>)
    ensures translated.Length == |ProduceTypeNames|
    ensures forall k :: 0 <= k < |ProduceTypeNames| ==> translated[k] == GetTranslatedName(ProduceTypeNames[k], helper)
  {
    translated := TranslateAll(ProduceTypeNames, helper);
  }

  method GetAllTranslatedFertilizerQualities(helper: Option<string -> string>) returns (translated: array<string>)
    ensures translated.Length == |FertilizerQualityNames|
    ensures forall k :: 0 <= k < |FertilizerQualityNames| ==>
      translated[k] == GetTranslatedName(FertilizerQualityNames[k], helper)
  {
    translated := TranslateAll(FertilizerQualityNames, helper);
  }
}
