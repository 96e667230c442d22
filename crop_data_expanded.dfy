/**
 * CropDataExpanded: the older crop wrapper that keeps the game's crop asset
 * and reads its plant figures from it on demand. Two wrappers are equal when
 * they wrap the same harvest item and sprite with the same seed object, and
 * the hash code folds those three fields FNV style in wrapping 32-bit
 * arithmetic.
 */
module CropDataExpanded {
  import opened Wrappers
  import Numeric
  import Utils
  import Game
  import Seqs
  import Text
  import Settings
  import P = PlantData

  /** The FNV prime and offset basis; `(int)2166136261` keeps the bits of the uint. */
  const FnvPrime: bv32 := 16777619
  const FnvOffset: bv32 := 2166136261

  /** One FNV step: hash = (hash xor field) × prime, wrapping. */
  function FnvStep(hash: bv32, field: bv32): bv32
  {
    (hash ^ field) * FnvPrime
  }

  /** The FNV fold of field hashes in order. */
  function Fnv(fields: seq<bv32>): bv32
  {
    if |fields| == 0 then FnvOffset
    else FnvStep(Fnv(fields[..|fields| - 1]), fields[|fields| - 1])
  }

  class CropDataExpanded {
    const CropData: Game.CropRecord
    const Seed: Game.Item
    const Item: Game.Item
    const AffectByQuality: bool
    const AffectByFertilizer: bool
    const SeedPrice: int

    /** The seed price is looked up once, through the registered shop accessor (0 without one). */
    constructor (cropData: Game.CropRecord, item: Game.Item, seed: Game.Item, affectedByQuality: bool,
                 affectedByFertilizer: bool, seedPrice: string -> int)
      ensures CropData == cropData && Item == item && Seed == seed
      ensures AffectByQuality == affectedByQuality && AffectByFertilizer == affectedByFertilizer
      ensures SeedPrice == seedPrice(seed.QualifiedItemId)
    {
      CropData := cropData;
      Seed := seed;
      Item := item;
      AffectByQuality := affectedByQuality;
      AffectByFertilizer := affectedByFertilizer;
      SeedPrice := seedPrice(seed.QualifiedItemId);
    }

    /** Price: the item's store price. */
    function Price(): (p: int)
      ensures p == Item.StorePrice
    {
      Item.StorePrice
    }

    /** Days: the sum of the phase lengths, never negative when no phase is. */
    function Days(): (d: int)
      ensures d == Seqs.Sum(CropData.daysInPhase)
      ensures (forall k :: 0 <= k < |CropData.daysInPhase| ==> CropData.daysInPhase[k] >= 0) ==> d >= 0
    {
      if forall k :: 0 <= k < |CropData.daysInPhase| ==> CropData.daysInPhase[k] >= 0 then
        Seqs.SumNonNegative(CropData.daysInPhase);
        Seqs.Sum(CropData.daysInPhase)
      else Seqs.Sum(CropData.daysInPhase)
    }

    function MinHarvests(): (n: int)
      ensures n == CropData.harvestMinStack
    {
      CropData.harvestMinStack
    }

    /** MaxHarvests: HarvestMaxStack here, where CropData copies HarvestMinStack. */
    function MaxHarvests(): (n: int)
      ensures n == CropData.harvestMaxStack
    {
      CropData.harvestMaxStack
    }

    function DisplayName(): (s: string)
      ensures s == Item.DisplayName
    {
      Item.DisplayName
    }

    /**
     * Equals: the other object is a CropDataExpanded (None stands for null or
     * an object of another type) with the same harvest item id, the same
     * sprite index and the very same seed object.
     */
    predicate Equals(other: Option<CropDataExpanded>): (r: bool)
      reads this, if other.Some? then {other.value} else {}
      ensures other.None? ==> !r
      ensures other == Some(this) ==> r
    {
      other.Some? && other.value.CropData.harvestItemId == CropData.harvestItemId
      && other.value.CropData.spriteIndex == CropData.spriteIndex && other.value.Seed == Seed
    }

    /** The three field hashes: the harvest item id's string hash, the sprite index (an int hashes to itself) and the seed name's string hash. */
    function HashFields(stringHash: string -> bv32): (fields: seq<bv32>)
      ensures |fields| == 3
    {
      [stringHash(CropData.harvestItemId), Numeric.BitsOf(CropData.spriteIndex), stringHash(Seed.Name)]
    }

    /** The hash code that GetHashCode computes. */
    function HashOf(stringHash: string -> bv32): (h: int)
      ensures Numeric.IsInt32(h)
    {
      Numeric.SignedOf(Fnv(HashFields(stringHash)))
    }

    /** GetHashCode: the FNV fold, step by step, read back as an int. */
    method GetHashCode(stringHash: string -> bv32) returns (hash: int)
      ensures hash == HashOf(stringHash)
    {
      var fields := HashFields(stringHash);
      var h := FnvOffset;
      assert h == Fnv(fields[..0]);
      h := FnvStep(h, stringHash(CropData.harvestItemId));
      assert fields[..1][..0] == fields[..0];
      assert h == Fnv(fields[..1]);
      h := FnvStep(h, Numeric.BitsOf(CropData.spriteIndex));
      assert fields[..2][..1] == fields[..1];
      assert h == Fnv(fields[..2]);
      h := FnvStep(h, stringHash(Seed.Name));
      assert fields[..3][..2] == fields[..2];
      assert fields[..3] == fields;
      hash := Numeric.SignedOf(h);
    }

    /** ToString: the harvest item id, the sprite index and the seed's display name, labelled. */
    function ToString(): (s: string)
      ensures s == "CropData: " + CropData.harvestItemId + ", SpriteIndex: " + Text.IntText(CropData.spriteIndex)
                   + ", Seed: " + Seed.DisplayName
    {
      "CropData: " + CropData.harvestItemId + ", SpriteIndex: " + Text.IntText(CropData.spriteIndex) + ", Seed: " + Seed.DisplayName
    }

    function GetAverageGrowthSpeedValueForCrop(fertilizerQuality: int, w: Settings.World): (speed: real)
      ensures speed == P.GrowthSpeed(AffectByFertilizer, fertilizerQuality, CropData.isPaddyCrop, w.player.agriculturist)
      ensures !AffectByFertilizer && Days() >= 0 ==> P.GrowingDays(Days(), speed) == 1
    {
      var speed := P.GrowthSpeed(AffectByFertilizer, fertilizerQuality, CropData.isPaddyCrop, w.player.agriculturist);
      if !AffectByFertilizer && Days() >= 0 then
        P.GrowingDaysAtFullSpeed(Days(), speed);
        speed
      else speed
    }

    function IsAvailableForCurrentSeason(currentSeason: int): (b: bool)
      ensures b <==> exists k :: 0 <= k < |CropData.seasons| && Game.Ordinal(CropData.seasons[k]) == currentSeason
    {
      P.IsAvailable(CropData.seasons, currentSeason)
    }

    method TotalAvailableDays(currentSeason: int, day: int) returns (total: int)
      ensures total == P.AvailableDays(CropData.seasons, currentSeason, day)
    {
      total := P.CountAvailableDays(CropData.seasons, currentSeason, day);
    }

    /**
     * The harvests in the days left, by the formula CropData uses; a crop the
     * fertilizer does not affect and that does not regrow is harvested every
     * available day.
     */
    function TotalHarvestsWithRemainingDays(currentSeason: int, fertilizerQuality: int, day: int, w: Settings.World): (h: int)
      ensures h == P.Harvests(IsAvailableForCurrentSeason(currentSeason) || currentSeason == Utils.Greenhouse,
                              P.AvailableDays(CropData.seasons, currentSeason, day),
                              P.GrowingDays(Days(), GetAverageGrowthSpeedValueForCrop(fertilizerQuality, w)),
                              CropData.regrowDays)
      ensures !AffectByFertilizer && Days() >= 0 && CropData.regrowDays <= 0
              && (IsAvailableForCurrentSeason(currentSeason) || currentSeason == Utils.Greenhouse)
              && P.AvailableDays(CropData.seasons, currentSeason, day) >= 1
        ==> h == P.AvailableDays(CropData.seasons, currentSeason, day)
    {
      var mayGrow := IsAvailableForCurrentSeason(currentSeason) || currentSeason == Utils.Greenhouse;
      var available := P.AvailableDays(CropData.seasons, currentSeason, day);
      var growing := P.GrowingDays(Days(), GetAverageGrowthSpeedValueForCrop(fertilizerQuality, w));
      if mayGrow && available >= growing && CropData.regrowDays <= 0 then
        P.HarvestsFitOnce(available, growing, CropData.regrowDays);
        P.Harvests(mayGrow, available, growing, CropData.regrowDays)
      else P.Harvests(mayGrow, available, growing, CropData.regrowDays)
    }

    /** The extra crops for the player's level; without a level bonus they lie between Min and Max. */
    function ExtraCropsFromFarmingLevel(w: Settings.World): (n: int)
      ensures !(MinHarvests() > 1 || MaxHarvests() > 1) ==> n == MinHarvests()
      ensures 0 <= MinHarvests() <= MaxHarvests() && CropData.harvestMaxIncreasePerFarmingLevel <= 0.0 ==>
        MinHarvests() <= n <= MaxHarvests()
    {
      var n := P.ExtraCrops(MinHarvests(), MaxHarvests(), CropData.harvestMaxIncreasePerFarmingLevel, w.player.farmingLevel);
      if 0 <= MinHarvests() <= MaxHarvests() && CropData.harvestMaxIncreasePerFarmingLevel <= 0.0 then
        P.ExtraCropsBetweenMinAndMax(MinHarvests(), MaxHarvests(), CropData.harvestMaxIncreasePerFarmingLevel,
                                     w.player.farmingLevel);
        n
      else n
    }

    function AverageExtraCropsFromRandomness(): (x: real)
      ensures x == CropData.extraHarvestChance
    {
      CropData.extraHarvestChance
    }
  }

  /** Equals is reflexive. */
  lemma EqualsReflexive(a: CropDataExpanded)
    ensures a.Equals(Some(a))
  {
  }

  /** Equals is symmetric. */
  lemma EqualsSymmetric(a: CropDataExpanded, b: CropDataExpanded)
    requires a.Equals(Some(b))
    ensures b.Equals(Some(a))
  {
  }

  /** Equals is transitive. */
  lemma EqualsTransitive(a: CropDataExpanded, b: CropDataExpanded, c: CropDataExpanded)
    requires a.Equals(Some(b)) && b.Equals(Some(c))
    ensures a.Equals(Some(c))
  {
  }

  /** Equal wrappers have equal hash codes: the seed is the same object, so its name hashes alike. */
  lemma EqualObjectsHaveEqualHashes(a: CropDataExpanded, b: CropDataExpanded, stringHash: string -> bv32)
    requires a.Equals(Some(b))
    ensures a.HashOf(stringHash) == b.HashOf(stringHash)
  {
    assert a.HashFields(stringHash) == b.HashFields(stringHash);
  }
}
