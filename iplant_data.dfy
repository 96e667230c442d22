/**
 * The plant interface's one implemented member, the days left in the
 * current season, and the behaviour its documentation promises for the
 * cost figures. The documented behaviour serves as a reference that the
 * plant classes are compared against.
 */
module IPlantData {
  import Numeric
  import Utils

  /** TotalAvailableDaysInCurrentSeason: what remains of a 28-day season from `day` on. */
  function TotalAvailableDaysInCurrentSeason(day: int): (d: int)
    ensures d + day == Utils.DaysPerSeason
  {
    28 - day
  }

  /** Documented: the total divided by the total available days. */
  function DocumentedPerDay(total: real, days: int): real
    requires days != 0
  {
    total / days as real
  }

  /** Documented: one bag in the greenhouse or for a one-season crop, else the available days over 28, rounded up. */
  function DocumentedFertilizerNeeded(season: int, seasonCount: int, availableDays: int): int
  {
    if season == Utils.Greenhouse || seasonCount == 1 then 1
    else Numeric.Ceiling(availableDays as real / 28.0)
  }

  /** Documented: the bags needed times the price of one bag. */
  function DocumentedFertilizerCost(needed: int, fertilizerQuality: int): int
  {
    needed * Utils.FertilizerPrices(fertilizerQuality)
  }

  /** Documented: a regrowing crop needs one seed, any other crop one seed per harvest. */
  function DocumentedSeedsNeeded(regrowDays: int, harvests: int): int
  {
    if regrowDays > 0 then 1 else harvests
  }
}
