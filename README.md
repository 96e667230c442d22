# Profit Calculator, CoreUtils and UIFramework — a Dafny model

This project models the core of three Stardew Valley mods and one helper
script, and proves properties of the model.

- **ProfitCalculator** estimates how much money each crop, fruit tree and
  custom bush earns over the rest of a season. The estimate takes the
  player's settings into account: season, day, fertilizer, whether seeds
  and fertilizer are paid for, and the produce price multipliers.
  - Plant classes (`PlantData`, `CropData`, `TreeData`, `CustomBushData`,
    `CropDataExpanded`) compute available days, harvests, seed and
    fertilizer needs, costs, quality chances and profit from their drop
    tables (`DropInformation`, `DropInformations`).
  - The `Calculator` keeps the settings and a registry of plants, and
    returns `CropInfo` rows sorted by profit per day.
  - The shop accessors look up seed prices from the game's shop stock,
    through a `Cache`.
  - The builders fill the plant registries.
  - The option widgets (`UIntOption`, `TextOption`, `DropdownOption`,
    `CheckboxOption`, `BaseOption`) edit the settings.
  - The results list pages through the calculated crops, six at a time.
- **CoreUtils** contributes the `Cache<T>` state machine. ProfitCalculator
  has an older variant of it and of the type-keyed `Container` registry.
- **UIFramework** is a small menu framework:
  - menus with components and submenus, click routing, and placing a
    submenu next to an anchor inside the viewport;
  - clickable components and buttons;
  - the `StardewUIAPI` registries of menus, components, layouts and
    hotkeys, with key-press routing.
- **Others/GenerateDropDownOptions.py** generates the evenly spaced values a
  dropdown offers and writes them to a file as a JSON array.

State the source mutates in place becomes a Dafny `class` with `modifies`
clauses. This covers the caches, the containers, the calculator, the drop
tables, the option widgets, the menus and the UI API. Loops become methods
proved against specification functions. Formulas, records and lookups
become datatypes, functions and lemmas.

Everything the mods read from the game is an input of the model:
- the day and season, professions and farming level;
- object data and prices, crop and tree assets;
- shop item queries;
- mouse position and viewport.

Modules map to files one to one:
- `numeric.dfy`: the .NET integer, cast and rounding conventions;
- `wrappers.dfy`: `Option` and exceptions as values;
- `settings.dfy`: what the plant classes read from the registered
  calculator and the game;
- every other file: one source file or a small family of them, as its
  header comment says.

Where the code and its design documentation disagree, the model follows
the code. Two places where they disagree:
- The comment in the dropdown script says "truncate to 3 decimal places",
  but the code rounds (`FormatRounds`).
- The plant interface documents the seeds needed as one for a regrowing
  plant and one per harvest otherwise. The code needs none for a regrowing
  plant with no days left (`PlantData.SeedsNeededAsDocumented`).

## Model

| member | source | states |
|---|---|---|
| Utils.GetSeasonDays | ProfitCalculator/Utils.cs:22-33 | each outdoor season lasts 28 days; a value that names no season lasts 0 |
| Utils.GreenhouseIsWholeYear | ProfitCalculator/Utils.cs:22-33 | the greenhouse's 112 days are the four outdoor seasons together |
| Utils.FertilizerPrices | ProfitCalculator/Utils.cs:187-200 | fertilizers of tier 1-3, growth or quality, cost 50 × (tier + 1); any other value costs 0 |
| Utils.SeasonFromUtilsSeason | ProfitCalculator/Utils.cs:208-219 | throws NotSupported exactly for Greenhouse; an outdoor season keeps its ordinal; an unknown value gives Spring |
| Utils.SeasonRoundTrip | ProfitCalculator/Utils.cs:208-219 | every game season comes back from the UtilsSeason with its ordinal |
| Utils.NamesInUnsignedOrder | ProfitCalculator/Utils.cs:38-96 | the name lists follow the constants' order read as uint, so the negative growth fertilizers come last |
| Utils.EnumText | ProfitCalculator/Utils.cs:114 | a named value prints as its name, any other as its decimal value |
| Utils.GetTranslatedName | ProfitCalculator/Utils.cs:99-105 | "Error" without a mod helper, otherwise the translation of the lower-cased name |
| Utils.GetTranslatedSeason | ProfitCalculator/Utils.cs:112-115 | "Error" without a mod helper; a named season translates as its name, and an unnamed value as its decimal text |
| Utils.GetTranslatedProduceType | ProfitCalculator/Utils.cs:122-125 | "Error" without a mod helper; a named produce type translates as its name, and an unnamed value as its decimal text |
| Utils.GetTranslatedFertilizerQuality | ProfitCalculator/Utils.cs:132-135 | "Error" without a mod helper; a named fertilizer quality translates as its name, and an unnamed value as its decimal text |
| Utils.TranslatedFertilizerQualityByName | ProfitCalculator/Utils.cs:132-135 | a named fertilizer quality translates as its name does |
| Utils.TranslateAll | ProfitCalculator/Utils.cs:143-149 | a new array as long as the names, each slot holding the translation of the name at that index |
| Utils.GetAllTranslatedSeasons | ProfitCalculator/Utils.cs:141-150 | one translation per season name, in name order |
| Utils.GetAllTranslatedProduceTypes | ProfitCalculator/Utils.cs:156-165 | one translation per produce-type name, in name order |
| Utils.GetAllTranslatedFertilizerQualities | ProfitCalculator/Utils.cs:171-180 | one translation per fertilizer-quality name, in name order |
| DropInformation.Price | ProfitCalculator/main/models/DropInformation.cs:45-59 | a drop sells for its item's store price when it has no season, in the greenhouse, or in its own season; otherwise for 0 |
| DropInformation.SeasonalDropPrice | ProfitCalculator/main/models/DropInformation.cs:53-58 | a seasonal drop sells outdoors only in its season, and a value naming no season counts as Spring |
| DropInformation.AveragePriceAppend | ProfitCalculator/main/models/DropInformation.cs:184-187 | the expected value of two drop lists joined is the sum of their expected values |
| DropInformation.AveragePrice | ProfitCalculator/main/models/DropInformation.cs:184-187 | the sum of price × chance × quantity over the drops: 0 for no drops, and never negative when no price, chance or quantity is |
| DropInformation.AveragePriceNothingSells | ProfitCalculator/main/models/DropInformation.cs:184-187 | when no drop sells in the season, the expected value is 0 |
| DropInformation.RemoveAll | ProfitCalculator/main/models/DropInformation.cs:127-130 | no drop of the item is left, and nothing is added |
| DropInformation.RemoveAllKeepsOthers | ProfitCalculator/main/models/DropInformation.cs:127-130 | every drop of another item keeps its multiplicity |
| DropInformation.RemoveAllSingle | ProfitCalculator/main/models/DropInformation.cs:127-130 | on one drop: a drop of the item goes, any other stays |
| DropInformation.RemoveAllAppend | ProfitCalculator/main/models/DropInformation.cs:127-130 | the drops left of a concatenation are those left of each part, in turn, so the remaining drops keep their order |
| DropInformation.RemoveAllKeepsFirst | ProfitCalculator/main/models/DropInformation.cs:127-130 | a first drop of another item stays the first drop |
| DropInformation.DropInformation.Empty | ProfitCalculator/main/models/DropInformation.cs:83-88 | an empty name and no drops |
| DropInformation.DropInformation.constructor | ProfitCalculator/main/models/DropInformation.cs:70-78 | the name and the drops given |
| DropInformation.DropInformation.FromLists | ProfitCalculator/main/models/DropInformation.cs:70-78 | one drop per item, zipped with its quantity and chance; a quantity or chance list shorter than the items throws ArgumentOutOfRange |
| DropInformation.DropInformation.AddItem | ProfitCalculator/main/models/DropInformation.cs:104-107 | one unseasonal drop appended |
| DropInformation.DropInformation.AddRange | ProfitCalculator/main/models/DropInformation.cs:115-121 | the zipped drops appended up to the first missing quantity or chance, where it throws ArgumentOutOfRange with the earlier ones kept |
| DropInformation.DropInformation.RemoveItem | ProfitCalculator/main/models/DropInformation.cs:127-130 | every drop of the item removed, the others kept in order |
| DropInformation.DropInformation.TableAveragePrice | ProfitCalculator/main/models/DropInformation.cs:184-187 | the average price of the table's drops in the season, 0 for an empty table |
| DropInformation.DropInformation.RemoveItemAt | ProfitCalculator/main/models/DropInformation.cs:136-139 | the drop at the index removed; an index outside the list throws ArgumentOutOfRange and changes nothing |
| DropInformation.DropInformation.Clear | ProfitCalculator/main/models/DropInformation.cs:144-147 | no drops left, the name kept |
| DropInformation.DropInformation.UpdateItem | ProfitCalculator/main/models/DropInformation.cs:156-165 | the first drop of the old item gets the new quantity, chance and item, keeping its season; a missing item throws ArgumentOutOfRange |
| DropInformation.DropInformation.UpdateItemAt | ProfitCalculator/main/models/DropInformation.cs:173-177 | the drop at the index gets the new quantity and chance; an index outside the list throws ArgumentOutOfRange |
| DropInformations.DropInformations.constructor | ProfitCalculator/main/models/DropInformations.cs:34-40 | the name and the three list objects given, shared and not copied |
| DropInformations.DropInformations.AddItem | ProfitCalculator/main/models/DropInformations.cs:80-85 | the item, quantity and chance appended to their lists, keeping the lists parallel |
| DropInformations.DropInformations.AddRange | ProfitCalculator/main/models/DropInformations.cs:92-98 | the three ranges appended; the lists stay parallel exactly when the ranges have one length |
| DropInformations.DropInformations.RemoveItemAt | ProfitCalculator/main/models/DropInformations.cs:114-119 | the entry at the index removed from the three lists in turn; the first list too short throws ArgumentOutOfRange after the earlier removals |
| DropInformations.DropInformations.RemoveItem | ProfitCalculator/main/models/DropInformations.cs:103-109 | the first entry of the item removed from the three lists; a missing item throws ArgumentOutOfRange |
| DropInformations.DropInformations.Clear | ProfitCalculator/main/models/DropInformations.cs:123-128 | the three lists emptied |
| DropInformations.DropInformations.UpdateItem | ProfitCalculator/main/models/DropInformations.cs:136-146 | the first entry of the old item gets the new quantity, chance and, when given, item; a missing item throws ArgumentOutOfRange |
| DropInformations.DropInformations.UpdateItemAt | ProfitCalculator/main/models/DropInformations.cs:153-157 | the entry at the index gets the new quantity and chance, items untouched; an index outside throws ArgumentOutOfRange |
| Settings.SeasonOf | ProfitCalculator/main/models/PlantData.cs:312 | the registered Calculator's season, Spring when none is registered |
| Settings.DayOf | ProfitCalculator/main/models/PlantData.cs:313-320 | the registered Calculator's uint day cast to int, 0 when none is registered; a day up to int.MaxValue is kept |
| Settings.FertilizerOf | ProfitCalculator/main/models/PlantData.cs:339 | the registered Calculator's fertilizer, None when none is registered |
| Settings.FarmingLevelOf | ProfitCalculator/main/models/PlantData.cs:434 | the registered Calculator's farming level, 0 when none is registered |
| IPlantData.TotalAvailableDaysInCurrentSeason | ProfitCalculator/main/models/IPlantData.cs:93-96 | the days left and the current day make up the 28-day season |
| PlantData.IsAvailable | ProfitCalculator/main/models/PlantData.cs:142-154 | available exactly when some listed season has the UtilsSeason's number |
| PlantData.AvailableDays | ProfitCalculator/main/models/PlantData.cs:162-183 | the whole 112-day year in the greenhouse; 0 in a season the plant does not grow in; otherwise the rest of the current season plus whole 28-day seasons |
| PlantData.CountAvailableDays | ProfitCalculator/main/models/PlantData.cs:162-183 | the loop over list positions after the season's number computes AvailableDays |
| PlantData.AvailableDaysCountsPositions | ProfitCalculator/main/models/PlantData.cs:169-176 | the count follows list positions, not the seasons that follow: a Summer-Fall crop in Summer gets only the rest of Summer |
| PlantData.AvailableDaysBounds | ProfitCalculator/main/models/PlantData.cs:162-183 | a crop of at most four seasons, on a day of the season, has between 0 and 112 days |
| PlantData.GrowthSpeed | ProfitCalculator/main/models/CropData.cs:136-165 | at least 1 for a crop fertilizer does not affect; with no speed fertilizer only the paddy and agriculturist bonuses; never above 1.35 |
| PlantData.GrowingDays | ProfitCalculator/main/models/PlantData.cs:208-211 | at least one day, and exactly Days less ceil(Days × speed) whenever that is above one |
| PlantData.GrowingDaysWithoutSpeed | ProfitCalculator/main/models/PlantData.cs:208-211 | with no speed bonus a plant takes max(Days, 1) days |
| PlantData.GrowingDaysAtFullSpeed | ProfitCalculator/main/models/PlantData.cs:208-211 | a speed of 1 or more leaves one growing day |
| PlantData.Harvests | ProfitCalculator/main/models/PlantData.cs:202-225 | no harvest when the plant may not grow or cannot ripen in time; at least one otherwise |
| PlantData.HarvestsFitRegrowing | ProfitCalculator/main/models/PlantData.cs:217-220 | a regrowing plant's count is the number of harvests that fit in the days, and one more would not |
| PlantData.HarvestsFitOnce | ProfitCalculator/main/models/PlantData.cs:221-222 | a plant that does not regrow fits exactly that many whole growing periods |
| PlantData.ExtraCrops | ProfitCalculator/main/models/PlantData.cs:231-246 | MinHarvests when neither Min nor Max exceeds one |
| PlantData.ExtraCropsBetweenMinAndMax | ProfitCalculator/main/models/PlantData.cs:235-245 | without a level bonus the count lies between MinHarvests and MaxHarvests |
| PlantData.FertilizerNeeded | ProfitCalculator/main/models/PlantData.cs:324-334 | one bag in the greenhouse or for a one-season plant, else the least number of 28-day bags covering the days, as documented |
| PlantData.FertilizerCost | ProfitCalculator/main/models/PlantData.cs:336-347 | nothing unless the player pays for fertilizer, else bags × bag price, never negative |
| PlantData.SeedsNeeded | ProfitCalculator/main/models/PlantData.cs:362-370 | one seed for a regrowing plant with days left |
| PlantData.SeedsNeededAsDocumented | ProfitCalculator/main/models/IPlantData.cs:153-157 | one seed for a regrowing plant and one per harvest otherwise, except a regrowing plant with no days, which needs none |
| PlantData.SeedsCost | ProfitCalculator/main/models/PlantData.cs:372-381 | nothing unless the player pays for seeds, else seeds × price; one seed costs the seed price |
| PlantData.PerDay | ProfitCalculator/main/models/PlantData.cs:349-360 | 0 for a zero amount, else amount / days, or an infinity of the amount's sign when there are no days |
| PlantData.PerDayTimesDays | ProfitCalculator/main/models/IPlantData.cs:129-133 | the per-day figure times the days gives back the amount |
| PlantData.QualityLevel | ProfitCalculator/main/models/PlantData.cs:435 | never negative and never below a quality fertilizer's value |
| PlantData.BaseGoldChance | ProfitCalculator/main/models/PlantData.cs:429-439 | never above the limit |
| PlantData.DeluxeChancesSumToOne | ProfitCalculator/main/models/PlantData.cs:441-463 | with deluxe fertilizer normal quality never happens and the four chances sum to 1 |
| PlantData.NoIridiumWithoutDeluxe | ProfitCalculator/main/models/PlantData.cs:453-463 | without deluxe fertilizer there is no iridium, and gold is the capped base gold chance |
| PlantData.BaseGoldInGameRange | ProfitCalculator/main/models/PlantData.cs:429-439 | for farming levels 0-10 the base gold chance lies in [0.01, 0.81] |
| PlantData.ChancesAreDistribution | ProfitCalculator/main/models/PlantData.cs:441-463 | whenever the base gold chance is a probability, the four chances are a probability distribution |
| PlantData.DeluxeChancesAreDistribution | ProfitCalculator/main/models/PlantData.cs:441-463 | the deluxe chances are a distribution |
| PlantData.PlainChancesAreDistribution | ProfitCalculator/main/models/PlantData.cs:441-463 | the chances without deluxe fertilizer are a distribution |
| PlantData.DeluxeShares | ProfitCalculator/main/models/PlantData.cs:450-462 | the deluxe split of a probability is a distribution |
| PlantData.PlainShares | ProfitCalculator/main/models/PlantData.cs:444-456 | the plain split of a probability is a distribution |
| PlantData.ValueMultiplier | ProfitCalculator/main/models/PlantData.cs:400-416 | NullReference without multipliers, IndexOutOfRange with fewer than four, a value otherwise |
| PlantData.ValueMultiplierBounds | ProfitCalculator/main/models/PlantData.cs:400-416 | with the default multipliers a distribution's multiplier lies between 1 and 2 |
| PlantData.ConstantChancesAreDistribution | ProfitCalculator/main/models/TreeData.cs:381-408 | the fixed quality chances of trees and bushes are a distribution |
| PlantData.ConstantChancesMultiplier | ProfitCalculator/main/models/TreeData.cs:350-366 | fixed all-normal chances make the multiplier the first price multiplier |
| PlantData.Round2 | ProfitCalculator/main/models/PlantData.cs:426 | within 0.005 of x, on a whole number of cents |
| PlantData.WholeCents | ProfitCalculator/main/models/PlantData.cs:426 | the nearest whole number of cents is within 0.005 |
| PlantData.AfterModifiers | ProfitCalculator/main/models/PlantData.cs:418-427 | within half a cent of the multiplier, times 1.1 with the tiller bonus |
| PlantData.ProfitPerHarvest | ProfitCalculator/main/models/PlantData.cs:286-305 | a quality-affected plant earns its price, raised by the tiller bonus. Any other plant fails exactly when the quality value does; otherwise it earns the price times the quality value for the first unit, plus (max(Min - 1, 0) + expected extra crops) times the price, raised by the tiller bonus |
| PlantData.CropProfit | ProfitCalculator/main/models/PlantData.cs:277-308 | fails exactly when the profit of one harvest does; otherwise it is one harvest's profit times the harvests, so 0 with no harvests |
| PlantData.TillerNeverLowersProfit | ProfitCalculator/main/models/PlantData.cs:302-305 | the tiller bonus never lowers a non-negative profit |
| PlantData.PlainProfit | ProfitCalculator/main/models/PlantData.cs:286-306 | reference case: with quality value 1.0, no extra crops and no tiller bonus, the profit is price × max(Min, 1) × harvests |
| PlantData.ProfitMonotoneInQuality | ProfitCalculator/main/models/PlantData.cs:292-306 | a higher quality value never lowers the profit of a non-negative price over a non-negative number of harvests |
| PlantData.PlantData.Init | ProfitCalculator/main/models/PlantData.cs:22-48 | the fields hold the arguments |
| PlantData.PlantData.New | ProfitCalculator/main/models/PlantData.cs:22-70 | stores the arguments; a drop table without drops throws ArgumentOutOfRange on its first drop |
| PlantData.PlantData.SeedPrice | ProfitCalculator/main/models/PlantData.cs:85-92 | the registered shop accessor's cheapest price for the seed's qualified id, 0 without one |
| PlantData.PlantData.Price | ProfitCalculator/main/models/PlantData.cs:122 | within 0.5 of the table's average price; a bush's override prices its own drops |
| PlantData.PlantData.GetAverageGrowthSpeedValueForCrop | ProfitCalculator/main/models/PlantData.cs:132-135 | a base plant's growing days are max(Days, 1): no speed bonus |
| PlantData.PlantData.IsAvailableForCurrentSeason | ProfitCalculator/main/models/PlantData.cs:142-154 | available exactly when a listed season has the number |
| PlantData.PlantData.TotalAvailableDays | ProfitCalculator/main/models/PlantData.cs:162-183 | the result is AvailableDays |
| PlantData.PlantData.TotalHarvestsWithRemainingDays | ProfitCalculator/main/models/PlantData.cs:202-225 | Harvests with growing days max(Days, 1), when the plant is in season or in the greenhouse |
| PlantData.PlantData.ExtraCropsFromFarmingLevel | ProfitCalculator/main/models/PlantData.cs:231-246 | MinHarvests when neither Min nor Max exceeds one |
| PlantData.PlantData.AverageExtraCropsFromRandomness | ProfitCalculator/main/models/PlantData.cs:252-271 | the chance for extra crops itself |
| PlantData.PlantData.QualityChancesFor | ProfitCalculator/main/models/PlantData.cs:429-463 | the chances for the registered fertilizer and farming level |
| PlantData.PlantData.GetAverageValueMultiplierForCrop | ProfitCalculator/main/models/PlantData.cs:400-416 | NullReference without a registered calculator, else ValueMultiplier over its multipliers |
| PlantData.PlantData.GetAverageValueForCropAfterModifiers | ProfitCalculator/main/models/PlantData.cs:418-427 | fails exactly when the multiplier does, else AfterModifiers of it |
| PlantData.PlantData.TotalCropProfit | ProfitCalculator/main/models/PlantData.cs:277-308 | the CropProfit of the plant's price, quality value, Min, extra crops and tiller bonus over its harvests: one harvest's profit times the harvests; never fails for a quality-affected plant and is 0 with no harvests |
| PlantData.PlantData.TotalCropProfitPerDay | ProfitCalculator/main/models/PlantData.cs:310-322 | fails exactly when the profit does, else PerDay of it over the available days |
| PlantData.PlantData.TotalFertilizerNeeded | ProfitCalculator/main/models/PlantData.cs:324-334 | the documented count of bags |
| PlantData.PlantData.TotalFertilizerCost | ProfitCalculator/main/models/PlantData.cs:336-347 | 0 unless paying for fertilizer, else the documented cost of the bags |
| PlantData.PlantData.TotalFertilzerCostPerDay | ProfitCalculator/main/models/PlantData.cs:349-360 | PerDay of the fertilizer cost |
| PlantData.PlantData.TotalSeedsNeeded | ProfitCalculator/main/models/PlantData.cs:362-370 | the documented count, except none for a regrowing plant with no days |
| PlantData.PlantData.TotalSeedsCost | ProfitCalculator/main/models/PlantData.cs:372-381 | 0 unless paying for seeds, else seeds × seed price |
| PlantData.PlantData.TotalSeedsCostPerDay | ProfitCalculator/main/models/PlantData.cs:383-394 | PerDay of the seed cost |
| CropData.QualityChancesIn | ProfitCalculator/main/models/CropData.cs:469-507 | the shared quality chances for the registered fertilizer and level; a distribution for levels 0-10; no normal quality with deluxe fertilizer and no iridium without it |
| CropData.CropData.Init | ProfitCalculator/main/models/CropData.cs:87-104 | the fields copied from the game's crop record, Max set to the Min stack, the name taken from the first drop |
| CropData.CropData.New | ProfitCalculator/main/models/CropData.cs:87-126 | builds the crop; a table without drops throws ArgumentOutOfRange |
| CropData.CropData.SeedPrice | ProfitCalculator/main/models/CropData.cs:67-74 | the registered shop accessor's cheapest price for the seed |
| CropData.CropData.Price | ProfitCalculator/main/models/CropData.cs:77 | within 0.5 of the table's average price |
| CropData.CropData.GetAverageGrowthSpeedValueForCrop | ProfitCalculator/main/models/CropData.cs:136-165 | the shared growth speed with the paddy and agriculturist bonuses; a crop fertilizer does not affect grows in one day |
| CropData.CropData.IsAvailableForCurrentSeason | ProfitCalculator/main/models/CropData.cs:172-184 | available exactly when a listed season has the number |
| CropData.CropData.TotalAvailableDays | ProfitCalculator/main/models/CropData.cs:192-213 | the result is AvailableDays |
| CropData.CropData.GrowingDays | ProfitCalculator/main/models/CropData.cs:240-241 | at least one day, exactly one for a crop fertilizer does not affect |
| CropData.CropData.TotalHarvestsWithRemainingDays | ProfitCalculator/main/models/CropData.cs:232-255 | Harvests with this crop's growing days; a crop fertilizer does not affect and that does not regrow is harvested on every available day |
| CropData.CropData.ExtraCropsFromFarmingLevel | ProfitCalculator/main/models/CropData.cs:261-276 | MinHarvests when neither Min nor Max exceeds one, and always MinHarvests without a level bonus since the constructor makes Max equal Min |
| CropData.CropData.AverageExtraCropsFromRandomness | ProfitCalculator/main/models/CropData.cs:282-301 | the chance for extra crops itself |
| CropData.CropData.GetAverageValueMultiplierForCrop | ProfitCalculator/main/models/CropData.cs:438-454 | ValueMultiplier of the crop's quality chances over the default multipliers {1.0, 1.25, 1.5, 2.0} without a registered calculator, giving a value in [1, 2], or over the registered ones; fails exactly when the registered multipliers are fewer than four |
| CropData.CropData.GetAverageValueForCropAfterModifiers | ProfitCalculator/main/models/CropData.cs:457-466 | fails exactly when the multiplier does, else AfterModifiers of it |
| CropData.CropData.TotalCropProfit | ProfitCalculator/main/models/CropData.cs:308-339 | the shared CropProfit with this crop's inputs; fails only when the quality value is used and the registered multipliers are too few; 0 with no harvests |
| CropData.CropData.TotalCropProfitPerDay | ProfitCalculator/main/models/CropData.cs:342-353 | PerDay of the profit over the available days |
| CropData.CropData.TotalFertilizerNeeded | ProfitCalculator/main/models/CropData.cs:356-366 | the documented count of bags |
| CropData.CropData.TotalFertilizerCost | ProfitCalculator/main/models/CropData.cs:369-380 | 0 unless paying for fertilizer, else the documented cost |
| CropData.CropData.TotalFertilzerCostPerDay | ProfitCalculator/main/models/CropData.cs:383-394 | PerDay of the fertilizer cost |
| CropData.CropData.TotalSeedsNeeded | ProfitCalculator/main/models/CropData.cs:397-405 | the documented count, except none for a regrowing crop with no days |
| CropData.CropData.TotalSeedsCost | ProfitCalculator/main/models/CropData.cs:408-417 | 0 unless paying for seeds, else seeds × seed price |
| CropData.CropData.TotalSeedsCostPerDay | ProfitCalculator/main/models/CropData.cs:420-431 | PerDay of the seed cost |
| CropDataExpanded.CropDataExpanded.constructor | ProfitCalculator/main/CropDataExpanded.cs:47-54 | the record, items and flags stored; the seed price looked up once through the shop accessor |
| CropDataExpanded.CropDataExpanded.Price | ProfitCalculator/main/CropDataExpanded.cs:71 | the harvested item's store price |
| CropDataExpanded.CropDataExpanded.Days | ProfitCalculator/main/CropDataExpanded.cs:75 | the sum of the phase lengths, never negative when no phase is |
| CropDataExpanded.CropDataExpanded.MinHarvests | ProfitCalculator/main/CropDataExpanded.cs:82 | the record's minimum stack |
| CropDataExpanded.CropDataExpanded.MaxHarvests | ProfitCalculator/main/CropDataExpanded.cs:85 | the record's maximum stack, unlike CropData's copy of the minimum |
| CropDataExpanded.CropDataExpanded.DisplayName | ProfitCalculator/main/CropDataExpanded.cs:94 | the harvested item's display name |
| CropDataExpanded.CropDataExpanded.HashFields | ProfitCalculator/main/CropDataExpanded.cs:138-140 | three field hashes feed the fold |
| CropDataExpanded.CropDataExpanded.HashOf | ProfitCalculator/main/CropDataExpanded.cs:130-144 | the FNV-1a fold with 32-bit wrap-around, read back as an int |
| CropDataExpanded.CropDataExpanded.GetHashCode | ProfitCalculator/main/CropDataExpanded.cs:130-144 | the step-by-step fold computes HashOf |
| CropDataExpanded.CropDataExpanded.ToString | ProfitCalculator/main/CropDataExpanded.cs:119-124 | the harvest item id, sprite index and seed name, labelled |
| CropDataExpanded.CropDataExpanded.GetAverageGrowthSpeedValueForCrop | ProfitCalculator/main/CropDataExpanded.cs:154-183 | the shared growth speed; a crop fertilizer does not affect grows in one day |
| CropDataExpanded.CropDataExpanded.IsAvailableForCurrentSeason | ProfitCalculator/main/CropDataExpanded.cs:190-202 | available exactly when a listed season has the number |
| CropDataExpanded.CropDataExpanded.TotalAvailableDays | ProfitCalculator/main/CropDataExpanded.cs:210-231 | the result is AvailableDays |
| CropDataExpanded.CropDataExpanded.TotalHarvestsWithRemainingDays | ProfitCalculator/main/CropDataExpanded.cs:250-273 | Harvests with this crop's growing days; a crop fertilizer does not affect and that does not regrow is harvested on every available day |
| CropDataExpanded.CropDataExpanded.ExtraCropsFromFarmingLevel | ProfitCalculator/main/CropDataExpanded.cs:279-294 | MinHarvests when neither Min nor Max exceeds one; between Min and Max without a level bonus |
| CropDataExpanded.CropDataExpanded.AverageExtraCropsFromRandomness | ProfitCalculator/main/CropDataExpanded.cs:300-319 | the record's extra-harvest chance |
| CropDataExpanded.EqualsReflexive | ProfitCalculator/main/CropDataExpanded.cs:103-113 | Equals is reflexive |
| CropDataExpanded.CropDataExpanded.Equals | ProfitCalculator/main/CropDataExpanded.cs:103-113 | null or another type is never equal, and an object equals itself |
| CropDataExpanded.EqualsSymmetric | ProfitCalculator/main/CropDataExpanded.cs:103-113 | Equals is symmetric |
| CropDataExpanded.EqualsTransitive | ProfitCalculator/main/CropDataExpanded.cs:103-113 | Equals is transitive |
| CropDataExpanded.EqualObjectsHaveEqualHashes | ProfitCalculator/main/CropDataExpanded.cs:103-144 | equal crops have equal hash codes |
| BushDrops.Price | ProfitCalculator/main/models/CustomBushData.cs:31-43 | 0 for a bush without drops; otherwise the truncation of the summed expected drop prices |
| BushDrops.PriceSumNothingCounted | ProfitCalculator/main/models/CustomBushData.cs:39-42 | a bush with no drop counted in the season is worth nothing then |
| BushDrops.GreenhouseSumDominates | ProfitCalculator/main/models/CustomBushData.cs:31-43 | with non-negative prices and chances the greenhouse price, over every drop, is at least the price in any one season |
| CustomBushData.New | ProfitCalculator/main/models/CustomBushData.cs:51-70 | construction as written always throws ArgumentOutOfRange: the base constructor reads the first drop of the empty table it is given |
| CustomBushData.NewCorrected | ProfitCalculator/main/models/CustomBushData.cs:51-70 | the bush built with its fixed regrowth of one day, one harvest, no quality or fertilizer effect, and its price taken from its own drops |
| CustomBushData.GetAverageGrowthSpeedValueForCrop | ProfitCalculator/main/models/CustomBushData.cs:80-104 | the crop growth speed without the paddy bonus: at least 1 when fertilizer does not affect the bush, only the agriculturist bonus without a speed fertilizer |
| CustomBushData.FirstSeasonDays | ProfitCalculator/main/models/CustomBushData.cs:196-205 | the days left after growing when at least a producing season, a whole producing season when fewer but some remain, else none |
| CustomBushData.AvailableGrowingDays | ProfitCalculator/main/models/CustomBushData.cs:184-215 | the first season plus three producing seasons in the greenhouse, else one per further listed season |
| CustomBushData.CountAvailableGrowingDays | ProfitCalculator/main/models/CustomBushData.cs:184-215 | the branches and the loop over further seasons compute AvailableGrowingDays |
| CustomBushData.FirstSeasonCanExceedRemainingDays | ProfitCalculator/main/models/CustomBushData.cs:198-205 | a bush grown with 8 days left is credited a 28-day producing season |
| CustomBushData.FirstSeasonAtLeastProducingSeason | ProfitCalculator/main/models/CustomBushData.cs:196-205 | once grown in time, the first season counts at least a producing season and at least the days left |
| CustomBushData.Harvests | ProfitCalculator/main/models/CustomBushData.cs:171-182 | none out of season; a zero regrowth throws DivideByZero; otherwise the number of whole regrowth periods in the available days |
| CustomBushData.TotalHarvestsWithRemainingDays | ProfitCalculator/main/models/CustomBushData.cs:171-182 | Harvests over this bush's available growing days when in season or in the greenhouse |
| CustomBushData.HarvestsOncePerDay | ProfitCalculator/main/models/CustomBushData.cs:171-182 | with the constructor's regrowth of one day a bush in season harvests once per available day |
| CustomBushData.GetAverageValueMultiplierForCrop | ProfitCalculator/main/models/CustomBushData.cs:363-379 | 1 without a calculator, the first registered multiplier with four or more, IndexOutOfRange with fewer |
| CustomBushData.GetAverageValueForCropAfterModifiers | ProfitCalculator/main/models/CustomBushData.cs:382-391 | fails exactly when the multiplier does, else AfterModifiers of it |
| CustomBushData.TotalCropProfit | ProfitCalculator/main/models/CustomBushData.cs:254-264 | fails exactly when the harvest count does; otherwise the bush's price in the season times its harvests |
| CustomBushData.TotalCropProfitPerDay | ProfitCalculator/main/models/CustomBushData.cs:267-278 | fails exactly when the profit does, else PerDay of it |
| CustomBushData.TotalSeedsNeeded | ProfitCalculator/main/models/CustomBushData.cs:322-330 | one seed for a regrowing bush with days left, else the harvest count |
| CustomBushData.TotalSeedsCost | ProfitCalculator/main/models/CustomBushData.cs:333-342 | 0 unless paying for seeds; fails exactly when the seed count does; else seeds × seed price |
| CustomBushData.TotalSeedsCostPerDay | ProfitCalculator/main/models/CustomBushData.cs:345-356 | fails exactly when the seed cost does, else PerDay of it |
| CustomBushData.HiddenHarvestsDifferFromBase | ProfitCalculator/main/models/CustomBushData.cs:171-215 | the bush's own harvest count (28) differs from the base count the calculator runs (9) for the same bush |
| TreeData.Harvests | ProfitCalculator/main/models/TreeData.cs:195-214 | none out of season or with negative days; one plus one per regrowth period otherwise; a tree that does not regrow divides by its zero growing days and throws DivideByZero |
| TreeData.PerDay | ProfitCalculator/main/models/TreeData.cs:256-265 | 0 for a profit within 0.0001 of zero, else the shared PerDay |
| TreeData.ScaledProfit | ProfitCalculator/main/models/TreeData.cs:239-253 | the average price times the harvests, times 1.1 with the tiller bonus, never below the unscaled profit |
| TreeData.TreeData.Init | ProfitCalculator/main/models/TreeData.cs:77-92 | the record's seasons, the seed, the table and the first drop's name |
| TreeData.TreeData.New | ProfitCalculator/main/models/TreeData.cs:77-115 | builds the tree; a table without drops throws ArgumentOutOfRange |
| TreeData.TreeData.SeedPrice | ProfitCalculator/main/models/TreeData.cs:64-68 | the registered shop accessor's cheapest price for the sapling |
| TreeData.TreeData.GetAverageGrowthSpeedValueForCrop | ProfitCalculator/main/models/TreeData.cs:125-128 | no speed bonus: a tree grows in its days |
| TreeData.TreeData.IsAvailableForCurrentSeason | ProfitCalculator/main/models/TreeData.cs:135-147 | available exactly when a listed season has the number |
| TreeData.TreeData.TotalAvailableDays | ProfitCalculator/main/models/TreeData.cs:155-176 | the result is AvailableDays |
| TreeData.TreeData.TotalHarvestsWithRemainingDays | ProfitCalculator/main/models/TreeData.cs:195-214 | never throws with the fixed regrowth of one day: every available day and once more when the tree may grow |
| TreeData.TreeData.GreenhouseHarvests | ProfitCalculator/main/models/TreeData.cs:195-214 | 113 harvests in the greenhouse |
| TreeData.TreeData.ExtraCropsFromFarmingLevel | ProfitCalculator/main/models/TreeData.cs:220-223 | no extra crops |
| TreeData.TreeData.AverageExtraCropsFromRandomness | ProfitCalculator/main/models/TreeData.cs:229-232 | no extra crops from randomness |
| TreeData.TreeData.GetAverageValueMultiplierForCrop | ProfitCalculator/main/models/TreeData.cs:350-366 | 1 without a calculator, the first registered multiplier with four or more, IndexOutOfRange with fewer |
| TreeData.TreeData.GetAverageValueForCropAfterModifiers | ProfitCalculator/main/models/TreeData.cs:369-378 | fails exactly when the multiplier does, else AfterModifiers of it |
| TreeData.TreeData.TotalCropProfit | ProfitCalculator/main/models/TreeData.cs:239-253 | ScaledProfit of the average price over the harvests, never below the unscaled profit for a non-negative price |
| TreeData.TreeData.AveragePrice | ProfitCalculator/main/models/TreeData.cs:239-253 | the drop table's average price in the calculator's season, 0 for an empty table |
| TreeData.TreeData.TotalHarvests | ProfitCalculator/main/models/TreeData.cs:195-214 | no harvest out of season outside the greenhouse, and 113 in the greenhouse |
| TreeData.TreeData.TotalCropProfitPerDay | ProfitCalculator/main/models/TreeData.cs:256-265 | the tree's PerDay of the profit over the available days |
| TreeData.TreeData.TotalFertilizerNeeded | ProfitCalculator/main/models/TreeData.cs:268-278 | the documented count of bags |
| TreeData.TreeData.TotalFertilizerCost | ProfitCalculator/main/models/TreeData.cs:281-292 | 0 unless paying for fertilizer, else the documented cost |
| TreeData.TreeData.TotalFertilzerCostPerDay | ProfitCalculator/main/models/TreeData.cs:295-306 | PerDay of the fertilizer cost |
| TreeData.TreeData.TotalSeedsNeeded | ProfitCalculator/main/models/TreeData.cs:309-317 | one sapling whenever days are left, none with negative days, else the harvests |
| TreeData.TreeData.TotalSeedsCost | ProfitCalculator/main/models/TreeData.cs:320-329 | 0 unless paying for seeds, else saplings × price |
| TreeData.TreeData.TotalSeedsCostPerDay | ProfitCalculator/main/models/TreeData.cs:332-343 | PerDay of the seed cost |
| CropInfo.New | ProfitCalculator/main/CropInfo.cs:87-107 | total and per-day profit are netted of seed and fertilizer losses (NaN propagates); every other field is stored as given |
| CropInfo.NettingRestoresGrossProfit | ProfitCalculator/main/CropInfo.cs:87-107 | adding the stored losses back to the netted profit gives the gross profit passed in |
| CropInfo.EqualsReflexiveWhenFinite | ProfitCalculator/main/CropInfo.cs:144-183 | a CropInfo whose doubles are all finite equals itself |
| CropInfo.Equals | ProfitCalculator/main/CropInfo.cs:144-183 | null or another type is never equal, and equal CropInfos have only finite doubles |
| CropInfo.NotFiniteNeverEqual | ProfitCalculator/main/CropInfo.cs:144-183 | a CropInfo with a NaN or infinite double equals nothing, not even itself |
| CropInfo.EqualsSymmetric | ProfitCalculator/main/CropInfo.cs:144-183 | the tolerance comparison is symmetric |
| CropInfo.EqualsNotTransitive | ProfitCalculator/main/CropInfo.cs:144-183 | the 0.0001 tolerance makes equality non-transitive: profits 0, 0.00006 and 0.00012 |
| CropInfo.EntriesOpenWithFirstKey | ProfitCalculator/main/CropInfo.cs:115-137 | the entry list starts with the first quoted key and its value |
| CropInfo.ToString | ProfitCalculator/main/CropInfo.cs:115-137 | braces enclose the entries built from the fixed key list and the field values |
| Sorting.Insert | ProfitCalculator/main/Calculator.cs:186 | inserting into a list sorted by non-increasing key adds exactly that element and keeps the order |
| Sorting.InsertRaw | ProfitCalculator/main/Calculator.cs:186 | insertion adds exactly the one element to the multiset of the list |
| Sorting.InsertSorted | ProfitCalculator/main/Calculator.cs:186 | insertion preserves non-increasing key order and every upper bound shared by the list and the new key |
| Sorting.TopBoundsAll | ProfitCalculator/main/Calculator.cs:186 | in a non-increasing list a bound on the head bounds every element |
| Sorting.SortDescending | ProfitCalculator/main/Calculator.cs:186 | the sort returns a permutation of its input ordered by non-increasing key |
| Cache.Get | CoreUtils/management/memory/Cache.cs:28-35 | a valid cache returns its value unchanged; an invalid one builds a value, stores it and becomes valid |
| Cache.ReadsAreStable | CoreUtils/management/memory/Cache.cs:28-35 | a second read returns the state and value of the first, whatever the world has become |
| Cache.ReadsRepeatFirst | CoreUtils/management/memory/Cache.cs:28-52 | without invalidation every read in a sequence yields the value of the first read |
| Cache.Cache.constructor | CoreUtils/management/memory/Cache.cs:17-22 | a new cache holds a fresh build, is valid and keeps the builder |
| Cache.Cache.Create | CoreUtils/management/memory/Cache.cs:17-22 | a null builder throws ArgumentNullException; otherwise a new valid cache holds a build |
| Cache.Cache.GetCache | CoreUtils/management/memory/Cache.cs:28-35 | the object's new state and result are those of Get on its old state |
| Cache.Cache.InvalidateCache | CoreUtils/management/memory/Cache.cs:40-43 | only the validity flag is cleared |
| Cache.Cache.RebuildCache | CoreUtils/management/memory/Cache.cs:48-52 | the value is a fresh build from the current builder and the cache is valid |
| Cache.Cache.IsCacheValid | CoreUtils/management/memory/Cache.cs:58-61 | returns the validity flag |
| Cache.Cache.SetBuildCache | CoreUtils/management/memory/Cache.cs:67-70 | a null builder throws and changes nothing; otherwise only the builder is replaced |
| Cache.Cache.ClearCache | CoreUtils/management/memory/Cache.cs:75-79 | the value is dropped to default and the cache is invalid; the builder stays |
| LegacyCache.Rebuild | ProfitCalculator/main/Cache.cs:52-55 | a null builder throws NullReferenceException; otherwise only the value is replaced by a build, and the flag is left as it was |
| LegacyCache.Get | ProfitCalculator/main/Cache.cs:32-39 | a valid cache returns its value; an invalid one rebuilds (or throws on a null builder) and stays invalid |
| LegacyCache.InvalidatedAlwaysRebuilds | ProfitCalculator/main/Cache.cs:32-55 | once invalidated, every later read returns a fresh build for the world at that read |
| LegacyCache.ValidNeverRebuilds | ProfitCalculator/main/Cache.cs:32-39 | while valid, every read returns the stored value |
| LegacyCache.Cache.Built | ProfitCalculator/main/Cache.cs:21-26 | a new cache holds a build, is valid and keeps the builder |
| LegacyCache.Cache.Create | ProfitCalculator/main/Cache.cs:21-26 | a null builder throws NullReferenceException when first called; otherwise a new valid cache holds a build |
| LegacyCache.Cache.GetCache | ProfitCalculator/main/Cache.cs:32-39 | the new state and result are those of Get on the old state; on an exception nothing changes |
| LegacyCache.Cache.InvalidateCache | ProfitCalculator/main/Cache.cs:44-47 | only the validity flag is cleared |
| LegacyCache.Cache.RebuildCache | ProfitCalculator/main/Cache.cs:52-55 | the new state is Rebuild of the old one; on an exception nothing changes |
| LegacyCache.Cache.IsCacheValid | ProfitCalculator/main/Cache.cs:61-64 | returns the validity flag |
| LegacyCache.Cache.SetBuildCache | ProfitCalculator/main/Cache.cs:70-73 | only the builder is replaced, null included |
| LegacyCache.Cache.ClearCache | ProfitCalculator/main/Cache.cs:78-82 | the value is dropped to default and the cache is invalid |
| Registry.TryAdd | ProfitCalculator/main/builders/CropBuilder.cs:34 | the key set gains k; existing entries are never overwritten; a new key maps to v |
| Registry.Lookup | ProfitCalculator/main/accessors/ShopAccessor.cs:253-256 | a value is found exactly when the key is present, and it is the stored one |
| Registry.KeysOf | ProfitCalculator/main/builders/CropBuilder.cs:29-35 | exactly the keys that occur in the entry list |
| Registry.TryAddAllKeys | ProfitCalculator/main/builders/CropBuilder.cs:29-35 | adding a list of entries one by one yields the old keys plus the listed ones |
| Registry.TryAddAllKeeps | ProfitCalculator/main/builders/CropBuilder.cs:29-35 | an entry present before keeps its value |
| Registry.TryAddAllFirstWins | ProfitCalculator/main/builders/CropBuilder.cs:29-35 | for a new key, the first listed entry wins over later duplicates |
| Calculator.Calculator.constructor | ProfitCalculator/main/Calculator.cs:95-98 | an empty registry and default settings |
| Calculator.Calculator.SetSettings | ProfitCalculator/main/Calculator.cs:114-135 | the settings become the arguments, the farming level 0 under base stats; the registry is untouched |
| Calculator.Calculator.ClearCrops | ProfitCalculator/main/Calculator.cs:140-143 | the registry becomes empty and the settings are kept |
| Calculator.Calculator.AddCrop | ProfitCalculator/main/Calculator.cs:228-242 | an id already registered is ignored; a new id is added in insertion order |
| Calculator.Calculator.RetrieveCropsAsOrderderList | ProfitCalculator/main/Calculator.cs:149-160 | a permutation of the registered plants ordered by non-increasing average price in the chosen season |
| Calculator.Calculator.RetrieveCropInfo | ProfitCalculator/main/Calculator.cs:195-221 | fails exactly when the total profit fails; otherwise the CropInfo carries the plant, its seed and fertilizer losses and their per-day figures, harvests, duration, growth time, regrowth, product count, extra-crop chance and quality chances under the settings, and its profit per day is the plant's profit per day less both per-day losses in double arithmetic |
| Calculator.Calculator.RetrieveCropInfoNetsLosses | ProfitCalculator/main/Calculator.cs:195-221 | the stored total profit is the plant's profit less its seed and fertilizer costs |
| Calculator.Calculator.RetrieveCropInfoNetsLossesPerDay | ProfitCalculator/main/Calculator.cs:195-221 | with finite per-day figures, the sort key plus both stored per-day losses gives back the plant's profit per day |
| Calculator.Calculator.RetrieveCropInfos | ProfitCalculator/main/Calculator.cs:166-188 | throws exactly when the filtered collection throws; otherwise a permutation of exactly the harvested CropInfos (every successful one with at least one harvest) sorted by non-increasing profit per day |
| Calculator.CollectSorted | ProfitCalculator/main/Calculator.cs:166-188 | the loop and sort give the same outcome as the collection specification; a success is a permutation of exactly the harvested CropInfos, sorted by profit per day |
| Calculator.CollectAppend | ProfitCalculator/main/Calculator.cs:169-184 | one more plant is skipped without a harvest, kept when seeds are free or affordable, and throws InvalidOperationException when over budget |
| Calculator.CollectFailureStays | ProfitCalculator/main/Calculator.cs:169-184 | once the collection throws, later plants do not change the outcome |
| Calculator.CollectedAreHarvestedAndAffordable | ProfitCalculator/main/Calculator.cs:169-184 | every collected CropInfo has at least one harvest and, when paying for seeds, a seed loss within the budget |
| Calculator.CollectedAtMostOneEach | ProfitCalculator/main/Calculator.cs:169-184 | the collection is no longer than the plants and holds only their CropInfos |
| Calculator.CollectNeverThrows | ProfitCalculator/main/Calculator.cs:172-175 | without paying for seeds the collection never throws |
| Calculator.Collect | ProfitCalculator/main/Calculator.cs:169-184 | an exception out of the loop is InvalidOperationException or the exception of one of the CropInfos |
| Calculator.Harvested | ProfitCalculator/main/Calculator.cs:171-180 | the successful CropInfos with at least one harvest, in order: never more than the inputs |
| Calculator.CollectIsHarvested | ProfitCalculator/main/Calculator.cs:166-185 | completeness: a successful collection had no failing CropInfo and is exactly the harvested CropInfos, in order |
| Calculator.KeepsEveryHarvested | ProfitCalculator/main/Calculator.cs:171-180 | every successful CropInfo with a harvest is in a successful collection |
| Calculator.CollectOnlyThrowsInvalid | ProfitCalculator/main/Calculator.cs:166-185 | with no failing CropInfo the collection succeeds or throws InvalidOperationException |
| Calculator.OverBudgetThrows | ProfitCalculator/main/Calculator.cs:176-183 | paying for seeds, one harvested CropInfo over the budget makes the collection throw InvalidOperationException, wherever it stands |
| Calculator.GrowthTime | ProfitCalculator/main/Calculator.cs:207-211 | the growing days recorded in a CropInfo are max(Days, 1): through a PlantData reference the speed is the base class's 0.0, which the bush's hiding (not overriding) method does not replace |
| Calculator.InfoNeverFails | ProfitCalculator/main/Calculator.cs:195-221 | with a calculator and the four price multipliers present, retrieving a CropInfo never fails |
| TypeContainer.Container.constructor | ProfitCalculator/main/Container.cs:23-24 | the singleton starts with no instances |
| TypeContainer.Container.GetInstance | ProfitCalculator/main/Container.cs:36-47 | the registered instance of the type when there is one, else default |
| TypeContainer.Container.RegisterInstance | ProfitCalculator/main/Container.cs:55-69 | a null instance throws ArgumentNullException and changes nothing; otherwise it is added unless the type is already registered |
| TypeContainer.Container.RegisterNew | ProfitCalculator/main/Container.cs:75-86 | a newly made instance is added unless the type is already registered |
| TypeContainer.Container.UnregisterInstance | ProfitCalculator/main/Container.cs:92-102 | exactly the type's entry is removed |
| TypeContainer.Container.Clear | ProfitCalculator/main/Container.cs:107-113 | no instances remain |
| KeyedContainer.TypeKey | ProfitCalculator/main/memory/Container.cs:121-124 | the type name, an underscore and the key, in that order |
| KeyedContainer.TypeKeyInjective | ProfitCalculator/main/memory/Container.cs:121-124 | for type names without an underscore, distinct (type, key) pairs give distinct dictionary keys |
| KeyedContainer.TypeKeysCanCollide | ProfitCalculator/main/memory/Container.cs:121-124 | the documented uniqueness fails when type names contain an underscore: ("A_B", "C") and ("A", "B_C") share a key |
| KeyedContainer.Container.constructor | ProfitCalculator/main/memory/Container.cs:22-23 | the singleton starts with no instances |
| KeyedContainer.Container.GetInstance | ProfitCalculator/main/memory/Container.cs:36-47 | the instance registered under the (type, key) pair when there is one, else default |
| KeyedContainer.Container.RegisterInstance | ProfitCalculator/main/memory/Container.cs:56-71 | a null instance throws and changes nothing; otherwise it is added under the pair unless already present |
| KeyedContainer.Container.RegisterNew | ProfitCalculator/main/memory/Container.cs:78-89 | a newly made instance is added under the pair unless already present |
| KeyedContainer.Container.UnregisterInstance | ProfitCalculator/main/memory/Container.cs:96-103 | exactly the pair's entry is removed |
| KeyedContainer.Container.Clear | ProfitCalculator/main/memory/Container.cs:108-114 | no instances remain |
| ShopStock.SyncKey | ProfitCalculator/main/accessors/ShopAccessor.cs:153-157 | the first entry of an item entry keeps the entry id; later ones get a longer key |
| ShopStock.SyncKeySuffix | ProfitCalculator/main/accessors/ShopAccessor.cs:153-157 | a later entry's key is the entry id followed by digits that read back as the entry's number |
| ShopStock.SyncKeysDistinct | ProfitCalculator/main/accessors/ShopAccessor.cs:153-157 | different entry numbers give different sync keys |
| ShopStock.Normalise | ProfitCalculator/main/accessors/ShopAccessor.cs:124-168 | the stock entry of one result: a recipe sells one at a time without limit, a negative stock becomes int.MaxValue, a trade item is dropped without an id or with a negative amount, the price is truncated |
| ShopStock.AddedFrom | ProfitCalculator/main/accessors/ShopAccessor.cs:119-171 | at most one stock entry per resolved result |
| ShopStock.AddedSyncKeyAt | ProfitCalculator/main/accessors/ShopAccessor.cs:146-157 | the entry added at position k carries the sync key numbered by the entries added before it, plus k + 1 |
| ShopStock.AddedCount | ProfitCalculator/main/accessors/ShopAccessor.cs:144-168 | when repeats are allowed every resolved result adds exactly one entry |
| ShopStock.AddedAt | ProfitCalculator/main/accessors/ShopAccessor.cs:144-168 | when repeats are allowed the k-th entry added is the k-th result, normalised with its entry number |
| ShopStock.AddedSyncKeys | ProfitCalculator/main/accessors/ShopAccessor.cs:146-157 | the k-th added entry carries the sync key numbered by how many were added before it, plus one |
| ShopStock.AddedSyncKeysUnique | ProfitCalculator/main/accessors/ShopAccessor.cs:146-157 | the entries one item entry adds have pairwise distinct sync keys |
| ShopStock.AddedKeepsNonRepeats | ProfitCalculator/main/accessors/ShopAccessor.cs:144-168 | when repeats are allowed every result becomes an entry, normalised in order |
| ShopStock.AddItemsToStock | ProfitCalculator/main/accessors/ShopAccessor.cs:119-171 | the loop appends exactly the entries of the specification to the stock |
| ShopStock.FailedEntryAddsNothing | ProfitCalculator/main/accessors/ShopAccessor.cs:79-83 | an item entry whose resolution failed adds nothing |
| ShopStock.GetShopStock | ProfitCalculator/main/accessors/ShopAccessor.cs:63-89 | the loop over the item entries yields the specified shop stock |
| ShopStock.BuildCacheOf | ProfitCalculator/main/accessors/ShopAccessor.cs:45-55 | at most one cache entry per shop |
| ShopStock.OnlyMoneyShopsCached | ProfitCalculator/main/accessors/ShopAccessor.cs:49-52 | a cache entry exists exactly for each shop with currency 0, holding that shop's stock |
| ShopStock.BuildCache | ProfitCalculator/main/accessors/ShopAccessor.cs:45-55 | the loop over the shops yields the specified cache |
| ShopAccessor.Unqualified | ProfitCalculator/main/accessors/ShopAccessor.cs:252 | throws ArgumentOutOfRange exactly when the trimmed id is shorter than 3; otherwise the trimmed id minus its first three characters |
| ShopAccessor.UnqualifiedDropsPrefix | ProfitCalculator/main/accessors/ShopAccessor.cs:252 | a qualified id loses exactly its three-character type prefix |
| ShopAccessor.PositivePricesIn | ProfitCalculator/main/accessors/ShopAccessor.cs:258-262 | exactly the positive prices at which one shop's entries offer the item |
| ShopAccessor.PositivePrices | ProfitCalculator/main/accessors/ShopAccessor.cs:258-262 | exactly the positive prices at which any shop offers the item |
| ShopAccessor.MinOrZero | ProfitCalculator/main/accessors/ShopAccessor.cs:263-264 | 0 for no prices, else the least of them |
| ShopAccessor.MaxOrZero | ProfitCalculator/main/accessors/ShopAccessor.cs:286-287 | 0 for no prices, else the greatest of them |
| ShopAccessor.CheapestSeedPrice | ProfitCalculator/main/accessors/ShopAccessor.cs:250-266 | a short id throws; a missing table throws NullReference; a listed id gives the table price; otherwise the least positive offered price, or 0 when none is offered |
| ShopAccessor.ExpensiveSeedPrice | ProfitCalculator/main/accessors/ShopAccessor.cs:273-288 | as the cheapest lookup, with the greatest positive offered price |
| ShopAccessor.CheapestAtMostExpensive | ProfitCalculator/main/accessors/ShopAccessor.cs:250-288 | the two lookups fail together and the cheapest never exceeds the dearest |
| ShopAccessor.FirstPrice | ProfitCalculator/main/accessors/ShopAccessor.cs:296-305 | -1 when no entry sells the item |
| ShopAccessor.FirstPriceIsFirst | ProfitCalculator/main/accessors/ShopAccessor.cs:296-305 | otherwise the price of the first entry selling it, whatever its sign |
| ShopAccessor.EntriesOfShop | ProfitCalculator/main/accessors/ShopAccessor.cs:296-305 | with distinct shop ids, the entries looked up for a shop are its own |
| ShopAccessor.NoEntriesOf | ProfitCalculator/main/accessors/ShopAccessor.cs:296-305 | an unknown shop id has no entries |
| ShopAccessor.SpecificShopPrice | ProfitCalculator/main/accessors/ShopAccessor.cs:296-305 | a null stock throws ArgumentNull; otherwise the first price listed for the item in that shop, or -1 |
| ShopAccessor.Read | ProfitCalculator/main/Cache.cs:32-39 | a valid cache hands out its value; an invalid one a fresh build |
| ShopAccessor.AfterRead | ProfitCalculator/main/Cache.cs:32-39 | a read keeps the flag and the builder and stores the value handed out |
| ShopAccessor.ShopAccessor.constructor | ProfitCalculator/main/accessors/ShopAccessor.cs:30-39 | both caches build once in the current game state and start valid |
| ShopAccessor.ShopAccessor.InvalidateCaches | ProfitCalculator/main/accessors/ShopAccessor.cs:230-234 | both caches are marked invalid and nothing else changes |
| ShopAccessor.ShopAccessor.ForceRebuildCache | ProfitCalculator/main/accessors/ShopAccessor.cs:239-243 | both caches rebuild in the current game state and keep their flags |
| ShopAccessor.ShopAccessor.GetCheapestSeedPrice | ProfitCalculator/main/accessors/ShopAccessor.cs:250-266 | the result is CheapestSeedPrice of what the caches hand out; the table cache is read unless the id is too short, the stock cache only on a table miss |
| ShopAccessor.ShopAccessor.GetExpensiveSeedPrice | ProfitCalculator/main/accessors/ShopAccessor.cs:273-288 | the result is ExpensiveSeedPrice of what the caches hand out, with the same cache reads |
| ShopAccessor.ShopAccessor.GetSpecificShopPrice | ProfitCalculator/main/accessors/ShopAccessor.cs:296-305 | the result is SpecificShopPrice of the stock read once |
| Objects.NewObject | ProfitCalculator/main/builders/CropBuilder.cs:49-50 | a new item whose qualified id is "(O)" and the id, with the game's names and store price for that id |
| FruitTreeBuilder.Remove | ProfitCalculator/main/builders/FruitTreeBuilder.cs:44 | string.Remove: throws ArgumentOutOfRange outside the string, else the string without the removed range |
| FruitTreeBuilder.StripTypePrefix | ProfitCalculator/main/builders/FruitTreeBuilder.cs:38-45 | an id without both parentheses is kept; otherwise the text from the first '(' to the first ')' is cut out, kept when ')' comes right before '(', and throws when ')' comes earlier still |
| FruitTreeBuilder.StripsQualifier | ProfitCalculator/main/builders/FruitTreeBuilder.cs:38-45 | a "(type)id" qualified id strips to its id |
| FruitTreeBuilder.ObjectIdRoundTrip | ProfitCalculator/main/builders/FruitTreeBuilder.cs:38-45 | stripping undoes the "(O)" qualification of a new object |
| FruitTreeBuilder.CloseBeforeOpenThrows | ProfitCalculator/main/builders/FruitTreeBuilder.cs:40-44 | an id with ')' well before '(' makes the removal throw |
| FruitTreeBuilder.DropsOfAppend | ProfitCalculator/main/builders/FruitTreeBuilder.cs:36-57 | appending the drop of one more fruit keeps drops and fruit in correspondence |
| FruitTreeBuilder.BuildCrop | ProfitCalculator/main/builders/FruitTreeBuilder.cs:32-60 | throws exactly when a fruit id cannot be stripped; otherwise a tree with the sapling id, the tree's seasons and one quantity-1 drop per fruit with its chance and season |
| FruitTreeBuilder.BuildCrops | ProfitCalculator/main/builders/FruitTreeBuilder.cs:15-24 | every tree id gets its tree, with its seasons and one drop per fruit, unless a fruit id makes a build throw; drop k is fruit k's stripped item id, quantity 1, with fruit k's chance and season |
| CropBuilder.HarvestId | ProfitCalculator/main/builders/CropBuilder.cs:50 | harvest item "23" stands for the seed itself; any other harvest id is kept |
| CropBuilder.BuildCrop | ProfitCalculator/main/builders/CropBuilder.cs:47-53 | never fails; a crop from the record with the seed id, one sure drop of quantity 1 of the harvest item in every season, quality and fertilizer both applying |
| CropBuilder.BuildCrops | ProfitCalculator/main/builders/CropBuilder.cs:23-38 | every loaded id gets a crop; the first record with an id decides its days, seasons and regrowth, and its one drop: the harvest item (the seed for "23"), quantity 1, chance 1, any season, in a table named after the id, with the harvest item's display name |
| LegacyCropBuilder.BuildCrop | ProfitCalculator/main/CropBuilder.cs:52-57 | a crop from the record with the seed id, the harvest item and the seed price of the qualified seed id |
| LegacyCropBuilder.BuildCrops | ProfitCalculator/main/CropBuilder.cs:29-43 | every loaded id gets a crop with its seed price; the first record with an id decides its data and harvest item |
| BaseOption.BaseOption.constructor | ProfitCalculator/main/ui/BaseOption.cs:68-74 | the bounds are the given rectangle and the option starts unclicked |
| BaseOption.BaseOption.SetPosition | ProfitCalculator/main/ui/BaseOption.cs:48-56 | the position setter truncates both coordinates into the bounds and keeps the size; reading the position back gives the value set exactly when both coordinates are whole |
| BaseOption.BaseOption.Position | ProfitCalculator/main/ui/BaseOption.cs:48-51 | the position has whole coordinates that truncate back to the bounds' corner, so the setter keeps a position read from the getter |
| BaseOption.BaseOption.ContainsPoint | ProfitCalculator/main/ui/BaseOption.cs:48-56 | a point inside means non-empty bounds, and the right and bottom edges are outside |
| BaseOption.BaseOption.ExecuteClick | ProfitCalculator/main/ui/BaseOption.cs:106-111 | the option becomes clicked and keeps its bounds |
| TextOption.KeyboardDispatcher.constructor | ProfitCalculator/main/ui/TextOption.cs:28-45 | no text box holds the keyboard at first |
| TextOption.Backspaced | ProfitCalculator/main/ui/TextOption.cs:176-183 | an empty value stays empty; otherwise the value loses exactly its last character |
| TextOption.BackspaceUndoesTyping | ProfitCalculator/main/ui/TextOption.cs:127-183 | a backspace after typing a character restores the value before it |
| TextOption.TextOption.constructor | ProfitCalculator/main/ui/TextOption.cs:56-68 | the bounds take the texture's size at the given position; the box starts unselected and unclicked |
| TextOption.TextOption.SetTexture | ProfitCalculator/main/ui/TextOption.cs:74-79 | only the width and height change, to the texture's |
| TextOption.TextOption.SetSelected | ProfitCalculator/main/ui/TextOption.cs:28-45 | setting the same value changes nothing; selecting subscribes this box to the keyboard; deselecting unsubscribes it only when it is the subscriber |
| TextOption.TextOption.ReceiveInput | ProfitCalculator/main/ui/TextOption.cs:197-201 | the text is appended to the value |
| TextOption.TextOption.RecieveTextInputChar | ProfitCalculator/main/ui/TextOption.cs:127-161 | every typed character, quotes included, is appended |
| TextOption.TextOption.RecieveTextInput | ProfitCalculator/main/ui/TextOption.cs:167-170 | the typed text is appended |
| TextOption.TextOption.RecieveCommandInput | ProfitCalculator/main/ui/TextOption.cs:176-183 | a backspace removes the last character; any other command leaves the value |
| TextOption.TextOption.BeforeReceiveLeftClick | ProfitCalculator/main/ui/TextOption.cs:208-214 | a click outside a selected box deselects it and releases the keyboard if held; otherwise nothing changes |
| TextOption.TextOption.ExecuteClick | ProfitCalculator/main/ui/TextOption.cs:219-223 | the box becomes clicked and selected, taking the keyboard if it was not selected |
| TextOption.TextOption.ReceiveLeftClick | ProfitCalculator/main/ui/BaseOption.cs:95-101 | a click inside selects and clicks the box; a click outside leaves it unselected and not newly clicked |
| UIntOption.MinusNeverAccepted | ProfitCalculator/main/ui/UIntOption.cs:85-96 | the box always shows the setting's non-empty text, so the filter accepts input exactly when it is all digits |
| UIntOption.Accepts | ProfitCalculator/main/ui/UIntOption.cs:85-96 | input of digits only always passes the filter, and into a non-empty box only digits pass |
| UIntOption.ParseUInt | ProfitCalculator/main/ui/UIntOption.cs:98 | uint.Parse of a digit string: the decimal value when it fits in 32 bits, else Overflow (Format for empty text) |
| UIntOption.Clamp | ProfitCalculator/main/ui/UIntOption.cs:106 | Math.Clamp: throws ArgumentException when min exceeds max; otherwise a value within [min, max] that keeps a value already inside |
| UIntOption.RejectedInputKeepsSetting | ProfitCalculator/main/ui/UIntOption.cs:85-97 | input with a non-digit leaves the setting unchanged |
| UIntOption.AfterInput | ProfitCalculator/main/ui/UIntOption.cs:85-113 | only overflow, or clamping with min above max, throws; a new non-zero setting lies within [min, max] when clamping, and fits a uint otherwise |
| UIntOption.TypedDigitAppends | ProfitCalculator/main/ui/UIntOption.cs:110-113 | without clamping, typing a digit appends it to the decimal value |
| UIntOption.ClampedInputInRange | ProfitCalculator/main/ui/UIntOption.cs:98-109 | with clamping, accepted input that changes the setting to anything but 0 lands within [min, max] |
| UIntOption.ZeroComesBeforeClamp | ProfitCalculator/main/ui/UIntOption.cs:98-102 | typing 0 into a cleared box keeps 0 even below the minimum |
| UIntOption.TypingPastUIntMaxThrows | ProfitCalculator/main/ui/UIntOption.cs:98 | typing a digit that takes the value past uint.MaxValue throws OverflowException |
| UIntOption.DownFromZeroGoesToMax | ProfitCalculator/main/ui/UIntOption.cs:138-142 | the Down key at 0 wraps to uint.MaxValue, which the clamp turns into the maximum |
| UIntOption.DropLastDigit | ProfitCalculator/main/ui/UIntOption.cs:117-128 | dropping the last digit of a setting's text divides it by 10 |
| UIntOption.UIntOption.constructor | ProfitCalculator/main/ui/UIntOption.cs:64-79 | the box holds the setting's text, the bounds and clamping flag as given, unselected |
| UIntOption.UIntOption.IsValid | ProfitCalculator/main/ui/UIntOption.cs:23 | the shown text parses as an int exactly when the setting is at most int.MaxValue |
| UIntOption.UIntOption.Store | menus/ProfitCalculatorMainMenu.cs:221 | the menu's setter stores the decimal value of digit text when it fits in 32 bits, else throws OverflowException and keeps the setting |
| UIntOption.UIntOption.ReceiveInput | ProfitCalculator/main/ui/UIntOption.cs:82-114 | the setting becomes AfterInput of the old setting, or it is kept when that throws |
| UIntOption.UIntOption.RecieveTextInputChar | ProfitCalculator/main/ui/TextOption.cs:127-131 | a typed character goes through the same filter, parse and clamp |
| UIntOption.UIntOption.RecieveTextInput | ProfitCalculator/main/ui/TextOption.cs:167-170 | typed text goes through the same filter, parse and clamp |
| UIntOption.UIntOption.RecieveCommandInput | ProfitCalculator/main/ui/UIntOption.cs:117-128 | a backspace divides the setting by 10, a one-digit or all-zero text becoming 0; other commands change nothing |
| UIntOption.UIntOption.RecieveSpecialInput | ProfitCalculator/main/ui/UIntOption.cs:131-143 | Up and Down step the setting with 32-bit wrap-around and clamp it, throwing when min exceeds max; other keys change nothing |
| UIntOption.UIntOption.BeforeReceiveLeftClick | ProfitCalculator/main/ui/UIntOption.cs:146-157 | after the text box's deselection, an unselected clamping box clamps its setting into [min, max] |
| UIntOption.UIntOption.ReceiveLeftClick | ProfitCalculator/main/ui/BaseOption.cs:95-101 | a click inside selects and clicks the box; a click outside deselects it and clamps the setting |
| CheckboxOption.CheckboxOption.constructor | ProfitCalculator/main/ui/CheckboxOption.cs:41-54 | the bounds are four times the checkbox sprite at the given position and the setting is as given |
| CheckboxOption.CheckboxOption.ExecuteClick | ProfitCalculator/main/ui/CheckboxOption.cs:78-82 | the setting is negated |
| CheckboxOption.CheckboxOption.ReceiveLeftClick | ProfitCalculator/main/ui/BaseOption.cs:95-101 | a click inside the bounds toggles the setting, a click outside keeps it; the option is never marked clicked |
| DropdownOption.ActiveDropdownSlot.constructor | ProfitCalculator/main/ui/DropdownOption.cs:109-161 | no drop-down is active at first |
| DropdownOption.DropdownOption.DropDownBoxWidth | ProfitCalculator/main/ui/DropdownOption.cs:40 | the box is 300 wide whatever width is requested |
| DropdownOption.DropdownOption.constructor | ProfitCalculator/main/ui/DropdownOption.cs:87-104 | the active choice is the index of the current value (-1 when absent, making Value throw); five rows shown, closed, bounds 300 by 44 |
| DropdownOption.DropdownOption.Value | ProfitCalculator/main/ui/DropdownOption.cs:33-35 | the active choice when it indexes the choices, else IndexOutOfRangeException |
| DropdownOption.DropdownOption.Label | ProfitCalculator/main/ui/DropdownOption.cs:46 | the active label when it indexes the labels, else IndexOutOfRangeException |
| DropdownOption.DropdownOption.SetValue | ProfitCalculator/main/ui/DropdownOption.cs:36 | a listed value becomes the active choice; an unlisted one changes nothing |
| DropdownOption.DropdownOption.HoverPicksChoice | ProfitCalculator/main/ui/DropdownOption.cs:141-148 | a mouse inside the list area picks a row on screen and, when the shown window fits the choices, a valid choice |
| DropdownOption.DropdownOption.ScrolledPosition | ProfitCalculator/main/ui/DropdownOption.cs:167-173 | the scroll position never passes the last full window, is never negative when the choices fill one, and moves one step per 120 units of wheel |
| DropdownOption.DropdownOption.Update | ProfitCalculator/main/ui/DropdownOption.cs:109-161 | an open list closes on a new press unless just opened, picks the hovered row and stores it (throwing when the row is past the choices) and becomes the active drop-down; a closed one releases the active slot and rewinds its window to the active choice |
| DropdownOption.DropdownOption.ReceiveScrollWheelAction | ProfitCalculator/main/ui/DropdownOption.cs:167-173 | an open list scrolls its window; a closed one clears the active drop-down |
| DropdownOption.DropdownOption.ReceiveLeftClick | ProfitCalculator/main/ui/DropdownOption.cs:272-285 | a click on a closed, unclicked box marks it clicked; otherwise an open or clicked box closes, unclicks and stops the click spreading |
| ResultsList.SlotsStack | ProfitCalculator/main/ui/menus/ProfitCalculatorResultsList.cs:46-56 | the option slots stack downwards, each starting where the one above ends, all at the same x and width |
| ResultsList.PartsAt | ProfitCalculator/main/ui/menus/ProfitCalculatorResultsList.cs:78-94 | the scroll track runs from 4 below the up arrow to 4 above the down arrow, and the 40-high bar starts at its top |
| ResultsList.Window | ProfitCalculator/main/ui/menus/ProfitCalculatorResultsList.cs:112-123 | the crops drawn are the consecutive indices from the first shown one, at most six and all within the list; a negative first index into a non-empty list throws ArgumentOutOfRange |
| ResultsList.FullPage | ProfitCalculator/main/ui/menus/ProfitCalculatorResultsList.cs:112-123 | from any first index the scrolling allows, a full page (or the whole short list) is drawn |
| ResultsList.Clamp01 | ProfitCalculator/main/ui/menus/ProfitCalculatorResultsList.cs:296 | Utility.Clamp to [0, 1], keeping values already inside |
| ResultsList.ScrollFraction | ProfitCalculator/main/ui/menus/ProfitCalculatorResultsList.cs:294-296 | the mouse's share of the track, 0 above it and 1 below it |
| ResultsList.ScrollIndexAsWritten | ProfitCalculator/main/ui/menus/ProfitCalculatorResultsList.cs:294-299 | the rounded interpolation between 0 and count - 6; within range for lists of at least six |
| ResultsList.ScrollPastShortListThrows | ProfitCalculator/main/ui/menus/ProfitCalculatorResultsList.cs:291-301 | with one crop, dragging to the bottom sets the first index to -5, and drawing then throws |
| ResultsList.ScrollIndex | ProfitCalculator/main/ui/menus/ProfitCalculatorResultsList.cs:291-301 | the corrected index always lies in [0, max(0, count - 6)], agrees with the code for lists of at least six, and maps the top and bottom of the track to the first and last page |
| ResultsList.BarTop | ProfitCalculator/main/ui/menus/ProfitCalculatorResultsList.cs:164-185 | an empty list puts the bar at the top of the track; the last page puts it just above the down arrow; the first page at the top |
| ResultsList.BarStaysOnTrack | ProfitCalculator/main/ui/menus/ProfitCalculatorResultsList.cs:164-185 | for any reachable index other than the last page, the bar stays within the track |
| ResultsList.ResultsList.BuildSlots | ProfitCalculator/main/ui/menus/ProfitCalculatorResultsList.cs:46-56 | six slots laid out from the menu position; nothing else changes |
| ResultsList.ResultsList.constructor | ProfitCalculator/main/ui/menus/ProfitCalculatorResultsList.cs:38-95 | the list holds the crops in order, six slots and the scroll parts at the menu position, first index 0, not scrolling |
| ResultsList.ResultsList.Draw | ProfitCalculator/main/ui/menus/ProfitCalculatorResultsList.cs:100-158 | the crops drawn are the window at the current index |
| ResultsList.ResultsList.SetScrollBarToCurrentIndex | ProfitCalculator/main/ui/menus/ProfitCalculatorResultsList.cs:164-185 | only the bar's y moves, to BarTop of the current index |
| ResultsList.ResultsList.ArrowPressed | ProfitCalculator/main/ui/menus/ProfitCalculatorResultsList.cs:388-400 | the index moves by the direction and the bar follows |
| ResultsList.ResultsList.ReceiveScrollWheelAction | ProfitCalculator/main/ui/menus/ProfitCalculatorResultsList.cs:191-213 | up moves back one page row when possible, down forward one when possible; otherwise InvalidOperationException and nothing moves |
| ResultsList.ResultsList.ReceiveKeyPress | ProfitCalculator/main/ui/menus/ProfitCalculatorResultsList.cs:219-247 | Escape closes the list; Down and Up move one row only while a full page remains beyond; other keys close it only when they are the menu button |
| ResultsList.ResultsList.SetScrollFromY | ProfitCalculator/main/ui/menus/ProfitCalculatorResultsList.cs:291-306 | the index becomes the corrected ScrollIndex of the mouse's share of the track, and the bar follows |
| ResultsList.ResultsList.LeftClickHeld | ProfitCalculator/main/ui/menus/ProfitCalculatorResultsList.cs:313-323 | while dragging and not prevented, the index follows the mouse; otherwise nothing moves |
| ResultsList.ResultsList.ReleaseLeftClick | ProfitCalculator/main/ui/menus/ProfitCalculatorResultsList.cs:330-337 | releasing ends dragging unless closing is prevented |
| ResultsList.ResultsList.ReceiveLeftClick | ProfitCalculator/main/ui/menus/ProfitCalculatorResultsList.cs:345-375 | the down arrow, up arrow, bar and track are tried in that order: step down, step up, start dragging, jump to the clicked position; a click elsewhere throws InvalidOperationException |
| ResultsList.ResultsList.GameWindowSizeChanged | ProfitCalculator/main/ui/menus/ProfitCalculatorResultsList.cs:442-478 | the menu moves to the new position and rebuilds its slots and scroll parts; the index and dragging stay |
| UiComponents.Component.Button | UIFramework/Components/Button.cs:25-29 | a visible, enabled, unpressed button with the given id, place, size and text, the default sounds and colours, and nothing raised yet |
| UiComponents.Component.Passive | UIFramework/Components/Base/BaseComponent.cs:11-18 | a label or text input with the given id, place, size and text, visible and enabled |
| UiComponents.Component.OnClick | UIFramework/Components/Button.cs:76-85 | a disabled or hidden button ignores the click; otherwise it is pressed, plays its click sound unless empty and raises Clicked with the left button, its box colour unchanged |
| UiComponents.Component.OnRightClick | UIFramework/Components/Button.cs:87-95 | a disabled or hidden button ignores it; otherwise the click sound plays and RightClicked is raised with the right button, without pressing |
| UiComponents.Component.OnHover | UIFramework/Components/Button.cs:97-108 | a disabled or hidden button ignores it; otherwise the hover sound plays only on first hovering, the button is hovering and Hovered is raised |
| UiComponents.Component.Contains | UIFramework/Components/Button.cs:110-114 | a point inside means a non-negative size, and unlike a menu the far corner is inside |
| UiComponents.Component.Update | UIFramework/Components/Base/BaseClickableComponent.cs:31-42 | a button is hovered exactly when enabled, visible and under the mouse, and raises Hovered only when it becomes hovered |
| UiComponents.Component.OnReleased | UIFramework/Components/Base/BaseClickableComponent.cs:59-62 | the component is no longer pressed; nothing else changes |
| UiComponents.Component.SetSounds | UIFramework/Components/Base/BaseClickableComponent.cs:64-68 | only the hover and click sounds change |
| UiComponents.Component.BoxColor | UIFramework/Components/Button.cs:31-45 | nothing is drawn when hidden; gray when disabled; otherwise the hover colour while hovering, else white, since the pressed flag Draw reads is never set |
| UiMenus.Game1.constructor | UIFramework/Menus/BaseMenu.cs:182-208 | no menu is active at first and the viewport has the given size |
| UiMenus.ComponentIdsRemoveAt | UIFramework/Menus/BaseMenu.cs:129-139 | removing a component removes exactly its id from the id list |
| UiMenus.MenuIdsRemoveAt | UIFramework/Menus/BaseMenu.cs:162-172 | removing a submenu removes exactly its id, and unique ids stay unique without it |
| UiMenus.Place | UIFramework/Menus/SubMenu.cs:78-123 | a submenu goes above, below, left or right of its anchor, 4 pixels away, with truncated coordinates |
| UiMenus.PlaceLeavesGap | UIFramework/Menus/SubMenu.cs:78-123 | for whole-pixel anchors the submenu is aligned with the anchor and separated from it by a 4-pixel gap on the chosen side |
| UiMenus.Constrain | UIFramework/Menus/SubMenu.cs:145-169 | a negative coordinate becomes 0, one past the far edge is pulled back to end at it, and a menu that fits ends up entirely on screen |
| UiMenus.ConstrainSettles | UIFramework/Menus/SubMenu.cs:145-169 | for a menu that fits, constraining twice gives the same place as once |
| UiMenus.OversizedMenuMoves | UIFramework/Menus/SubMenu.cs:145-169 | a menu wider than the viewport is pushed off the left edge, and a second pass moves it again |
| UiMenus.Menu.constructor | UIFramework/Menus/BaseMenu.cs:25-69 | the configured size and place (centred when the place is (0, 0), with C# integer division), the default config for null, a close button at the top right when configured, hidden and empty |
| UiMenus.Menu.SubMenu | UIFramework/Menus/SubMenu.cs:19-39 | a submenu placed as a menu, with its own close button, below its (absent) anchor, closing automatically and on outside clicks |
| UiMenus.Menu.AddComponent | UIFramework/Menus/BaseMenu.cs:97-127 | null throws ArgumentNullException and a duplicate id ArgumentException, changing nothing; otherwise the component is appended and, when left of or above the menu, shifted by the menu position and title offset; ids stay unique |
| UiMenus.Menu.GetComponent | UIFramework/Menus/BaseMenu.cs:141-147 | none for an empty id; otherwise the first component with that id, found exactly when one exists |
| UiMenus.RemoveComponentById | UIFramework/Menus/BaseMenu.cs:129-139 | an absent id leaves the list as it is; a present one removes its first component; ids without repeats stay so, and the id is gone |
| UiMenus.Menu.RemoveComponent | UIFramework/Menus/BaseMenu.cs:129-139 | an empty id throws ArgumentNullException; otherwise the first component with that id is removed, and with unique ids none is left |
| UiMenus.Menu.AddSubMenu | UIFramework/Menus/BaseMenu.cs:149-160 | null throws ArgumentNullException and a duplicate id ArgumentException; otherwise the submenu is appended with this menu as its parent |
| UiMenus.Menu.GetSubMenu | UIFramework/Menus/BaseMenu.cs:174-180 | none for an empty id; otherwise a submenu with that id, found exactly when one exists |
| UiMenus.RemoveMenuById | UIFramework/Menus/BaseMenu.cs:162-172 | an absent id leaves the list as it is; a present one removes its first submenu; ids without repeats stay so, and the id is gone |
| UiMenus.Menu.RemoveSubMenu | UIFramework/Menus/BaseMenu.cs:162-172 | an empty id throws ArgumentNullException; otherwise the first submenu with that id is removed, and with unique ids none is left |
| UiMenus.Menu.ConstrainToViewport | UIFramework/Menus/SubMenu.cs:145-169 | each coordinate is constrained to the viewport; nothing else changes |
| UiMenus.Menu.PositionRelativeTo | UIFramework/Menus/SubMenu.cs:78-123 | a null anchor throws ArgumentNullException; otherwise the anchor and side are remembered, the submenu is placed beside it within the viewport and its close button follows |
| UiMenus.Menu.PositionAt | UIFramework/Menus/SubMenu.cs:125-143 | the submenu moves to the truncated point, constrained to the viewport, and its close button follows |
| UiMenus.Menu.Show | UIFramework/Menus/SubMenu.cs:191-200 | the menu is visible and active, "bigSelect" plays only when it was hidden, and a submenu with an anchor moves beside it |
| UiMenus.Menu.Hide | UIFramework/Menus/BaseMenu.cs:193-208 | the menu is hidden, "bigDeSelect" plays only when it was visible, and an active menu hands the active slot to its parent |
| UiMenus.Menu.ExitMenu | UIFramework/Menus/BaseMenu.cs:487-494 | the menu is hidden, plays "bigDeSelect" if it was visible, and is no longer the active menu; its position and close button stay |
| UiMenus.Menu.SubMenuAt | UIFramework/Menus/BaseMenu.cs:358-367 | the first visible submenu under the point, or -1 when there is none |
| UiMenus.Menu.IsWithinBounds | UIFramework/Menus/BaseMenu.cs:497-501 | a point inside means a non-empty menu; the right and bottom edges and the cells just left of and above the menu are outside |
| UiMenus.Menu.FirstVisible | UIFramework/Menus/BaseMenu.cs:76-84 | the first visible submenu, or -1 when there is none |
| UiMenus.Menu.ComponentAt | UIFramework/Menus/BaseMenu.cs:369-377 | the first visible, enabled, clickable component under the point, or -1 when there is none |
| UiMenus.Menu.ReceiveLeftClick | UIFramework/Menus/BaseMenu.cs:345-382 | a hidden menu ignores the click; a submenu hides on an outside click, playing "bigDeSelect"; the close button exits; otherwise the first submenu under the point takes it, else the first clickable component is pressed, raises Clicked and plays its click sound, else it is passed on; only the clicked component changes (with unique ids, no other index), and passing the click on leaves the menu and the game's active menu as they were |
| UiMenus.Menu.ReceiveRightClick | UIFramework/Menus/BaseMenu.cs:384-409 | a hidden menu ignores it; otherwise the first submenu under the point takes it, else the first clickable component raises RightClicked and plays its click sound, else it is passed on; only the clicked component changes, and the menu itself never does |
| UiMenus.Menu.ReceiveKeyPress | UIFramework/Menus/BaseMenu.cs:71-95 | a hidden menu ignores it; a visible submenu takes it first; else Escape exits the menu with "bigDeSelect", leaving its position and close button, and other keys are passed on; every route but Escape leaves the menu and the game unchanged |
| UiMenus.Menu.UpdateAnchorPosition | UIFramework/Menus/SubMenu.cs:183-189 | with an anchor the submenu moves beside it within the viewport and a close button follows to its top right; without one nothing changes; no sound plays and visibility stays |
| UiMenus.Menu.UniqueComponents | UIFramework/Menus/BaseMenu.cs:102-104 | with unique ids two positions hold two different components |
| UiMenus.Menu.PerformHoverAction | UIFramework/Menus/BaseMenu.cs:411-444 | in a visible menu every clickable component under the mouse raises Hovered and plays the hover sound on first hovering; the others are untouched |
| UiMenus.Menu.Update | UIFramework/Menus/BaseMenu.cs:446-455 | each visible clickable component is hovered exactly when enabled and under the mouse, and raises Hovered exactly when it becomes hovered; the others are untouched |
| UiMenus.Menu.UpdateAnchorVisibility | UIFramework/Menus/SubMenu.cs:171-180 | a submenu whose anchor is hidden hides itself, playing "bigDeSelect" if it was visible and handing the active menu to its parent; otherwise the menu and the game are unchanged; position and close button always stay |
| UiMenus.Menu.GameWindowSizeChanged | UIFramework/Menus/BaseMenu.cs:457-484 | a centred menu is centred again in the new viewport, a placed one keeps the position the game's own handler gave it, and the close button follows |
| UiApi.ParseAnchor | UIFramework/API/StardewUIAPI.cs:249-253 | Enum.TryParse of an anchor point, restricted to the exact case-sensitive name or the bare decimal value 0-8 of a member: either gives that member; every other text gives TopLeft here (see Left out for the forms .NET reads otherwise) |
| UiApi.ParseAnchorRoundTrip | UIFramework/API/StardewUIAPI.cs:249-253 | every anchor point parses back from its name and from its number |
| UiApi.UnknownAnchorIsTopLeft | UIFramework/API/StardewUIAPI.cs:249-253 | wrong case, unknown names and empty text fall back to TopLeft |
| UiApi.FirstToggle | UIFramework/API/StardewUIAPI.cs:423-434 | the first registered menu whose toggle key is the button, or -1 |
| UiApi.FirstHotkey | UIFramework/API/StardewUIAPI.cs:438-445 | the first registered hotkey bound to the button that has an action, or -1 |
| UiApi.StardewUIAPI.constructor | UIFramework/API/StardewUIAPI.cs:32-42 | all registries start empty |
| UiApi.StardewUIAPI.CreateMenu | UIFramework/API/StardewUIAPI.cs:46-72 | an empty id throws ArgumentNullException and a taken id ArgumentException; otherwise a new hidden, empty menu with the given config is registered under the id |
| UiApi.StardewUIAPI.RegisterHotkey | UIFramework/API/StardewUIAPI.cs:305-315 | an empty id or missing action throws ArgumentNullException; otherwise the key and action are stored under the id, replacing any earlier ones |
| UiApi.StardewUIAPI.RegisterMenu | UIFramework/API/StardewUIAPI.cs:74-86 | a registered menu with a toggle key gets the hotkey "Open" + id that shows it; otherwise nothing changes |
| UiApi.StardewUIAPI.ShowMenu | UIFramework/API/StardewUIAPI.cs:88-97 | a registered menu becomes visible and active; an unknown id changes nothing; other menus keep their visibility |
| UiApi.StardewUIAPI.HideMenu | UIFramework/API/StardewUIAPI.cs:99-108 | a registered menu is hidden, handing the active slot to its parent; an unknown id changes nothing |
| UiApi.StardewUIAPI.AddToMenu | UIFramework/API/StardewUIAPI.cs:125-130 | a component with an id the menu already has throws ArgumentException; otherwise it is added to the menu and tracked by id |
| UiApi.StardewUIAPI.CreateButton | UIFramework/API/StardewUIAPI.cs:112-132 | an unknown menu gives the empty string; a taken id throws; otherwise a new enabled, visible button with the text is added and tracked |
| UiApi.StardewUIAPI.CreateLabel | UIFramework/API/StardewUIAPI.cs:134-147 | an unknown menu gives the empty string; a taken id throws; otherwise a new label with the text is added and tracked |
| UiApi.StardewUIAPI.CreateTextInput | UIFramework/API/StardewUIAPI.cs:149-169 | an unknown menu gives the empty string; a taken id throws; otherwise a new text input holding the initial value is added and tracked |
| UiApi.StardewUIAPI.CreateGridLayout | UIFramework/API/StardewUIAPI.cs:173-185 | an unknown menu gives the empty string; otherwise an empty grid with the given shape is stored under the id |
| UiApi.StardewUIAPI.AddComponentToGrid | UIFramework/API/StardewUIAPI.cs:187-212 | an unknown menu, layout or component gives the empty string; otherwise the component is placed in the grid at the cell and span given, anchored below the menu's title |
| UiApi.StardewUIAPI.CreateRelativeLayout | UIFramework/API/StardewUIAPI.cs:214-226 | an unknown menu gives the empty string; otherwise an empty relative layout is stored under the id |
| UiApi.StardewUIAPI.AddComponentToRelativeLayout | UIFramework/API/StardewUIAPI.cs:228-258 | an unknown menu, layout or component gives the empty string; otherwise the component joins the layout at the parsed anchor and offset |
| UiApi.StardewUIAPI.AddComponentRelativeToAnother | UIFramework/API/StardewUIAPI.cs:260-296 | as above, also requiring the reference component, which the entry records |
| UiApi.StardewUIAPI.SetGlobalTooltipDelay | UIFramework/API/StardewUIAPI.cs:300-303 | the delay becomes the given one |
| UiApi.StardewUIAPI.MenuComponent | UIFramework/API/StardewUIAPI.cs:349-365 | a component found is in the named menu with that id, and one is found whenever the menu has it |
| UiApi.StardewUIAPI.SetComponentTooltip | UIFramework/API/StardewUIAPI.cs:349-365 | the component's tooltip becomes the text and none of its other fields, nor any other component, changes; with no such component nothing changes |
| UiApi.StardewUIAPI.SetButtonColors | UIFramework/API/StardewUIAPI.cs:367-394 | each colour given replaces the button's, the others stay, as do the button's other fields and every other component; a missing button or another kind of component changes nothing |
| UiApi.StardewUIAPI.SetLabelText | UIFramework/API/StardewUIAPI.cs:396-412 | a label's text becomes the given one and none of its other fields, nor any other component, changes; a missing label changes nothing |
| UiApi.StardewUIAPI.ToggleFirstMenu | UIFramework/API/StardewUIAPI.cs:423-434 | the first menu with the button as toggle key flips its visibility; all others keep theirs |
| UiApi.StardewUIAPI.Run | UIFramework/API/StardewUIAPI.cs:84 | a show-menu action shows the menu; an external action is recorded as performed |
| UiApi.StardewUIAPI.RunFirstHotkey | UIFramework/API/StardewUIAPI.cs:438-445 | the action of the first matching hotkey runs, and nothing when none matches |
| UiApi.StardewUIAPI.OnButtonPressedAsWritten | UIFramework/API/StardewUIAPI.cs:416-446 | outside a world nothing happens; otherwise the first toggle menu flips, and then the first matching hotkey runs too, so a menu shown by its "Open" hotkey ends up visible |
| UiApi.StardewUIAPI.OnButtonPressed | UIFramework/API/StardewUIAPI.cs:416-446 | corrected routing: a toggle key flips its menu and nothing else runs; only an unmatched key reaches the hotkeys |
| UiApi.OpenRegisteredMenu | UIFramework/API/StardewUIAPI.cs:46-97 | creating, registering and showing one menu with a toggle key leaves exactly that menu, visible, with its "Open" hotkey bound to the key |
| UiApi.ToggleKeyReopensMenu | UIFramework/API/StardewUIAPI.cs:74-86 | as written, pressing the toggle key of a visible registered menu leaves it visible |
| UiApi.ToggleKeyClosesMenu | UIFramework/API/StardewUIAPI.cs:416-446 | with the corrected routing the same press hides the menu |
| DropDownOptionsScript.Thousandths | Others/GenerateDropDownOptions.py:9 | "{:.3f}" formatting gives the nearest thousandth, within half a thousandth of the value |
| DropDownOptionsScript.GenerateDropDownOptions | Others/GenerateDropDownOptions.py:4-11 | a zero increment raises ZeroDivisionError; otherwise int((max - min) / increment) + 1 options (none when that is not positive), the i-th being min + i * increment rounded to thousandths |
| DropDownOptionsScript.RoundMonotone | Others/GenerateDropDownOptions.py:9 | rounding to thousandths never reverses the order of two values |
| DropDownOptionsScript.RoundWhole | Others/GenerateDropDownOptions.py:9 | a whole number of thousandths is kept by the rounding |
| DropDownOptionsScript.OptionAtMonotone | Others/GenerateDropDownOptions.py:7-9 | an option whose unrounded value is not smaller is not smaller after rounding to thousandths |
| DropDownOptionsScript.OptionsAscending | Others/GenerateDropDownOptions.py:6-10 | with a positive increment the options never decrease |
| DropDownOptionsScript.OptionsExact | Others/GenerateDropDownOptions.py:6-10 | when min and increment are whole thousandths, the i-th option is exactly min + i × increment |
| DropDownOptionsScript.DefaultOptions | Others/GenerateDropDownOptions.py:17 | the script's call gives 201 options, 0.000 to 1.000 in steps of 0.005 |
| DropDownOptionsScript.FormatRounds | Others/GenerateDropDownOptions.py:8-9 | the formatting rounds rather than truncates, as 0.0006 becoming 0.001 shows |
| DropDownOptionsScript.DigitsRoundTrip | Others/GenerateDropDownOptions.py:15 | the decimal text of a whole number reads back as that number |
| DropDownOptionsScript.FractionRoundTrip | Others/GenerateDropDownOptions.py:15 | the fraction digits written for a number of thousandths read back as it |
| DropDownOptionsScript.UnsignedTextRoundTrip | Others/GenerateDropDownOptions.py:15 | the text written for a non-negative option reads back as it |
| DropDownOptionsScript.NumberRoundTrip | Others/GenerateDropDownOptions.py:15 | the text written for any option, negative ones included, reads back as it |
| DropDownOptionsScript.JoinRoundTrip | Others/GenerateDropDownOptions.py:15 | the ", "-separated list of option texts reads back as the options |
| DropDownOptionsScript.JsonArray | Others/GenerateDropDownOptions.py:15 | json.dumps of the list is bracketed |
| DropDownOptionsScript.JsonRoundTrip | Others/GenerateDropDownOptions.py:15 | reading the JSON array text back gives the options |
| DropDownOptionsScript.FileSystem.constructor | Others/GenerateDropDownOptions.py:13-15 | the file system holds the given files |
| DropDownOptionsScript.FileSystem.WriteOptionsToFile | Others/GenerateDropDownOptions.py:13-15 | the file is created or replaced by the JSON text of the options, which reads back as them |
| DropDownOptionsScript.FileSystem.Run | Others/GenerateDropDownOptions.py:17-19 | dropdownOptions.json holds the 201 options 0, 5, ..., 1000 (thousandths), each 5 × its index; every other file is untouched |

## Left out

- Drawing, sprites, textures, sounds beyond the sound names a component records, and pixel layout are not modelled. This covers every `draw`/`Draw` and CropBox.cs. They are calls into the game's renderer.
- Mod entry points, SMAPI event wiring and the generic mod config menu are not modelled. They are plumbing.
- Game state and game data are inputs:
  - `Game1`, the player's professions, and `ItemRegistry`/`DataLoader` assets;
  - `ItemQueryResolver` results, price and stock modifiers, and `TrackSeenItems`.
  - The model does not compute them.
- Floating point: doubles and float32 values are exact reals. IEEE division by zero is kept (`Numeric.Double`).
  - Binary rounding is not modelled. For example, the float32 growth-speed sums can make `ceil(days * speed)` one more than the exact value.
  - In the dropdown script, Python's float repr, −0.0 and binary rounding in `"{:.3f}"` are not modelled. Values are exact thousandths, rounded half to even.
- `print(options)` in the dropdown script is console output and is not modelled.
- `CropInfo.GetHashCode` uses `HashCode.Combine`, which is seeded per process. Its value is not modelled.
- `SetScrollBarToCurrentIndex` and `SetScrollFromY` keep their integer and rounding structure. Their float pixel error is not modelled.
- `GetAppropriateMenuPosition`, the viewport and every text measurement (label and button sizes) are inputs.
- `Label.SetText` is only declared at UIFramework/Components/Label.cs:18, with no body. `UiApi.StardewUIAPI.SetLabelText` assumes it assigns `Text`. Its `autoResize = true` default, which presumably resizes the label to the new text, is ignored: the label's `Size` stays. Labels and text inputs are passive components.
- GridLayout and RelativeLayout positioning has no bodies in the source. The UI API stores layouts by id only.
- Clicks, hover, update and resize are not passed down into submenus: the `Route` datatype says which submenu gets an event, and the caller recurses. `OnResize`, `OnWindowResized` and `OnUpdateTicked` are not modelled.
- The close button's `tryHover` is not modelled.
- `RegisterClickHandler`, `RegisterInputHandler`, and the `onClick` and `onValueChanged` delegates are not modelled. The delegate in `CreateButton` is not invoked either. They run arbitrary caller code. A hotkey action is recorded as the name of the action that would run.
- SubMenu with a null config is not modelled. The framework always passes one.
- Only the `Subscriber` slot of the keyboard dispatcher is modelled. Everything else about the dispatcher is not.
- `UIntOption` accepts the ASCII digits. `char.IsDigit` also accepts other Unicode decimal digits, which are not modelled.
- UiApi.ParseAnchor: models only the exact, case-sensitive member names and the bare decimal values "0" to "8". .NET's Enum.TryParse also reads forms the model sends to TopLeft: surrounding whitespace (" 1" is Top), a sign or leading zeros ("+1" and "01" are Top), comma-separated names OR-ed together ("Top, Left" is 1 | 3, that is Left), and any other integer, which gives an undefined value such as 9. The nine-member datatype cannot hold an undefined value.
- Settings.World.seedPrice: the registered shop accessor's cheapest seed price is an input function from a qualified id to an int. The model does not tie it to `ShopAccessor.CheapestSeedPrice`, so it loses that call's NullReferenceException for a null seed table, its ArgumentNullException for a null stock and its bound `price >= 0`. The `?? 0` for a missing accessor is folded into the input as well.
- PlantData.PlantData.SeedPrice: returns the input `World.seedPrice` unchanged, so it has the same gaps as that input: no throw and no sign bound.
- CropData.CropData.SeedPrice: the same gaps as PlantData.PlantData.SeedPrice. The source looks the accessor up without the mod id here; the model does not tell the two lookups apart.
- TreeData.TreeData.SeedPrice: the same gaps as PlantData.PlantData.SeedPrice.
- CropDataExpanded.CropDataExpanded.constructor: stores `seedPrice(seed id)` as SeedPrice, with the same gaps as PlantData.PlantData.SeedPrice.
- IPlantData.TotalAvailableDaysInCurrentSeason: `28 - day` is exact here, while C# computes it in int32. `Settings.DayOf` wraps the uint day into int32 first, so the two differ only for a day near int.MinValue, which comes from a uint day of 2^31 or more. For a uint day of 2^31, C# gives int.MinValue + 28 available days and the model gives 2^31 + 28. The options menu keeps the day between 1 and 28.
- PlantData.SeedsCost: seeds × seed price is exact, where C# wraps the int32 product. They differ only when the product leaves the int32 range.
- PlantData.FertilizerCost: fertilizer × fertilizer price is exact, where C# wraps the int32 product. They differ only when the product leaves the int32 range.
- PlantData.ProfitPerHarvest: `max(MinHarvests - 1, 0) × price` is exact here. C# multiplies the two ints in int32 and wraps before converting to double (PlantData.cs:298). They differ only when the product leaves the int32 range.
- PlantData.CropProfit: multiplies ProfitPerHarvest by the harvests, so it has the same exact product.
- PlantData.PlantData.TotalCropProfit: is CropProfit of the plant's figures, so it has the same exact product.
- CropData.CropData.TotalCropProfit: the same exact product, where CropData.cs:329 wraps in int32.
- CropData.CropData.Init: Days is the exact sum of the phase days. C#'s `DaysInPhase.Sum()` (CropData.cs:89) is checked and throws OverflowException when the sum leaves the int32 range. That throw is not modelled.
- CropData.CropData.New: builds through Init, with the same missing OverflowException.
- CropDataExpanded.CropDataExpanded.Days: the exact sum of the phase days. The checked `Sum()` of CropDataExpanded.cs:75 throws OverflowException past the int32 range, and that throw is not modelled.
- CropDataExpanded.CropDataExpanded.TotalHarvestsWithRemainingDays: uses the same exact sum. The checked `Sum()` of CropDataExpanded.cs:256 can throw OverflowException, and that throw is not modelled.
- UiMenus.Menu.GameWindowSizeChanged: the game's `IClickableMenu.gameWindowSizeChanged` runs first. Its body is game code. The position it leaves is an input, and anything else it changes is not modelled.
- Text.ToLower folds only the ASCII letters A-Z. The source's `ToLower()` is culture-sensitive. The keys it lower-cases are enum names, which are ASCII.
- UiComponents.Component.Passive and UiComponents.Component.Button start with an empty Tooltip. The source leaves it null. Its only reader, `string.IsNullOrEmpty` at BaseMenu.cs:338, treats the two alike.
- UIntOption.UIntOption.constructor stores Min and Max as numbers. The source holds `Func<uint>` delegates and calls them on each use, so a delegate whose value changes later is not modelled.
- Drop records are edited in place in the source. They are values here, replaced whole in the list, so aliasing of one `Drop` object between two tables is not captured.
- The `lock` in the Container classes is not modelled. The model is sequential.
- ShopStock.GetShopStock follows the newer accessor (ProfitCalculator/main/accessors/ShopAccessor.cs), which catches a failing `ItemQueryResolver.TryResolve` and skips that entry. The older accessor (ProfitCalculator/main/ShopAccessor.cs:44-122) differs in two ways, and neither is modelled:
  - It has no try/catch there, so the resolver's exception leaves GetShopStock.
  - At line 120 it passes its own `stock` dictionary to the game's `UpdateLocalStockWithSyncedQuanitities`, which can change the quantities in it. That routine is game code.
- Monitor logging is not modelled.
- `Calculator.SetSettings`: the calculator's settings are one record field, `Config`. `SetSettings` replaces the record instead of assigning thirteen fields one by one. The final state is the same.
- `Calculator.Calculator.RetrieveCropInfos` computes every plant's info and then keeps and sorts them. The source does this in one loop. The plant functions are pure, so the result, and which exception comes first, are the same.
- Sorting: `List.Sort` is not stable. The model proves the result is a permutation of the input, ordered by non-increasing profit per day. It does not fix the order among equal keys.
- ProfitCalculator/main/MachineAccessor.cs, ProfitCalculator/ModApi.cs, the config records and the declaration-only interface and layout files are not part of this model. They have no behaviour to state.

## Findings

| source | as written | input that shows it | evidently intended | confidence | as-written member | corrected member |
|---|---|---|---|---|---|---|
| ProfitCalculator/main/models/CustomBushData.cs:51-70 | the constructor gives the base constructor an empty DropInformation, and the base constructor reads `Drops[0]` | any bush: the drop list passed to the base is always empty, so `Drops[0]` throws ArgumentOutOfRange | build the bush with its own drops and leave the empty base table unread | not executed | CustomBushData.New | CustomBushData.NewCorrected |
| ProfitCalculator/main/ui/menus/ProfitCalculatorResultsList.cs:291-301 | `SetScrollFromY` interpolates between 0 and `count - 6`, which is negative when there are fewer than six crops | one crop, mouse dragged to the bottom of the track: the index becomes -5 and drawing the page throws | clamp the index to [0, max(0, count - 6)] | not executed | ResultsList.ScrollIndexAsWritten, ResultsList.ScrollPastShortListThrows | ResultsList.ScrollIndex |
| UIFramework/API/StardewUIAPI.cs:416-446 | a press of a menu's toggle key hides the visible menu. Then the "Open"+id hotkey that `RegisterMenu` (lines 74-86) registered for the same key runs and shows it again | a registered, visible menu and a press of its toggle key: it stays visible | the toggle key hides a visible menu | not executed | UiApi.StardewUIAPI.OnButtonPressedAsWritten, UiApi.ToggleKeyReopensMenu | UiApi.StardewUIAPI.OnButtonPressed, UiApi.ToggleKeyClosesMenu |
