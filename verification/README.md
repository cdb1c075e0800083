# Astral stardust economy: a Dafny model

This project models the core of an incremental ("idle") Unity game in which
the player earns stardust from generators. It covers:

- **Generators.** Each generator's output grows with its level and is
  compounded at two milestone tiers (weak and strong). Its next level costs
  geometrically more.
- **Global upgrades.** Buying an upgrade level raises one of three multipliers:
  global production, offline gain and generator cost reduction.
- **Game manager.** It holds the balance and the lifetime total. It credits
  production frame by frame and buys levels. It saves, loads and resets the
  progression through Unity's `PlayerPrefs` store, and on load it credits the
  production earned while the game was closed.
- **Pulsation mini-game.** Rhythmic clicks are judged, build a combo, fill a
  charge and can start a timed surge.
- **Number formatter.** It shows large amounts as a mantissa and a letter
  suffix.
- **Milestone stars.** A generator's panel shows its progress as stars.
- **Music player.** It shuffles its playlist without immediate repeats.

The modules follow the source files:

- `Numerics`: C# and Unity arithmetic.
- `Prefs`: `PlayerPrefs` as a map from keys to entries.
- `Generators`: `Generator.cs`.
- `Upgrades`: `GlobalUpgrade.cs` and `GlobalUpgradeManager.cs`.
- `Game`: `GameManager.cs`.
- `Pulsation`: `PulsationManager.cs`.
- `NumberFormat`: `NumberFormatter.cs`.
- `GeneratorStars`: the star logic of `GeneratorUI.cs`.
- `Music`: `RandomMusicPlayer.cs`.

How the source's forms and types are carried over:

- **Classes.** Objects whose fields the source updates in place are classes:
  `GameManager`, `UpgradeManager`, `PulsationManager`, `GeneratorUI` and
  `RandomMusicPlayer`. Their methods are proved against specification
  functions on values, such as `Credit`, `LoadSnapshot`, `Click`, `Tick`,
  `PaintStars` and `Alphabet`.
- **Generators and upgrades.** They are records held in sequences.
- **Numbers.** `double` and `float` become `real`.
- **Integer arithmetic.** C#'s truncating `/` and `%` are written out.
- **`Math.Pow`.** With a whole exponent it is a recursive power.
- **Unity reads.** The clock, `Time.deltaTime`, `DateTime.UtcNow.Ticks` and
  the `Random.Range` draws are parameters.

`GameManager.cs` contains an unresolved merge conflict. The model follows its
"Updated upstream" side, which resets `totalPerSecond` on reset and loads the
global upgrades before computing the offline gain.

Notes on the code's behaviour:

- The production formula compounds two milestone tiers, weak and strong,
  with no damping. The base rate is scaled by the `BaseProdUpgrade`
  percentage.
- The price of a level is a bare `Math.Pow`, with no clamp.
- Levels are bought one at a time.
- The pulsation multiplier is computed but never enters the production rate.

## Model

| member | source | states |
|---|---|---|
| Numerics.TruncDivModIdentity | Assets/Scripts/Generators/Generator.cs:88 | C#'s truncating quotient and remainder recompose the dividend. The remainder lies in [0, d) for a non-negative dividend and in (−d, 0] for a negative one. |
| Numerics.TruncDivMonotone | Assets/Scripts/Generators/Generator.cs:85-95 | For a positive divisor, the truncating quotient of non-negative dividends never falls as the dividend rises. |
| Generators.MilestoneCountBounds | Assets/Scripts/Generators/Generator.cs:85-95 | For a positive interval and a level ≥ 0, the count n satisfies n·interval ≤ level < (n+1)·interval. |
| Generators.MilestoneCountNonNegative | Assets/Scripts/Generators/Generator.cs:85-95 | A level ≥ 0 has completed a natural number of milestones, whatever the interval, and none when the interval is not positive. |
| Generators.UpgradeTierBounds | Assets/Scripts/Generators/Generator.cs:91-103 | The tier counts the strong intervals the level spans: tier·interval ≤ level < (tier+1)·interval for a positive interval and a level ≥ 0, with tier ≥ 0. With an interval ≤ 0 the tier is 0. |
| Generators.MilestoneFactorMonotone | Assets/Scripts/Generators/Generator.cs:61-82 | With a non-negative bonus, a tier's factor (1+bonus)^count is at least 1 and never falls as the count rises. |
| Generators.MilestoneMultiplier | Assets/Scripts/Generators/Generator.cs:61-82 | The compounded milestone bonus. Its properties are stated by `MilestoneMultiplierNeutral`, `MilestoneMultiplierAtLeastOne`, `MilestoneMultiplierClosedForm` and `MilestoneMultiplierMonotone`. |
| Generators.MilestoneMultiplierNeutral | Assets/Scripts/Generators/Generator.cs:61-82 | For any bonuses, the multiplier is exactly 1 at level ≤ 0. It is also 1 at a positive level with no completed milestone of either tier. |
| Generators.MilestoneMultiplierAtLeastOne | Assets/Scripts/Generators/Generator.cs:61-82 | With non-negative milestone bonuses, the multiplier is at least 1. At level ≤ 0 it is exactly 1, which `MilestoneMultiplierNeutral` states for any bonuses. |
| Generators.MilestoneMultiplierClosedForm | Assets/Scripts/Generators/Generator.cs:61-95 | At any positive level both counts are natural numbers, and the multiplier is (1+weak)^weakCount · (1+strong)^strongCount, the skipped factors being 1. |
| Generators.ProductionPerSecond | Assets/Scripts/Generators/Generator.cs:43-53 | Production is 0 at level ≤ 0. |
| Generators.ProductionClosedForm | Assets/Scripts/Generators/Generator.cs:43-53 | At a positive level, production is base · BaseProdUpgrade/100 · level times both milestone powers. |
| Generators.ProductionAtPositiveLevel | Assets/Scripts/Generators/Generator.cs:43-53 | At a positive level, with non-negative configuration, production is a non-negative base times the level times a multiplier of at least 1. |
| Generators.MilestoneCountMonotone | Assets/Scripts/Generators/Generator.cs:85-95 | Milestone counts never fall as a non-negative level rises. |
| Generators.MilestoneMultiplierMonotone | Assets/Scripts/Generators/Generator.cs:61-82 | With non-negative bonuses, the multiplier never falls as a positive level rises. |
| Generators.ProductionMonotone | Assets/Scripts/Generators/Generator.cs:43-95 | With a non-negative base, upgrade percentage and bonuses, production is non-negative and never falls as the level rises. |
| Generators.NextLevelCost | Assets/Scripts/Generators/Generator.cs:109-120 | The price of the next level: baseCost · costMultiplier^level, times the cost-reduction factor when a manager exists. `NextLevelCostIncreasing` states its properties. |
| Generators.NextLevelCostIncreasing | Assets/Scripts/Generators/Generator.cs:109-120 | With a positive base cost and reduction factor and a growth ratio above 1, the price is positive and strictly rises with every level, with or without an upgrade manager. |
| Generators.IsUnlocked | Assets/Scripts/Generators/Generator.cs:142-148 | A generator with a level is unlocked. Without a game manager it is unlocked exactly when it has a level. With a manager, a generator at level ≤ 0 is unlocked exactly when the lifetime total reaches `unlockAtStardust`. |
| Generators.IsUnlockedMonotone | Assets/Scripts/Generators/Generator.cs:142-148 | Earning more or owning more levels never locks an unlocked generator. |
| Upgrades.IsMaxed | Assets/Scripts/Upgrades/GlobalUpgrade.cs:34 | Whether the level has reached the cap. `IsMaxedCharacterised` states it case by case. |
| Upgrades.CurrentValue | Assets/Scripts/Upgrades/GlobalUpgrade.cs:36-40 | valuePerLevel · level. `CurrentValueLinear` states its properties. |
| Upgrades.NextCost | Assets/Scripts/Upgrades/GlobalUpgrade.cs:42-45 | baseCost · costMultiplier^level. `NextCostGeometric` states its properties. |
| Upgrades.IsMaxedCharacterised | Assets/Scripts/Upgrades/GlobalUpgrade.cs:34 | With maxLevel ≤ 0 an upgrade is never maxed. Otherwise it is maxed exactly when level ≥ maxLevel. |
| Upgrades.CurrentValueLinear | Assets/Scripts/Upgrades/GlobalUpgrade.cs:36-40 | The value is 0 at level 0 and rises by valuePerLevel per level. With 0.25 per level, level 2 gives 0.5. |
| Upgrades.NextCostGeometric | Assets/Scripts/Upgrades/GlobalUpgrade.cs:42-45 | The price is baseCost at level 0 and is multiplied by costMultiplier at every level. |
| Upgrades.AttemptsNeverPassMax | Assets/Scripts/Upgrades/GlobalUpgrade.cs:47-59 | Starting at or below a positive maxLevel, no series of purchase attempts, whatever the balances, pushes the level above maxLevel. |
| Upgrades.Apply | Assets/Scripts/Upgrades/GlobalUpgradeManager.cs:41-61 | One pass of the recompute loop on the three multipliers. `ApplyScales` states that it scales exactly its own kind's multiplier by the upgrade's factor. |
| Upgrades.Fold | Assets/Scripts/Upgrades/GlobalUpgradeManager.cs:33-63 | The recompute loop on values. `FoldIsProduct`, `FoldComponent` and `RecomputeOrderIndependent` state its properties. |
| Upgrades.FoldIsProduct | Assets/Scripts/Upgrades/GlobalUpgradeManager.cs:33-63 | The recompute loop leaves each multiplier equal to the product of its kind's factors over the list: 1+value for production and offline gain, 1−value for cost reduction, and 1 for unpurchased upgrades and other kinds. |
| Upgrades.FoldComponent | Assets/Scripts/Upgrades/GlobalUpgradeManager.cs:39-62 | For each of the three tracked kinds, the multiplier left by the loop is the product of that kind's factors over the list. |
| Upgrades.RecomputeOrderIndependent | Assets/Scripts/Upgrades/GlobalUpgradeManager.cs:39-62 | Reordering the upgrade list never changes the three multipliers. |
| Upgrades.ProductOfPermutation | Assets/Scripts/Upgrades/GlobalUpgradeManager.cs:39-62 | Each kind's product is the same for any permutation of the list. |
| Upgrades.NothingPurchasedIsNeutral | Assets/Scripts/Upgrades/GlobalUpgradeManager.cs:35-41 | With no upgrade above level 0, all three multipliers are 1. |
| Upgrades.OtherKindsNeutral | Assets/Scripts/Upgrades/GlobalUpgradeManager.cs:45-61 | A synergy, constellation or singularity upgrade anywhere in the list changes no multiplier. |
| Upgrades.SpliceNeutralFactor | Assets/Scripts/Upgrades/GlobalUpgradeManager.cs:39-62 | An upgrade whose factor is 1 can be removed from the list without changing the product. |
| Upgrades.ThreeProductionUpgradesExample | Assets/Scripts/Upgrades/GlobalUpgradeManager.cs:47-49 | Three +25% production upgrades compound to 1.25³ = 1.953125, and the other multipliers stay 1. |
| Upgrades.LoadUpgradeLevel | Assets/Scripts/Upgrades/GlobalUpgradeManager.cs:79-87 | Only the level changes. Without a key the upgrade is unchanged; with an integer entry it takes the stored level. `SaveThenLoadUpgrades` and `LoadWithoutKeys` state the list-wide properties. |
| Upgrades.SaveUpgradeLevels | Assets/Scripts/Upgrades/GlobalUpgradeManager.cs:66-74 | Every upgrade's level written under its key. `SaveUpgradeLevelsFrame` and `SavedUpgradeLevel` state its properties. |
| Upgrades.LoadUpgradeLevels | Assets/Scripts/Upgrades/GlobalUpgradeManager.cs:79-87 | Loading keeps the list's length. |
| Upgrades.SaveUpgradeLevelsFrame | Assets/Scripts/Upgrades/GlobalUpgradeManager.cs:66-74 | Saving upgrade levels leaves every other key of the store as it was. |
| Upgrades.SavedUpgradeLevel | Assets/Scripts/Upgrades/GlobalUpgradeManager.cs:66-74 | With distinct ids, each upgrade's key holds its level after the save. |
| Upgrades.SaveThenLoadUpgrades | Assets/Scripts/Upgrades/GlobalUpgradeManager.cs:66-87 | Loading after a save restores every saved level into a list of the same ids. Loading the saved list itself gives it back unchanged. |
| Upgrades.LoadWithoutKeys | Assets/Scripts/Upgrades/GlobalUpgradeManager.cs:79-87 | Each upgrade whose key is absent keeps its level, whatever other keys the store holds. A store with none of the keys leaves the list unchanged. |
| Upgrades.UpgradeManager.constructor | Assets/Scripts/Upgrades/GlobalUpgradeManager.cs:9-14 | A new manager holds the given list and three neutral multipliers. |
| Upgrades.UpgradeManager.RecomputeMultipliers | Assets/Scripts/Upgrades/GlobalUpgradeManager.cs:33-63 | The list is untouched, and the multipliers become the fold of the list (`Consistent`). |
| Upgrades.UpgradeManager.ApplyUpgrade | Assets/Scripts/Upgrades/GlobalUpgradeManager.cs:43-61 | One pass of the loop: the three multipliers become `Apply` of the old ones, so an owned upgrade scales exactly its own kind's multiplier by its factor. |
| Upgrades.UpgradeManager.SaveUpgrades | Assets/Scripts/Upgrades/GlobalUpgradeManager.cs:66-74 | The new store is the old one with every upgrade's level written under its key. |
| Upgrades.UpgradeManager.LoadUpgrades | Assets/Scripts/Upgrades/GlobalUpgradeManager.cs:77-90 | Every upgrade with a key takes the stored level, the others keep theirs, and the multipliers are recomputed. |
| Prefs.TryParseDouble | Assets/Scripts/GameManager.cs:199 | A double parses exactly when the text is numeric. |
| Prefs.TryParseLong | Assets/Scripts/GameManager.cs:251 | A long parses only within the 64-bit range. |
| Prefs.EncodingsRoundTrip | Assets/Scripts/GameManager.cs:95-109 | A double written with `ToString("R")`, or a long written with `ToString()`, parses back to itself. |
| Prefs.GeneratorKeyInjective | Assets/Scripts/GameManager.cs:103 | Distinct generator ids have distinct level keys. |
| Prefs.UpgradeKeyInjective | Assets/Scripts/Upgrades/GlobalUpgradeManager.cs:71 | Distinct upgrade ids have distinct level keys. |
| Prefs.KeysDistinct | Assets/Scripts/GameManager.cs:20-22 | Generator keys, upgrade keys and the three currency and time keys never collide. |
| Game.Credit | Assets/Scripts/GameManager.cs:65-73 | An amount ≤ 0 changes nothing. Otherwise the lifetime total rises by exactly the amount, and so does the balance unless it would fall below 0. Neither field ever decreases, and a non-negative balance stays non-negative. |
| Game.Debit | Assets/Scripts/GameManager.cs:78-87 | Spending succeeds exactly when the balance covers the amount. It then deducts exactly the amount, leaves the balance non-negative and never touches the lifetime total. |
| Game.UnlockedCount | Assets/Scripts/GameManager.cs:292-299 | The number of unlocked generators never exceeds the number of generators. |
| Game.RateWithoutManager | Assets/Scripts/GameManager.cs:289-343 | Without an upgrade manager, the rate is the plain sum of the generators' production. |
| Game.AllIdleRateZero | Assets/Scripts/GameManager.cs:289-343 | With no generator above level 0, the rate is 0. |
| Game.Contribution | Assets/Scripts/GameManager.cs:302-316 | A generator's production, times the constellation bonus for its tier when a manager with a positive bonus exists. `ContributionAtLeastProduction` states its properties. |
| Game.EffectiveRate | Assets/Scripts/GameManager.cs:289-343 | Summed contributions times the global, synergy and singularity factors. `RateWithoutManager`, `AllIdleRateZero` and `RateNonNegative` state its properties. |
| Game.ContributionAtLeastProduction | Assets/Scripts/GameManager.cs:302-316 | The constellation bonus never lowers a generator's contribution below its production. |
| Game.SumNonNegative | Assets/Scripts/GameManager.cs:294-319 | With non-negative configurations, the summed contributions are non-negative. |
| Game.RateNonNegative | Assets/Scripts/GameManager.cs:289-343 | With non-negative configurations, global multiplier and singularity multiplier, the effective rate is non-negative. |
| Game.LoadReal | Assets/Scripts/GameManager.cs:196-213 | A missing key or an unparseable text keeps the current value. A parseable text loads the number it spells. An integer entry loads 0, the parse of `GetString`'s "0" default. |
| Game.LoadGeneratorLevel | Assets/Scripts/GameManager.cs:216-231 | Only the level changes: it becomes the stored integer, or 0 when the key is absent. |
| Game.LoadGeneratorLevels | Assets/Scripts/GameManager.cs:216-231 | Loading keeps the generator count. |
| Game.OfflineSeconds | Assets/Scripts/GameManager.cs:248-256 | The time away is never negative. There is no offline credit without a saved time. |
| Game.OfflineSecondsAfterSave | Assets/Scripts/GameManager.cs:248-256 | After a save at a valid time, the time away is the elapsed ticks over 10^7. It is 0 when the clock reads earlier than the save. |
| Game.LoadFields | Assets/Scripts/GameManager.cs:193-242 | Loading keeps the generator count and the presence of a manager, and leaves the manager's multipliers consistent with its loaded levels. |
| Game.LoadSnapshot | Assets/Scripts/GameManager.cs:193-278 | The offline credit changes only the wallet and never lowers the loaded balance or lifetime total. Without a parseable saved time, the load is just the loaded fields. |
| Game.OfflineCredit | Assets/Scripts/GameManager.cs:247-278 | The credit for the time away: rate × seconds × the offline multiplier when a manager exists, and 0 without a usable saved time. `LoadSnapshot` and `SaveThenLoad` state its properties. |
| Game.ZeroGeneratorLevels | Assets/Scripts/GameManager.cs:137-151 | Resetting keeps the generator count, sets every level to 0 and leaves every other field of each generator as it was. |
| Game.ZeroUpgradeLevels | Assets/Scripts/GameManager.cs:159-166 | Resetting keeps the upgrade count, sets every level to 0 and leaves every other field of each upgrade as it was. |
| Game.DeleteGeneratorKeysContents | Assets/Scripts/GameManager.cs:137-151 | After the deletions, exactly the keys other than the generators' level keys remain, with their entries. |
| Game.DeleteUpgradeKeysContents | Assets/Scripts/GameManager.cs:159-166 | After the deletions, exactly the keys other than the upgrades' level keys remain, with their entries. |
| Game.ResetStore | Assets/Scripts/GameManager.cs:129-182 | The store after a reset. `ResetStoreClears` and `ResetThenLoad` state its properties. |
| Game.ResetSnapshot | Assets/Scripts/GameManager.cs:129-182 | The state after a reset: an empty wallet, every level 0 and neutral multipliers. `ResetThenLoad` states its properties. |
| Game.ResetStoreClears | Assets/Scripts/GameManager.cs:129-182 | After a reset, no generator, upgrade, currency or last-save key is left. |
| Game.ResetThenLoad | Assets/Scripts/GameManager.cs:129-278 | Loading from a reset store gives the reset state back: zero wallet and levels, neutral multipliers, no offline credit. |
| Game.SaveGeneratorLevelsFrame | Assets/Scripts/GameManager.cs:100-105 | Saving generator levels leaves every other key as it was. |
| Game.SavedGeneratorLevel | Assets/Scripts/GameManager.cs:100-105 | With distinct ids, each generator's key holds its level. |
| Game.SaveStore | Assets/Scripts/GameManager.cs:92-120 | The store after a save. `SaveStoreEntries`, `SaveGeneratorLevelsFrame` and `SaveThenLoad` state its properties. |
| Game.SaveStoreEntries | Assets/Scripts/GameManager.cs:92-120 | A save writes the balance, the lifetime total, the save time and every generator's level. |
| Game.SaveThenLoad | Assets/Scripts/GameManager.cs:92-278 | Saving a consistent state with distinct ids at a valid time, then loading at that same time into the same configuration, restores the state exactly: no time has passed, so there is no offline credit. |
| Game.GameManager.constructor | Assets/Scripts/GameManager.cs:10-17 | A new manager has a zero wallet and a zero rate. |
| Game.GameManager.AddStardust | Assets/Scripts/GameManager.cs:65-73 | The wallet becomes `Credit` of the old wallet. |
| Game.GameManager.SpendStardust | Assets/Scripts/GameManager.cs:78-87 | Succeeds exactly when `Debit` does. The wallet is then the debited one, and otherwise unchanged. |
| Game.GameManager.TryBuyLevel | Assets/Scripts/Generators/Generator.cs:126-137 | The purchase succeeds exactly when the balance covers the next-level cost, including the cost reduction when a manager exists. It then pays that cost and raises only that generator's level by one. Otherwise nothing changes. |
| Game.GameManager.TryBuyUpgrade | Assets/Scripts/Upgrades/GlobalUpgrade.cs:47-59 | The purchase succeeds exactly when the upgrade is not maxed and is affordable. It then pays, raises the level and recomputes the multipliers. A failed purchase changes neither the level nor the multipliers. |
| Game.GameManager.ComputeTotalProductionPerSecond | Assets/Scripts/GameManager.cs:289-343 | The loop's accumulators yield exactly the rate of the current state: summed contributions × global × synergy × singularity. |
| Game.GameManager.SumGenerators | Assets/Scripts/GameManager.cs:291-319 | The loop's sum is exactly the summed contributions of the generators, with the constellation bonus, and its counter is the number of unlocked generators. |
| Game.GameManager.Update | Assets/Scripts/GameManager.cs:41-55 | The stored rate is the state's rate, and the wallet is credited with rate·dt (nothing when that is not positive). |
| Game.GameManager.SaveGame | Assets/Scripts/GameManager.cs:92-120 | The new store is `SaveStore` of the current state. |
| Game.GameManager.LoadGame | Assets/Scripts/GameManager.cs:193-278 | The new state is `LoadSnapshot` of the old state, and the displayed rate is not touched. |
| Game.GameManager.LoadSavedFields | Assets/Scripts/GameManager.cs:193-241 | The state becomes `LoadFields` of the old state: the two currency fields, the generator levels and the upgrade levels are loaded, with the multipliers recomputed. |
| Game.GameManager.CreditOffline | Assets/Scripts/GameManager.cs:247-278 | The wallet is credited, through the add gate, with the offline amount computed from the state as loaded: rate × seconds away, times the offline multiplier when a manager exists. |
| Game.GameManager.LoadGeneratorLevelsInPlace | Assets/Scripts/GameManager.cs:216-231 | Every generator takes its stored level, or 0 without a key. |
| Game.GameManager.ResetGame | Assets/Scripts/GameManager.cs:129-182 | The state becomes `ResetSnapshot`, the rate 0, and the store `ResetStore`. The manager's multipliers stay consistent. |
| Game.GameManager.ResetGeneratorLevels | Assets/Scripts/GameManager.cs:137-151 | Every generator level becomes 0 and its key is deleted. |
| Game.GameManager.ResetUpgradeLevels | Assets/Scripts/GameManager.cs:157-166 | Every upgrade level becomes 0 and its key is deleted. |
| Pulsation.Classify | Assets/Scripts/PulsationManager.cs:126-136 | Every click is judged. With flow off it is Good. Otherwise it is Perfect exactly within the perfect window and Miss exactly beyond both windows. |
| Pulsation.ClassifyMonotone | Assets/Scripts/PulsationManager.cs:126-136 | A click closer to the ideal interval is never judged worse. |
| Pulsation.ComboAfter | Assets/Scripts/PulsationManager.cs:140-145 | The combo never exceeds the cap. It rises by 2 on Perfect and 1 on Good when under the cap. A Miss resets it when so configured and keeps it otherwise. |
| Pulsation.ChargeGained | Assets/Scripts/PulsationManager.cs:147-157 | The charge a click adds: base × quality factor × combo bonus. `ChargeGainedNonNegative` states its property. |
| Pulsation.ChargeGainedNonNegative | Assets/Scripts/PulsationManager.cs:147-157 | With non-negative base, bonus and combo, a click never removes charge. |
| Pulsation.StartSurge | Assets/Scripts/PulsationManager.cs:167-175 | Starting a surge activates it and leaves the charge in [0, 1]. |
| Pulsation.Clicked | Assets/Scripts/PulsationManager.cs:112-159 | A click up to the surge check: the timing judged, the combo advanced and the charge added. `ClickStartsSurgeIff` and `ClickPreservesValid` state its properties. |
| Pulsation.Click | Assets/Scripts/PulsationManager.cs:112-175 | A whole click, with the surge check. `ClickPreservesValid` and `ClickStartsSurgeIff` state its properties. |
| Pulsation.Tick | Assets/Scripts/PulsationManager.cs:86-103 | One frame of charge decay and surge countdown. `TickPreservesValid`, `TickSurgeCountdown` and `TickNeverRaisesCharge` state its properties. |
| Pulsation.ClickPreservesValid | Assets/Scripts/PulsationManager.cs:112-165 | A click keeps the charge in [0, 1], keeps a stopped surge at 0 time left, and keeps the combo within the cap. |
| Pulsation.TickPreservesValid | Assets/Scripts/PulsationManager.cs:86-103 | A frame keeps the same invariant. |
| Pulsation.TickSurgeCountdown | Assets/Scripts/PulsationManager.cs:94-102 | A running surge loses dt. Once nothing is left it ends with 0 remaining. Without a surge, the surge fields stay. |
| Pulsation.TickNeverRaisesCharge | Assets/Scripts/PulsationManager.cs:88-92 | With non-negative decay and dt, a frame never raises the charge. |
| Pulsation.ClickStartsSurgeIff | Assets/Scripts/PulsationManager.cs:161-175 | A surge starts exactly when none runs, the charge is full and the combo reaches the threshold. It then runs for the full duration with the charge reset. A running surge is never restarted. |
| Pulsation.ProductionMultiplier | Assets/Scripts/PulsationManager.cs:180-188 | The production multiplier: charge interpolated between 1 and the maximum, times the combo bonus, times the surge multiplier. `ProductionMultiplierAtLeastOne` states its property. |
| Pulsation.ProductionMultiplierAtLeastOne | Assets/Scripts/PulsationManager.cs:180-188 | With a maximum ≥ 1, a non-negative combo bonus and a surge multiplier ≥ 1, the multiplier is at least 1. |
| Pulsation.PulsationManager.constructor | Assets/Scripts/PulsationManager.cs:9 | The manager starts with no charge, no combo and no surge, with the last click at −999, and in a valid state. |
| Pulsation.PulsationManager.Update | Assets/Scripts/PulsationManager.cs:86-103 | The new state is `Tick` of the old one, and validity is preserved. |
| Pulsation.PulsationManager.RegisterClick | Assets/Scripts/PulsationManager.cs:112-165 | The new state is `Click` of the old one. Validity is preserved, and the combo stays within the cap. |
| Pulsation.PulsationManager.ApplyClick | Assets/Scripts/PulsationManager.cs:112-159 | The state becomes `Clicked` of the old one: judged, combo advanced and charge added, before the surge check. |
| Pulsation.PulsationManager.JudgeTiming | Assets/Scripts/PulsationManager.cs:114-138 | It records the click time and the signed and absolute distances to the ideal interval, and returns the `Classify` judgement. |
| Pulsation.PulsationManager.AdvanceCombo | Assets/Scripts/PulsationManager.cs:140-145 | The combo becomes `ComboAfter` of the old one. |
| Pulsation.PulsationManager.AddCharge | Assets/Scripts/PulsationManager.cs:147-159 | The charge becomes clamp01(old + gained). |
| Pulsation.PulsationManager.TriggerSurge | Assets/Scripts/PulsationManager.cs:167-175 | The state becomes `StartSurge` of the old one. |
| Pulsation.PulsationManager.GetProductionMultiplier | Assets/Scripts/PulsationManager.cs:180-188 | It returns the multiplier of the current state, which is at least 1 under the bounds above. |
| NumberFormat.Alphabet | Assets/Scripts/NumberFormatter.cs:34-51 | The suffix is empty exactly for tiers ≤ 0, and it uses only the letters a to z. |
| NumberFormat.Decode | Assets/Scripts/NumberFormatter.cs:38-48 | A lowercase suffix reads back as a non-negative tier. |
| NumberFormat.DecodeAlphabet | Assets/Scripts/NumberFormatter.cs:38-50 | Reading back the suffix of a tier gives the tier. |
| NumberFormat.AlphabetDecode | Assets/Scripts/NumberFormatter.cs:38-50 | Every lowercase word is the suffix of the tier it reads as, so the spelling is a bijection. |
| NumberFormat.AlphabetInjective | Assets/Scripts/NumberFormatter.cs:38-50 | Distinct tiers have distinct suffixes. |
| NumberFormat.SingleLetters | Assets/Scripts/NumberFormatter.cs:38-48 | Tiers 1 to 26 are the single letters a to z. |
| NumberFormat.AlphabetExamples | Assets/Scripts/NumberFormatter.cs:38-48 | 1 is "a", 26 is "z" and 27 is "aa". |
| NumberFormat.TierToAlphabet | Assets/Scripts/NumberFormatter.cs:34-51 | The builder loop returns exactly `Alphabet(tier)`. |
| NumberFormat.ScaleDown | Assets/Scripts/NumberFormatter.cs:18-28 | value = mantissa · 1000^tier. Below 1000 the tier is 0. From 1000 on, the tier is 1 to 1001 and the mantissa is ≥ 1. The mantissa ends below 1000 unless the guard stopped the loop at tier 1001. |
| NumberFormat.Format | Assets/Scripts/NumberFormatter.cs:5-32 | NaN shows "0" and either infinity shows "∞". A finite value below 1000 has no suffix. Otherwise the suffix reads back as the tier, with mantissa · 1000^tier = value and mantissa ≥ 1. |
| GeneratorStars.StarLayout | Assets/Scripts/Generators/GeneratorUI.cs:179-208 | Below level 100, cycles and local hundreds are 0. From 100 on, local hundreds are 1 to starCount and cycles·starCount + localHundreds = level/100. There are 0 to 3 orange stars, min((level%100)/25, starCount − localHundreds), never overflowing the row. |
| GeneratorStars.StarColourAt | Assets/Scripts/Generators/GeneratorUI.cs:211-238 | The colour of one star of the row for a layout. `StarCounts` states how many stars get each colour. |
| GeneratorStars.PaintStars | Assets/Scripts/Generators/GeneratorUI.cs:211-238 | Painting keeps the row's length. |
| GeneratorStars.PaintRanks | Assets/Scripts/Generators/GeneratorUI.cs:252-260 | Painting keeps the rank row's length. |
| GeneratorStars.StarCounts | Assets/Scripts/Generators/GeneratorUI.cs:174-238 | With every image present, the row shows one gold star from level 1000, localHundreds red stars (less the gold one), orangeCount orange stars and grey for the rest. |
| GeneratorStars.RankCount | Assets/Scripts/Generators/GeneratorUI.cs:247-261 | With every image present, exactly clamp(cycles, 0, count) rank stars are lit. |
| GeneratorStars.StarsReadLevel | Assets/Scripts/Generators/GeneratorUI.cs:183-208 | The red and orange stars and the cycles never account for more than the level. When the oranges are not cut short, they account for it to within 25 levels. |
| GeneratorStars.GoldLatch | Assets/Scripts/Generators/GeneratorUI.cs:267-290 | Without a generator nothing happens. Otherwise the latch is set exactly when level ≥ 1000, and it fires exactly when level ≥ 1000 with the latch open (the sound then plays when a source and a clip are set). |
| GeneratorStars.GoldRun | Assets/Scripts/Generators/GeneratorUI.cs:267-290 | A series of refreshes yields one firing flag per refresh. |
| GeneratorStars.GoldRunFiresOnCrossing | Assets/Scripts/Generators/GeneratorUI.cs:267-290 | Over successive refreshes, the latch fires exactly at the refreshes that see level ≥ 1000 after one that saw less, or at the first refresh when the latch was open: once per crossing. |
| GeneratorStars.GeneratorUI.constructor | Assets/Scripts/Generators/GeneratorUI.cs:28-46 | A panel starts with the latch open. |
| GeneratorStars.GeneratorUI.UpdateUpgradeStars | Assets/Scripts/Generators/GeneratorUI.cs:174-242 | With an empty row or no generator, nothing changes. Otherwise both rows become `PaintStars` and `PaintRanks` of the old rows, for the layout of the level. |
| GeneratorStars.GeneratorUI.UpdateRankStars | Assets/Scripts/Generators/GeneratorUI.cs:247-261 | The rank row becomes `PaintRanks` of the old row. |
| GeneratorStars.GeneratorUI.CheckGoldTierEffects | Assets/Scripts/Generators/GeneratorUI.cs:267-290 | The latch and the firing flag are `GoldLatch` of the old latch. |
| Music.RandomIndex | Assets/Scripts/Music/RandomMusicPlayer.cs:72-89 | A single track is index 0. Draws in range give an index in range. With repeat avoidance and two or more tracks, the index is never the last one. Otherwise the first draw is kept. |
| Music.Playlist | Assets/Scripts/Music/RandomMusicPlayer.cs:44-89 | One index is played per pair of draws. |
| Music.NoImmediateRepeat | Assets/Scripts/Music/RandomMusicPlayer.cs:72-89 | With repeat avoidance, two or more tracks and draws in range, successive plays are in range and never repeat the previous track, including the one playing before. |
| Music.PlaylistFollowsDraws | Assets/Scripts/Music/RandomMusicPlayer.cs:76-88 | Without repeat avoidance, every play is the first draw. |
| Music.RandomMusicPlayer.constructor | Assets/Scripts/Music/RandomMusicPlayer.cs:9-18 | A player starts at volume 1 with no last index (−1) and nothing playing. |
| Music.RandomMusicPlayer.PlayRandomTrack | Assets/Scripts/Music/RandomMusicPlayer.cs:44-59 | An empty playlist changes nothing. Otherwise the chosen index becomes `_lastIndex`, its clip plays at the player's volume, and with repeat avoidance it differs from the previous index. |
| Music.RandomMusicPlayer.SetVolume | Assets/Scripts/Music/RandomMusicPlayer.cs:66-70 | The volume is clamped to [0, 1], kept as given when already inside, and applied to the source. |

## Left out

- **IEEE-754 behaviour.** NaN, infinities, overflow of `Math.Pow` and
  rounding are not modelled. Currency, timings and multipliers are exact
  reals, and the 32-bit `float` of the pulsation mini-game is also a real.
  `NumberFormat.Format` takes NaN and the infinities as explicit cases of its
  input instead.
- **`Numerics.IntPow`.** With a zero base and a negative exponent it yields
  0, where `Math.Pow` yields +Infinity.
- **32-bit integers.** Overflow of C# `int` levels, combo and tier is not
  modelled; they are unbounded integers.
- **Null entries.** Null entries in the generator, upgrade and track lists
  are not modelled: the lists hold present entries only. A null list of star
  images behaves like an empty one. Missing images inside a star row are
  modelled (`None`).
- **Unity plumbing.** The singletons (`Instance`, `Destroy`,
  `DontDestroyOnLoad`), `Awake`/`Start`/`OnApplicationQuit` and `Debug.Log`
  are left out, as are the audio calls other than the modelled clip, volume
  and playing state, and the `Image.color` writes (colours are an enum).
  `GameManager` holds its upgrade manager as a possibly null reference
  instead of reading `GlobalUpgradeManager.Instance`.
- **Clock and randomness.** `Time.deltaTime`, `Time.unscaledTime`,
  `Time.unscaledDeltaTime`, `DateTime.UtcNow` and `Random.Range` are
  parameters.
- **Date range.** `new DateTime(ticks)` throws for saved ticks outside
  0..3155378975999999999. That case is modelled as "no offline credit"
  rather than as an exception.
- **Text encodings.** The text encoding of saved doubles and longs
  (`ToString("R")`, `TryParse`) is abstract: a numeric text is the number it
  spells. The `"0.##"` rendering of the mantissa is not modelled;
  `NumberFormat.Format` returns the mantissa and the suffix.
- **`PlayerPrefs.Save`.** Flushing the store to disk is not modelled.
- **Undeclared fields.** `constellationTierBonus`, `synergyPerGenerator`
  and `singularityMultiplier` are read by `GameManager.cs` but declared
  nowhere in the code shown. They are an `ExtraBonuses` parameter of the rate
  computation.
- **Purchase methods.** `Generator.TryBuyLevel` and `GlobalUpgrade.TryBuy`
  act on the game manager's balance, so they are modelled as
  `GameManager.TryBuyLevel` and `GameManager.TryBuyUpgrade`.
- **Merge conflict.** The "Stashed changes" side of the merge conflict in
  `GameManager.cs` is not modelled.
- **Music playback.** `RandomMusicPlayer`'s `Update` (auto-advance when a
  track ends), `Start` and `StopMusic` depend on the audio source's playing
  state over time and are not modelled.
- **Gold latch reset.** `ApplyVisualFromGenerator` re-opens the gold-tier
  latch (`Assets/Scripts/Generators/GeneratorUI.cs:122`) and runs from both
  `Start` and `Init`. It is not modelled, so the "once per crossing" property
  covers successive refreshes only. A panel set up at level ≥ 1000 through
  `Init` and then `Start` would fire twice without a crossing.
- **Sound playback.** The gold-tier sound plays only when `sfxSource` and
  `goldTierSfx` are set. The model records whether the latch fired.
- **Presentation of `GeneratorUI.cs`.** Its text labels, button wiring and
  lock display are not part of this model.
- **Split methods.** `Pulsation.PulsationManager.RegisterClick` is one
  method in the source. The model splits it into `ApplyClick` (itself
  `JudgeTiming`, `AdvanceCombo` and `AddCharge`) and the surge check, in the
  source's order. Likewise, `LoadGame` is `LoadSavedFields` followed by
  `CreditOffline`, with its generator loop in `LoadGeneratorLevelsInPlace`;
  the loop of `ComputeTotalProductionPerSecond` is `SumGenerators`; the
  generator half of `ResetGame` is `ResetGeneratorLevels`; and one pass of
  the recompute loop of `GlobalUpgradeManager` is `ApplyUpgrade`.
