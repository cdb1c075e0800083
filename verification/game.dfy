/** The economy engine: the balance and the lifetime total with their add and
    spend gates, the per-frame accrual at the aggregate production rate, the
    purchases of generator and upgrade levels, and saving, loading (with the
    credit for the time spent away) and resetting the progression. */
module Game {
  import opened Numerics
  import opened Prefs
  import opened Generators
  import opened Upgrades

  /** A `DateTime` tick is 100 ns; the largest tick count a `DateTime` accepts. */
  const TicksPerSecond: int := 10_000_000
  const MaxTicks: int := 3_155_378_975_999_999_999

  /** The three bonuses the rate reads from the upgrade manager although the
      manager never declares them: the constellation bonus per strong tier,
      the synergy per unlocked generator and the singularity multiplier. */
  datatype ExtraBonuses = ExtraBonuses(constellationTierBonus: real, synergyPerGenerator: real, singularityMultiplier: real)

  /** What the rate reads from the upgrade manager, when one exists. */
  datatype RateFactors = RateFactors(globalProduction: real, extras: ExtraBonuses)

  /** The balance and the lifetime total. */
  datatype Wallet = Wallet(stardust: real, totalEarned: real)

  // ---------------------------------------------------------------------
  // The add and spend gates

  /** `AddStardust`: a positive amount raises the balance and the lifetime
      total alike, and the balance is then floored at 0; any other amount
      changes nothing. */
  function Credit(w: Wallet, amount: real): (r: Wallet)
    ensures amount <= 0.0 ==> r == w
    ensures amount > 0.0 ==> r.totalEarned == w.totalEarned + amount
    ensures amount > 0.0 && w.stardust + amount >= 0.0 ==> r.stardust == w.stardust + amount
    ensures r.stardust >= w.stardust && r.totalEarned >= w.totalEarned
    ensures w.stardust >= 0.0 ==> r.stardust >= 0.0
  {
    if amount <= 0.0 then w
    else
      var s := w.stardust + amount;
      Wallet(if s < 0.0 then 0.0 else s, w.totalEarned + amount)
  }

  /** `SpendStardust`: succeeds exactly when the balance covers the amount,
      never overdraws, and never touches the lifetime total. */
  function Debit(w: Wallet, amount: real): (r: Option<Wallet>)
    ensures r.Some? <==> w.stardust >= amount
    ensures r.Some? ==> r.value.stardust + amount == w.stardust && r.value.stardust >= 0.0
    ensures r.Some? ==> r.value.totalEarned == w.totalEarned
  {
    if w.stardust >= amount then Some(Wallet(w.stardust - amount, w.totalEarned)) else None
  }

  // ---------------------------------------------------------------------
  // The aggregate production rate

  /** One generator's share of the sum: its production, raised by the
      constellation bonus per strong tier when a manager exists and both the
      bonus and the tier are positive. */
  function Contribution(g: Generator, f: Option<RateFactors>): real
  {
    var prod := ProductionPerSecond(g);
    if f.Some? && f.value.extras.constellationTierBonus > 0.0 && UpgradeTier(g) > 0
    then prod * (1.0 + f.value.extras.constellationTierBonus * (UpgradeTier(g) as real))
    else prod
  }

  /** The sum the loop accumulates over the generators, in list order. */
  function SumContributions(gens: seq<Generator>, f: Option<RateFactors>): real
  {
    if gens == [] then 0.0
    else SumContributions(gens[..|gens| - 1], f) + Contribution(gens[|gens| - 1], f)
  }

  /** The number of unlocked generators, judged against the lifetime total. */
  function UnlockedCount(gens: seq<Generator>, lifetime: real): (n: nat)
    ensures n <= |gens|
  {
    if gens == [] then 0
    else UnlockedCount(gens[..|gens| - 1], lifetime) + (if IsUnlocked(gens[|gens| - 1], Some(lifetime)) then 1 else 0)
  }

  lemma PrefixStep(gens: seq<Generator>, i: nat, lifetime: real, f: Option<RateFactors>)
    requires i < |gens|
    ensures SumContributions(gens[..i + 1], f) == SumContributions(gens[..i], f) + Contribution(gens[i], f)
    ensures UnlockedCount(gens[..i + 1], lifetime)
         == UnlockedCount(gens[..i], lifetime) + (if IsUnlocked(gens[i], Some(lifetime)) then 1 else 0)
  {
    assert gens[..i + 1][..i] == gens[..i];
  }

  /** The synergy factor: 1 + perGen per unlocked generator when both are positive. */
  function Synergy(perGen: real, count: nat): real
  {
    if perGen > 0.0 && count > 0 then 1.0 + perGen * (count as real) else 1.0
  }

  /** The factors applied after the loop: the sum times the global,
      synergy and singularity factors, each of which is 1 without an upgrade manager. */
  function RateFromParts(sum: real, f: Option<RateFactors>, unlocked: nat): real
  {
    if f.None? then sum * 1.0 * 1.0 * 1.0
    else
      var synergy := Synergy(f.value.extras.synergyPerGenerator, unlocked);
      sum * f.value.globalProduction * synergy * f.value.extras.singularityMultiplier
  }

  /** `ComputeTotalProductionPerSecond` over a list of generators. */
  function EffectiveRate(gens: seq<Generator>, lifetime: real, f: Option<RateFactors>): real
  {
    RateFromParts(SumContributions(gens, f), f, UnlockedCount(gens, lifetime))
  }

  /** The rate from its four parts, as the loop and the code after it compute them. */
  lemma EffectiveRateFromParts(gens: seq<Generator>, lifetime: real, f: Option<RateFactors>,
                               sum: real, global: real, synergy: real, singularity: real)
    requires sum == SumContributions(gens, f)
    requires f.None? ==> global == 1.0 && synergy == 1.0 && singularity == 1.0
    requires f.Some? ==> global == f.value.globalProduction && singularity == f.value.extras.singularityMultiplier
    requires f.Some? ==> synergy == Synergy(f.value.extras.synergyPerGenerator, UnlockedCount(gens, lifetime))
    ensures EffectiveRate(gens, lifetime, f) == sum * global * synergy * singularity
  {
    PartsProduct(sum, f, UnlockedCount(gens, lifetime), global, synergy, singularity);
  }

  lemma PartsProduct(sum: real, f: Option<RateFactors>, unlocked: nat, global: real, synergy: real, singularity: real)
    requires f.None? ==> global == 1.0 && synergy == 1.0 && singularity == 1.0
    requires f.Some? ==> global == f.value.globalProduction && singularity == f.value.extras.singularityMultiplier
    requires f.Some? ==> synergy == Synergy(f.value.extras.synergyPerGenerator, unlocked)
    ensures RateFromParts(sum, f, unlocked) == sum * global * synergy * singularity
  {
  }

  /** The plain sum of the generators' production. */
  function TotalProduction(gens: seq<Generator>): real
  {
    if gens == [] then 0.0 else ProductionPerSecond(gens[0]) + TotalProduction(gens[1..])
  }

  lemma {:induction false} TotalProductionSnoc(gens: seq<Generator>, g: Generator)
    ensures TotalProduction(gens + [g]) == TotalProduction(gens) + ProductionPerSecond(g)
  {
    if gens != [] {
      assert (gens + [g])[1..] == gens[1..] + [g];
      TotalProductionSnoc(gens[1..], g);
    }
  }

  /** Without an upgrade manager the rate is the plain sum of production. */
  lemma {:induction false} RateWithoutManager(gens: seq<Generator>, lifetime: real)
    ensures EffectiveRate(gens, lifetime, None) == TotalProduction(gens)
    ensures SumContributions(gens, None) == TotalProduction(gens)
  {
    if gens != [] {
      var init, last := gens[..|gens| - 1], gens[|gens| - 1];
      RateWithoutManager(init, lifetime);
      assert gens == init + [last];
      TotalProductionSnoc(init, last);
    }
  }

  /** With every generator at level 0 or below nothing is produced, whatever the factors. */
  lemma {:induction false} AllIdleRateZero(gens: seq<Generator>, lifetime: real, f: Option<RateFactors>)
    requires forall i :: 0 <= i < |gens| ==> gens[i].level <= 0
    ensures SumContributions(gens, f) == 0.0
    ensures EffectiveRate(gens, lifetime, f) == 0.0
  {
    if gens != [] {
      AllIdleRateZero(gens[..|gens| - 1], lifetime, f);
    }
  }

  /** Generators whose base production, upgrade percentage and milestone
      bonuses are non-negative. */
  predicate NonNegativeConfig(g: Generator)
  {
    g.baseProductionPerSecond >= 0.0 && g.baseProdUpgrade >= 0.0 && NonNegativeMilestones(g)
  }

  /** The constellation bonus never lowers a generator's share. */
  lemma ContributionAtLeastProduction(g: Generator, f: Option<RateFactors>)
    requires NonNegativeConfig(g)
    ensures 0.0 <= ProductionPerSecond(g) <= Contribution(g, f)
  {
    if g.level > 0 {
      ProductionMonotone(g, 0, g.level);
      assert g.(level := g.level) == g;
    }
    var prod := ProductionPerSecond(g);
    if f.Some? && f.value.extras.constellationTierBonus > 0.0 && UpgradeTier(g) > 0 {
      var c := f.value.extras.constellationTierBonus * (UpgradeTier(g) as real);
      MulMonotone(0.0, 0.0, f.value.extras.constellationTierBonus, UpgradeTier(g) as real);
      MulMonotone(prod, 1.0, prod, 1.0 + c);
    }
  }

  lemma {:induction false} SumNonNegative(gens: seq<Generator>, f: Option<RateFactors>)
    requires forall i :: 0 <= i < |gens| ==> NonNegativeConfig(gens[i])
    ensures SumContributions(gens, f) >= 0.0
  {
    if gens != [] {
      SumNonNegative(gens[..|gens| - 1], f);
      ContributionAtLeastProduction(gens[|gens| - 1], f);
    }
  }

  /** The rate is never negative when the configuration and the manager's
      global and singularity factors are non-negative. */
  lemma RateNonNegative(gens: seq<Generator>, lifetime: real, f: Option<RateFactors>)
    requires forall i :: 0 <= i < |gens| ==> NonNegativeConfig(gens[i])
    requires f.Some? ==> f.value.globalProduction >= 0.0 && f.value.extras.singularityMultiplier >= 0.0
    ensures EffectiveRate(gens, lifetime, f) >= 0.0
  {
    SumNonNegative(gens, f);
    var sum := SumContributions(gens, f);
    if f.Some? {
      var synergy := Synergy(f.value.extras.synergyPerGenerator, UnlockedCount(gens, lifetime));
      if f.value.extras.synergyPerGenerator > 0.0 && UnlockedCount(gens, lifetime) > 0 {
        MulMonotone(0.0, 0.0, f.value.extras.synergyPerGenerator, UnlockedCount(gens, lifetime) as real);
      }
      assert synergy >= 1.0;
      MulMonotone(0.0, 0.0, sum, f.value.globalProduction);
      MulMonotone(0.0, 0.0, sum * f.value.globalProduction, synergy);
      MulMonotone(0.0, 0.0, sum * f.value.globalProduction * synergy, f.value.extras.singularityMultiplier);
    }
  }

  // ---------------------------------------------------------------------
  // The state that is saved, loaded and reset

  /** The upgrade manager's list and its three multipliers. */
  datatype ManagerState = ManagerState(upgrades: seq<GlobalUpgrade>, multipliers: Multipliers)

  /** The progression: the wallet, the generators and, when the scene has
      one, the upgrade manager. */
  datatype Snapshot = Snapshot(wallet: Wallet, generators: seq<Generator>, manager: Option<ManagerState>)

  function RateFactorsOf(s: Snapshot, extras: ExtraBonuses): Option<RateFactors>
  {
    if s.manager.Some? then Some(RateFactors(s.manager.value.multipliers.globalProduction, extras)) else None
  }

  function CostReductionOf(s: Snapshot): Option<real>
  {
    if s.manager.Some? then Some(s.manager.value.multipliers.generatorCostReduction) else None
  }

  /** The rate the game produces at in state `s`. */
  function RateOf(s: Snapshot, extras: ExtraBonuses): real
  {
    EffectiveRate(s.generators, s.wallet.totalEarned, RateFactorsOf(s, extras))
  }

  predicate DistinctGeneratorIds(gens: seq<Generator>)
  {
    forall i, j :: 0 <= i < j < |gens| ==> gens[i].id != gens[j].id
  }

  /** The store after the generator loop of the save: each level under its key. */
  function SaveGeneratorLevels(p: Store, gens: seq<Generator>): Store
  {
    if gens == [] then p
    else
      var last := gens[|gens| - 1];
      SaveGeneratorLevels(p, gens[..|gens| - 1])[GeneratorKey(last.id) := IntValue(last.level)]
  }

  /** `SaveGame`: the balance and the total as text, every generator level,
      the save time in ticks, then the upgrade levels when a manager exists. */
  function SaveStore(p: Store, s: Snapshot, nowTicks: int): Store
  {
    var q1 := p[StardustKey := StringValue(EncodeDouble(s.wallet.stardust))]
               [TotalStardustEarnedKey := StringValue(EncodeDouble(s.wallet.totalEarned))];
    var q2 := SaveGeneratorLevels(q1, s.generators)[LastSaveKey := StringValue(EncodeLong(nowTicks))];
    if s.manager.Some? then SaveUpgradeLevels(q2, s.manager.value.upgrades) else q2
  }

  /** A currency field after loading: the parsed text when the key is present
      and parses (an integer entry reads as the default text "0"), the current
      value otherwise. */
  function LoadReal(p: Store, key: string, current: real): (r: real)
    ensures key !in p ==> r == current
    ensures key in p && p[key].IntValue? ==> r == 0.0
    ensures key in p && p[key].StringValue? && p[key].t.OtherText? ==> r == current
    ensures key in p && p[key].StringValue? && TryParseDouble(p[key].t).Some? ==> r == TryParseDouble(p[key].t).value
  {
    if key in p then
      match TryParseDouble(GetString(p, key, IntegerText(0)))
      case Some(x) => x
      case None => current
    else current
  }

  /** A generator after loading: its stored level when the key is present,
      and level 0 when it is absent. */
  function LoadGeneratorLevel(g: Generator, p: Store): (r: Generator)
    ensures r.(level := g.level) == g
    ensures GeneratorKey(g.id) !in p ==> r.level == 0
    ensures GeneratorKey(g.id) in p && p[GeneratorKey(g.id)].IntValue? ==> r.level == p[GeneratorKey(g.id)].n
  {
    var key := GeneratorKey(g.id);
    g.(level := if key in p then GetInt(p, key, 0) else 0)
  }

  function LoadGeneratorLevels(gens: seq<Generator>, p: Store): (r: seq<Generator>)
    ensures |r| == |gens|
  {
    seq(|gens|, i requires 0 <= i < |gens| => LoadGeneratorLevel(gens[i], p))
  }

  /** Seconds since the saved tick count, never negative. `None` when there is
      no save time, when it does not parse as a `long`, or when it lies outside
      the range a `DateTime` accepts (the constructor then throws and the
      offline step is skipped). */
  function OfflineSeconds(p: Store, nowTicks: int): (r: Option<real>)
    ensures r.Some? ==> r.value >= 0.0
    ensures LastSaveKey !in p ==> r.None?
  {
    if LastSaveKey !in p then None
    else
      match TryParseLong(GetString(p, LastSaveKey, IntegerText(0)))
      case None => None
      case Some(ticks) =>
        if ticks < 0 || ticks > MaxTicks then None
        else Some(Max(0.0, ((nowTicks - ticks) as real) / (TicksPerSecond as real)))
  }

  /** After a save at `savedTicks`, the time away is the elapsed time in
      seconds, and 0 when the clock reads earlier than the save. */
  lemma OfflineSecondsAfterSave(p: Store, savedTicks: int, nowTicks: int)
    requires LastSaveKey in p && p[LastSaveKey] == StringValue(EncodeLong(savedTicks))
    requires 0 <= savedTicks <= MaxTicks
    ensures OfflineSeconds(p, nowTicks).Some?
    ensures nowTicks >= savedTicks ==>
      OfflineSeconds(p, nowTicks).value * (TicksPerSecond as real) == (nowTicks - savedTicks) as real
    ensures nowTicks <= savedTicks ==> OfflineSeconds(p, nowTicks).value == 0.0
  {
    assert LongMin <= savedTicks <= LongMax;
    EncodingsRoundTrip(0.0, savedTicks);
  }

  /** The offline credit: rate times the seconds away, times the manager's
      offline multiplier when a manager exists; 0 when there is nothing to credit. */
  function OfflineCredit(s: Snapshot, p: Store, nowTicks: int, extras: ExtraBonuses): real
  {
    match OfflineSeconds(p, nowTicks)
    case None => 0.0
    case Some(seconds) => OfflineAmount(RateOf(s, extras), seconds, s.manager)
  }

  /** Rate times seconds, times the offline multiplier when a manager exists. */
  function OfflineAmount(rate: real, seconds: real, manager: Option<ManagerState>): real
  {
    var gain := rate * seconds;
    if manager.Some? then gain * manager.value.multipliers.offlineGain else gain
  }

  /** The state after loading, before the offline credit: the two currency
      fields, the generator levels and the upgrade levels, with the
      multipliers recomputed. */
  function LoadFields(s: Snapshot, p: Store): (r: Snapshot)
    ensures |r.generators| == |s.generators|
    ensures r.manager.Some? <==> s.manager.Some?
    ensures r.manager.Some? ==> r.manager.value.multipliers == Fold(r.manager.value.upgrades)
  {
    var w := Wallet(LoadReal(p, StardustKey, s.wallet.stardust), LoadReal(p, TotalStardustEarnedKey, s.wallet.totalEarned));
    var m := if s.manager.Some?
             then var ups := LoadUpgradeLevels(s.manager.value.upgrades, p); Some(ManagerState(ups, Fold(ups)))
             else None;
    Snapshot(w, LoadGeneratorLevels(s.generators, p), m)
  }

  /** `LoadGame`: the loaded fields, then the offline credit through the add
      gate, computed with the upgrades already loaded. The credit never lowers
      the loaded balance or total. */
  function LoadSnapshot(s: Snapshot, p: Store, nowTicks: int, extras: ExtraBonuses): (r: Snapshot)
    ensures r.generators == LoadFields(s, p).generators && r.manager == LoadFields(s, p).manager
    ensures r.wallet.stardust >= LoadFields(s, p).wallet.stardust
    ensures r.wallet.totalEarned >= LoadFields(s, p).wallet.totalEarned
    ensures OfflineSeconds(p, nowTicks).None? ==> r == LoadFields(s, p)
  {
    var loaded := LoadFields(s, p);
    loaded.(wallet := Credit(loaded.wallet, OfflineCredit(loaded, p, nowTicks, extras)))
  }

  /** The store after the generator loop of the reset: every generator key deleted. */
  function DeleteGeneratorKeys(p: Store, gens: seq<Generator>): Store
  {
    if gens == [] then p
    else DeleteGeneratorKeys(p, gens[..|gens| - 1]) - {GeneratorKey(gens[|gens| - 1].id)}
  }

  function DeleteUpgradeKeys(p: Store, ups: seq<GlobalUpgrade>): Store
  {
    if ups == [] then p
    else DeleteUpgradeKeys(p, ups[..|ups| - 1]) - {UpgradeKey(ups[|ups| - 1].id)}
  }

  /** `ResetGame` on the store: the generator keys, the upgrade keys when a
      manager exists, and the three currency and time keys are deleted. */
  function ResetStore(p: Store, s: Snapshot): Store
  {
    var q := DeleteGeneratorKeys(p, s.generators);
    var q' := if s.manager.Some? then DeleteUpgradeKeys(q, s.manager.value.upgrades) else q;
    q' - {StardustKey, TotalStardustEarnedKey, LastSaveKey}
  }

  /** `ResetGame` on the generators: every level 0, every other field kept. */
  function ZeroGeneratorLevels(gens: seq<Generator>): (r: seq<Generator>)
    ensures |r| == |gens|
    ensures forall i :: 0 <= i < |r| ==> r[i].level == 0 && r[i].(level := gens[i].level) == gens[i]
  {
    seq(|gens|, i requires 0 <= i < |gens| => gens[i].(level := 0))
  }

  /** `ResetGame` on the upgrades: every level 0, every other field kept. */
  function ZeroUpgradeLevels(ups: seq<GlobalUpgrade>): (r: seq<GlobalUpgrade>)
    ensures |r| == |ups|
    ensures forall i :: 0 <= i < |r| ==> r[i].level == 0 && r[i].(level := ups[i].level) == ups[i]
  {
    seq(|ups|, i requires 0 <= i < |ups| => ups[i].(level := 0))
  }

  /** `ResetGame` on the state: an empty wallet, every level 0, and the
      multipliers back at 1. */
  function ResetSnapshot(s: Snapshot): Snapshot
  {
    Snapshot(Wallet(0.0, 0.0), ZeroGeneratorLevels(s.generators),
             if s.manager.Some? then Some(ManagerState(ZeroUpgradeLevels(s.manager.value.upgrades), Neutral)) else None)
  }

  // ---------------------------------------------------------------------
  // Save, load and reset together

  lemma {:induction false} DeleteGeneratorKeysContents(p: Store, gens: seq<Generator>)
    ensures forall k :: k in DeleteGeneratorKeys(p, gens) <==>
      k in p && forall i :: 0 <= i < |gens| ==> k != GeneratorKey(gens[i].id)
    ensures forall k :: k in DeleteGeneratorKeys(p, gens) ==> DeleteGeneratorKeys(p, gens)[k] == p[k]
  {
    if gens != [] {
      DeleteGeneratorKeysContents(p, gens[..|gens| - 1]);
    }
  }

  lemma {:induction false} DeleteUpgradeKeysContents(p: Store, ups: seq<GlobalUpgrade>)
    ensures forall k :: k in DeleteUpgradeKeys(p, ups) <==>
      k in p && forall i :: 0 <= i < |ups| ==> k != UpgradeKey(ups[i].id)
    ensures forall k :: k in DeleteUpgradeKeys(p, ups) ==> DeleteUpgradeKeys(p, ups)[k] == p[k]
  {
    if ups != [] {
      DeleteUpgradeKeysContents(p, ups[..|ups| - 1]);
    }
  }

  /** After a reset the store holds none of the game's keys. */
  lemma ResetStoreClears(p: Store, s: Snapshot)
    ensures forall i :: 0 <= i < |s.generators| ==> GeneratorKey(s.generators[i].id) !in ResetStore(p, s)
    ensures s.manager.Some? ==>
      forall i :: 0 <= i < |s.manager.value.upgrades| ==> UpgradeKey(s.manager.value.upgrades[i].id) !in ResetStore(p, s)
    ensures StardustKey !in ResetStore(p, s) && TotalStardustEarnedKey !in ResetStore(p, s)
    ensures LastSaveKey !in ResetStore(p, s)
  {
    var q := DeleteGeneratorKeys(p, s.generators);
    DeleteGeneratorKeysContents(p, s.generators);
    if s.manager.Some? {
      DeleteUpgradeKeysContents(q, s.manager.value.upgrades);
    }
  }

  /** Loading right after a reset yields the reset state: every level stays
      0, the wallet stays empty and there is no offline credit. */
  lemma ResetThenLoad(p: Store, s: Snapshot, nowTicks: int, extras: ExtraBonuses)
    ensures LoadSnapshot(ResetSnapshot(s), ResetStore(p, s), nowTicks, extras) == ResetSnapshot(s)
  {
    var r, q := ResetSnapshot(s), ResetStore(p, s);
    ResetStoreClears(p, s);
    var loaded := LoadFields(r, q);
    assert loaded.generators == r.generators;
    if s.manager.Some? {
      var ups := r.manager.value.upgrades;
      LoadWithoutKeys(ups, q);
      NothingPurchasedIsNeutral(ups);
    }
  }

  lemma {:induction false} SaveGeneratorLevelsFrame(p: Store, gens: seq<Generator>, k: string)
    requires forall i :: 0 <= i < |gens| ==> GeneratorKey(gens[i].id) != k
    ensures (k in SaveGeneratorLevels(p, gens)) == (k in p)
    ensures k in p ==> SaveGeneratorLevels(p, gens)[k] == p[k]
  {
    if gens != [] {
      SaveGeneratorLevelsFrame(p, gens[..|gens| - 1], k);
    }
  }

  /** After the generator loop of the save, each generator's key holds its level. */
  lemma {:induction false} SavedGeneratorLevel(p: Store, gens: seq<Generator>, i: nat)
    requires DistinctGeneratorIds(gens) && i < |gens|
    ensures GeneratorKey(gens[i].id) in SaveGeneratorLevels(p, gens)
    ensures SaveGeneratorLevels(p, gens)[GeneratorKey(gens[i].id)] == IntValue(gens[i].level)
  {
    var n := |gens|;
    if i < n - 1 {
      GeneratorKeyInjective(gens[i].id, gens[n - 1].id);
      SavedGeneratorLevel(p, gens[..n - 1], i);
    }
  }

  /** The entries of a saved store that the load reads. */
  lemma SaveStoreEntries(p: Store, s: Snapshot, nowTicks: int)
    requires DistinctGeneratorIds(s.generators)
    ensures var q := SaveStore(p, s, nowTicks);
      && StardustKey in q && q[StardustKey] == StringValue(EncodeDouble(s.wallet.stardust))
      && TotalStardustEarnedKey in q && q[TotalStardustEarnedKey] == StringValue(EncodeDouble(s.wallet.totalEarned))
      && LastSaveKey in q && q[LastSaveKey] == StringValue(EncodeLong(nowTicks))
      && forall i :: 0 <= i < |s.generators| ==>
           GeneratorKey(s.generators[i].id) in q && q[GeneratorKey(s.generators[i].id)] == IntValue(s.generators[i].level)
  {
    var q1 := p[StardustKey := StringValue(EncodeDouble(s.wallet.stardust))]
               [TotalStardustEarnedKey := StringValue(EncodeDouble(s.wallet.totalEarned))];
    var q2 := SaveGeneratorLevels(q1, s.generators)[LastSaveKey := StringValue(EncodeLong(nowTicks))];
    assert StardustKey != TotalStardustEarnedKey;
    forall i | 0 <= i < |s.generators|
      ensures GeneratorKey(s.generators[i].id) != StardustKey && GeneratorKey(s.generators[i].id) != TotalStardustEarnedKey
      ensures GeneratorKey(s.generators[i].id) != LastSaveKey
    {
      KeysDistinct(s.generators[i].id, s.generators[i].id);
    }
    SaveGeneratorLevelsFrame(q1, s.generators, StardustKey);
    SaveGeneratorLevelsFrame(q1, s.generators, TotalStardustEarnedKey);
    forall i | 0 <= i < |s.generators|
      ensures GeneratorKey(s.generators[i].id) in q2 && q2[GeneratorKey(s.generators[i].id)] == IntValue(s.generators[i].level)
    {
      SavedGeneratorLevel(q1, s.generators, i);
    }
    if s.manager.Some? {
      var ups := s.manager.value.upgrades;
      forall k | k in {StardustKey, TotalStardustEarnedKey, LastSaveKey}
        ensures k in SaveUpgradeLevels(q2, ups) && SaveUpgradeLevels(q2, ups)[k] == q2[k]
      {
        forall j | 0 <= j < |ups| ensures UpgradeKey(ups[j].id) != k {
          KeysDistinct(ups[j].id, ups[j].id);
        }
        SaveUpgradeLevelsFrame(q2, ups, k);
      }
      forall i | 0 <= i < |s.generators|
        ensures GeneratorKey(s.generators[i].id) in SaveUpgradeLevels(q2, ups)
        ensures SaveUpgradeLevels(q2, ups)[GeneratorKey(s.generators[i].id)] == IntValue(s.generators[i].level)
      {
        forall j | 0 <= j < |ups| ensures UpgradeKey(ups[j].id) != GeneratorKey(s.generators[i].id) {
          KeysDistinct(s.generators[i].id, ups[j].id);
        }
        SaveUpgradeLevelsFrame(q2, ups, GeneratorKey(s.generators[i].id));
      }
    }
  }

  /** `t` is the same scene as `s`: the same generators and upgrades in the
      same order and with the same configuration; levels and currency may differ. */
  predicate SameConfiguration(t: Snapshot, s: Snapshot)
  {
    && |t.generators| == |s.generators|
    && (forall i :: 0 <= i < |s.generators| ==> t.generators[i].(level := s.generators[i].level) == s.generators[i])
    && (t.manager.Some? <==> s.manager.Some?)
    && (s.manager.Some? ==>
          var tu, su := t.manager.value.upgrades, s.manager.value.upgrades;
          |tu| == |su| && forall i :: 0 <= i < |su| ==> tu[i].(level := su[i].level) == su[i])
  }

  /** The multipliers agree with the upgrade levels, as after any recompute. */
  predicate ConsistentSnapshot(s: Snapshot)
  {
    s.manager.Some? ==> s.manager.value.multipliers == Fold(s.manager.value.upgrades)
  }

  /** Saving and then loading at the same instant restores the balance, the
      lifetime total, every generator level and every upgrade level, into any
      scene configured the same way. */
  lemma SaveThenLoad(p: Store, s: Snapshot, t: Snapshot, nowTicks: int, extras: ExtraBonuses)
    requires SameConfiguration(t, s) && ConsistentSnapshot(s)
    requires DistinctGeneratorIds(s.generators)
    requires s.manager.Some? ==> DistinctIds(s.manager.value.upgrades)
    requires 0 <= nowTicks <= MaxTicks
    ensures LoadSnapshot(t, SaveStore(p, s, nowTicks), nowTicks, extras) == s
  {
    var q := SaveStore(p, s, nowTicks);
    SaveStoreEntries(p, s, nowTicks);
    var loaded := LoadFields(t, q);
    assert loaded.wallet == s.wallet;
    assert loaded.generators == s.generators;
    if s.manager.Some? {
      var q1 := p[StardustKey := StringValue(EncodeDouble(s.wallet.stardust))]
                 [TotalStardustEarnedKey := StringValue(EncodeDouble(s.wallet.totalEarned))];
      var q2 := SaveGeneratorLevels(q1, s.generators)[LastSaveKey := StringValue(EncodeLong(nowTicks))];
      var tu, su := t.manager.value.upgrades, s.manager.value.upgrades;
      SaveThenLoadUpgrades(q2, su, tu);
      assert LoadUpgradeLevels(tu, q) == su;
    }
    assert loaded == s;
    assert OfflineSeconds(q, nowTicks) == Some(0.0);
    assert OfflineCredit(loaded, q, nowTicks, extras) == 0.0;
  }

  // ---------------------------------------------------------------------
  // The manager object

  class GameManager {
    var stardust: real
    var totalStardustEarned: real
    /** The last rate computed by the per-frame step, shown by the interface. */
    var totalPerSecond: real
    var generators: seq<Generator>
    /** `GlobalUpgradeManager.Instance`, or null when the scene has none. */
    const upgradeManager: UpgradeManager?

    constructor (gens: seq<Generator>, manager: UpgradeManager?)
      ensures CurrentWallet() == Wallet(0.0, 0.0) && totalPerSecond == 0.0
      ensures generators == gens && upgradeManager == manager
    {
      stardust := 0.0;
      totalStardustEarned := 0.0;
      totalPerSecond := 0.0;
      generators := gens;
      upgradeManager := manager;
    }

    function CurrentWallet(): Wallet
      reads this
    {
      Wallet(stardust, totalStardustEarned)
    }

    function State(): Snapshot
      reads this, upgradeManager
    {
      Snapshot(CurrentWallet(), generators,
               if upgradeManager == null then None
               else Some(ManagerState(upgradeManager.upgrades, upgradeManager.Current())))
    }

    /** Adds a positive amount to the balance and the lifetime total. */
    method AddStardust(amount: real)
      modifies this`stardust, this`totalStardustEarned
      ensures CurrentWallet() == Credit(old(CurrentWallet()), amount)
    {
      if amount <= 0.0 {
        return;
      }
      stardust := stardust + amount;
      totalStardustEarned := totalStardustEarned + amount;
      if stardust < 0.0 {
        stardust := 0.0;
      }
    }

    /** Deducts the amount when the balance covers it. */
    method SpendStardust(amount: real) returns (ok: bool)
      modifies this`stardust
      ensures ok == Debit(old(CurrentWallet()), amount).Some?
      ensures CurrentWallet() == if ok then Debit(old(CurrentWallet()), amount).value else old(CurrentWallet())
    {
      if stardust >= amount {
        stardust := stardust - amount;
        return true;
      }
      return false;
    }

    /** `Generator.TryBuyLevel` on generator `i`: pay the next-level price,
      reduced when a manager exists, then add one level; on failure nothing changes. */
    method TryBuyLevel(i: nat) returns (ok: bool)
      requires i < |generators|
      modifies this`stardust, this`generators
      ensures var g := old(generators[i]);
        var cost := NextLevelCost(g, CostReductionOf(old(State())));
        && (ok <==> old(stardust) >= cost)
        && (ok ==> stardust == old(stardust) - cost && generators == old(generators)[i := g.(level := g.level + 1)])
        && (!ok ==> stardust == old(stardust) && generators == old(generators))
    {
      var cost := NextLevelCost(generators[i], if upgradeManager == null then None else Some(upgradeManager.generatorCostReductionMultiplier));
      ok := SpendStardust(cost);
      if ok {
        generators := generators[i := generators[i].(level := generators[i].level + 1)];
      }
    }

    /** `GlobalUpgrade.TryBuy` on upgrade `i`: refused when maxed or
      unaffordable; otherwise pay, add one level and recompute the multipliers. */
    method TryBuyUpgrade(i: nat) returns (ok: bool)
      requires upgradeManager != null && i < |upgradeManager.upgrades|
      modifies this`stardust, upgradeManager
      ensures var u := old(upgradeManager.upgrades[i]);
        && (ok <==> !IsMaxed(u) && old(stardust) >= NextCost(u))
        && upgradeManager.upgrades == old(upgradeManager.upgrades)[i := u.(level := LevelAfterTryBuy(u, old(stardust)))]
        && stardust == (if ok then old(stardust) - NextCost(u) else old(stardust))
      ensures ok ==> upgradeManager.Consistent()
      ensures !ok ==> upgradeManager.Current() == old(upgradeManager.Current())
    {
      var upg := upgradeManager.upgrades[i];
      if IsMaxed(upg) {
        return false;
      }
      var cost := NextCost(upg);
      var spent := SpendStardust(cost);
      if !spent {
        return false;
      }
      upgradeManager.upgrades := upgradeManager.upgrades[i := upg.(level := upg.level + 1)];
      upgradeManager.RecomputeMultipliers();
      return true;
    }

    /** The production rate: the loop over the generators, then the global,
        synergy and singularity factors. */
    method ComputeTotalProductionPerSecond(extras: ExtraBonuses) returns (rate: real)
      ensures rate == RateOf(State(), extras)
    {
      var sumPerSecond, unlockedCount := SumGenerators(extras);
      var globalMult, synergyMult, singularityMult := 1.0, 1.0, 1.0;
      if upgradeManager != null {
        globalMult := upgradeManager.globalProductionMultiplier;
        var perGen := extras.synergyPerGenerator;
        if perGen > 0.0 && unlockedCount > 0 {
          synergyMult := synergyMult + perGen * (unlockedCount as real);
        }
        singularityMult := extras.singularityMultiplier;
      }
      rate := sumPerSecond * globalMult * synergyMult * singularityMult;
      EffectiveRateFromParts(generators, totalStardustEarned, RateFactorsOf(State(), extras),
                             sumPerSecond, globalMult, synergyMult, singularityMult);
    }

    /** The loop of `ComputeTotalProductionPerSecond`: the summed contributions
        (with the constellation bonus) and the number of unlocked generators. */
    method SumGenerators(extras: ExtraBonuses) returns (sumPerSecond: real, unlockedCount: nat)
      ensures sumPerSecond == SumContributions(generators, RateFactorsOf(State(), extras))
      ensures unlockedCount == UnlockedCount(generators, totalStardustEarned)
    {
      var f := RateFactorsOf(State(), extras);
      sumPerSecond, unlockedCount := 0.0, 0;
      var i := 0;
      while i < |generators|
        invariant 0 <= i <= |generators|
        invariant sumPerSecond == SumContributions(generators[..i], f)
        invariant unlockedCount == UnlockedCount(generators[..i], totalStardustEarned)
      {
        var gen := generators[i];
        PrefixStep(generators, i, totalStardustEarned, f);
        if IsUnlocked(gen, Some(totalStardustEarned)) {
          unlockedCount := unlockedCount + 1;
        }
        var prod := ProductionPerSecond(gen);
        if upgradeManager != null {
          var constBonus := extras.constellationTierBonus;
          if constBonus > 0.0 {
            var tier := UpgradeTier(gen);
            if tier > 0 {
              prod := prod * (1.0 + constBonus * (tier as real));
            }
          }
        }
        assert prod == Contribution(gen, f);
        sumPerSecond := sumPerSecond + prod;
        i := i + 1;
      }
      assert generators[..i] == generators;
    }

    /** The per-frame step: store the rate for display and credit rate * dt. */
    method Update(dt: real, extras: ExtraBonuses)
      modifies this`stardust, this`totalStardustEarned, this`totalPerSecond
      ensures totalPerSecond == RateOf(old(State()), extras)
      ensures CurrentWallet() == Credit(old(CurrentWallet()), totalPerSecond * dt)
    {
      var effectivePerSecond := ComputeTotalProductionPerSecond(extras);
      totalPerSecond := effectivePerSecond;
      var deltaGain := effectivePerSecond * dt;
      if deltaGain > 0.0 {
        AddStardust(deltaGain);
      }
    }

    /** Writes the progression to the store, stamped with the current tick count. */
    method SaveGame(p: Store, nowTicks: int) returns (q: Store)
      ensures q == SaveStore(p, State(), nowTicks)
    {
      q := p[StardustKey := StringValue(EncodeDouble(stardust))];
      q := q[TotalStardustEarnedKey := StringValue(EncodeDouble(totalStardustEarned))];
      var i := 0;
      while i < |generators|
        invariant 0 <= i <= |generators|
        invariant q == SaveGeneratorLevels(p[StardustKey := StringValue(EncodeDouble(stardust))]
                                            [TotalStardustEarnedKey := StringValue(EncodeDouble(totalStardustEarned))],
                                           generators[..i])
      {
        var gen := generators[i];
        assert generators[..i + 1][..i] == generators[..i];
        q := q[GeneratorKey(gen.id) := IntValue(gen.level)];
        i := i + 1;
      }
      assert generators[..i] == generators;
      q := q[LastSaveKey := StringValue(EncodeLong(nowTicks))];
      if upgradeManager != null {
        q := upgradeManager.SaveUpgrades(q);
      }
    }

    /** Reads the progression back, then credits the time away. */
    method LoadGame(p: Store, nowTicks: int, extras: ExtraBonuses)
      modifies this, upgradeManager
      ensures State() == LoadSnapshot(old(State()), p, nowTicks, extras)
      ensures totalPerSecond == old(totalPerSecond)
    {
      LoadSavedFields(p);
      CreditOffline(p, nowTicks, extras);
    }

    /** The first half of the load: the two currency fields, the generator
        levels and the upgrade levels, with the multipliers recomputed. */
    method LoadSavedFields(p: Store)
      modifies this`stardust, this`totalStardustEarned, this`generators, upgradeManager
      ensures State() == LoadFields(old(State()), p)
    {
      stardust := LoadReal(p, StardustKey, stardust);
      totalStardustEarned := LoadReal(p, TotalStardustEarnedKey, totalStardustEarned);
      LoadGeneratorLevelsInPlace(p);
      if upgradeManager != null {
        upgradeManager.LoadUpgrades(p);
      }
    }

    /** The second half of the load: the offline credit, computed from the
        state as loaded, goes through the add gate. */
    method CreditOffline(p: Store, nowTicks: int, extras: ExtraBonuses)
      modifies this`stardust, this`totalStardustEarned
      ensures CurrentWallet() == Credit(old(CurrentWallet()), OfflineCredit(old(State()), p, nowTicks, extras))
    {
      ghost var s := State();
      var seconds := OfflineSeconds(p, nowTicks);
      if seconds.Some? {
        var effectivePerSecond := ComputeTotalProductionPerSecond(extras);
        var offlineGain := effectivePerSecond * seconds.value;
        if upgradeManager != null {
          var offlineMult := upgradeManager.offlineGainMultiplier;
          offlineGain := offlineGain * offlineMult;
        }
        assert offlineGain == OfflineAmount(effectivePerSecond, seconds.value, s.manager);
        if offlineGain > 0.0 {
          AddStardust(offlineGain);
        }
      }
    }

    /** The generator loop of the load: each level from its key, or 0 when the key is absent. */
    method LoadGeneratorLevelsInPlace(p: Store)
      modifies this`generators
      ensures generators == LoadGeneratorLevels(old(generators), p)
    {
      var gens := generators;
      var i := 0;
      while i < |generators|
        invariant 0 <= i <= |generators| == |gens|
        invariant forall j :: 0 <= j < i ==> generators[j] == LoadGeneratorLevel(gens[j], p)
        invariant forall j :: i <= j < |generators| ==> generators[j] == gens[j]
      {
        var gen := generators[i];
        var levelKey := GeneratorKey(gen.id);
        if levelKey in p {
          generators := generators[i := gen.(level := GetInt(p, levelKey, 0))];
        } else {
          generators := generators[i := gen.(level := 0)];
        }
        i := i + 1;
      }
    }

    /** Clears the progression in memory and in the store. */
    method ResetGame(p: Store) returns (q: Store)
      modifies this, upgradeManager
      ensures State() == ResetSnapshot(old(State()))
      ensures totalPerSecond == 0.0
      ensures q == ResetStore(p, old(State()))
      ensures upgradeManager != null ==> upgradeManager.Consistent()
    {
      stardust := 0.0;
      totalStardustEarned := 0.0;
      totalPerSecond := 0.0;
      q := ResetGeneratorLevels(p);
      if upgradeManager != null {
        q := ResetUpgradeLevels(q);
        upgradeManager.RecomputeMultipliers();
        NothingPurchasedIsNeutral(upgradeManager.upgrades);
      }
      q := q - {StardustKey, TotalStardustEarnedKey, LastSaveKey};
    }

    /** The generator half of the reset: every generator level to 0 and its key deleted. */
    method ResetGeneratorLevels(p: Store) returns (q: Store)
      modifies this`generators
      ensures generators == ZeroGeneratorLevels(old(generators))
      ensures q == DeleteGeneratorKeys(p, old(generators))
    {
      q := p;
      var gens := generators;
      var i := 0;
      while i < |generators|
        invariant 0 <= i <= |generators| == |gens|
        invariant forall j :: 0 <= j < i ==> generators[j] == gens[j].(level := 0)
        invariant forall j :: i <= j < |generators| ==> generators[j] == gens[j]
        invariant q == DeleteGeneratorKeys(p, gens[..i])
      {
        var gen := generators[i];
        assert gens[..i + 1][..i] == gens[..i];
        generators := generators[i := gen.(level := 0)];
        q := q - {GeneratorKey(gen.id)};
        i := i + 1;
      }
      assert gens[..i] == gens;
    }

    /** The upgrade half of the reset: every upgrade level to 0 and its key deleted. */
    method ResetUpgradeLevels(p: Store) returns (q: Store)
      requires upgradeManager != null
      modifies upgradeManager`upgrades
      ensures upgradeManager.upgrades == ZeroUpgradeLevels(old(upgradeManager.upgrades))
      ensures q == DeleteUpgradeKeys(p, old(upgradeManager.upgrades))
    {
      q := p;
      var ups := upgradeManager.upgrades;
      var k := 0;
      while k < |upgradeManager.upgrades|
        invariant 0 <= k <= |upgradeManager.upgrades| == |ups|
        invariant forall j :: 0 <= j < k ==> upgradeManager.upgrades[j] == ups[j].(level := 0)
        invariant forall j :: k <= j < |upgradeManager.upgrades| ==> upgradeManager.upgrades[j] == ups[j]
        invariant q == DeleteUpgradeKeys(p, ups[..k])
      {
        var upg := upgradeManager.upgrades[k];
        assert ups[..k + 1][..k] == ups[..k];
        upgradeManager.upgrades := upgradeManager.upgrades[k := upg.(level := 0)];
        q := q - {UpgradeKey(upg.id)};
        k := k + 1;
      }
      assert ups[..k] == ups;
    }
  }
}
