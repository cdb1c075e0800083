/** Global upgrades and the manager that folds their levels into the three
    multipliers the economy reads: global production, offline gain and
    generator cost reduction. */
module Upgrades {
  import opened Numerics
  import opened Prefs

  datatype GlobalUpgradeType =
    | GlobalProduction        // multiplies all production
    | OfflineGain             // multiplies the offline credit
    | GeneratorCostReduction  // lowers generator prices
    | GeneratorSynergy
    | ConstellationBoost
    | SingularityCore

  /** One upgrade. Every field but `level` is configuration; `maxLevel <= 0`
      means "no cap". */
  datatype GlobalUpgrade = GlobalUpgrade(
    id: string,
    kind: GlobalUpgradeType,
    baseCost: real,
    costMultiplier: real,
    maxLevel: int,
    valuePerLevel: real,
    level: int)

  predicate IsMaxed(u: GlobalUpgrade)
  {
    u.maxLevel > 0 && u.level >= u.maxLevel
  }

  /** Total effect: `valuePerLevel` per owned level. */
  function CurrentValue(u: GlobalUpgrade): real
  {
    u.valuePerLevel * (u.level as real)
  }

  function NextCost(u: GlobalUpgrade): real
  {
    u.baseCost * IntPow(u.costMultiplier, u.level)
  }

  /** Without a cap no level is ever maxed; with one, exactly the levels at or
      above it are. */
  lemma IsMaxedCharacterised(u: GlobalUpgrade, l: int)
    ensures u.maxLevel <= 0 ==> !IsMaxed(u.(level := l))
    ensures u.maxLevel > 0 ==> (IsMaxed(u.(level := l)) <==> l >= u.maxLevel)
  {
  }

  /** The effect is linear in the level: nothing at level 0 and one more
      `valuePerLevel` per level; 0.25 per level at level 2 gives 0.5. */
  lemma CurrentValueLinear(u: GlobalUpgrade)
    ensures CurrentValue(u.(level := 0)) == 0.0
    ensures CurrentValue(u.(level := u.level + 1)) == CurrentValue(u) + u.valuePerLevel
    ensures u.valuePerLevel == 0.25 && u.level == 2 ==> CurrentValue(u) == 0.5
  {
  }

  /** From level 0 on, each level costs `costMultiplier` times the previous
      one, starting from `baseCost`. */
  lemma NextCostGeometric(u: GlobalUpgrade)
    requires u.level >= 0
    ensures NextCost(u.(level := 0)) == u.baseCost
    ensures NextCost(u.(level := u.level + 1)) == NextCost(u) * u.costMultiplier
  {
    assert IntPow(u.costMultiplier, u.level + 1) == u.costMultiplier * IntPow(u.costMultiplier, u.level);
  }

  /** The level after one `TryBuy` attempt made with the given balance. */
  function LevelAfterTryBuy(u: GlobalUpgrade, balance: real): int
  {
    if IsMaxed(u) || balance < NextCost(u) then u.level else u.level + 1
  }

  /** The level after a series of `TryBuy` attempts; the balance before each
      attempt is arbitrary, since stardust accrues between clicks. */
  function LevelAfterAttempts(u: GlobalUpgrade, balances: seq<real>): int
    decreases |balances|
  {
    if balances == [] then u.level
    else LevelAfterAttempts(u.(level := LevelAfterTryBuy(u, balances[0])), balances[1..])
  }

  /** No series of purchases pushes a capped upgrade past its cap. */
  lemma {:induction false} AttemptsNeverPassMax(u: GlobalUpgrade, balances: seq<real>)
    requires u.maxLevel > 0 && u.level <= u.maxLevel
    ensures LevelAfterAttempts(u, balances) <= u.maxLevel
    decreases |balances|
  {
    if balances != [] {
      AttemptsNeverPassMax(u.(level := LevelAfterTryBuy(u, balances[0])), balances[1..]);
    }
  }

  // ---------------------------------------------------------------------
  // Recomputing the multipliers

  datatype Multipliers = Multipliers(globalProduction: real, offlineGain: real, generatorCostReduction: real)

  const Neutral: Multipliers := Multipliers(1.0, 1.0, 1.0)

  /** One pass of the recompute loop: an owned upgrade multiplies its kind's
      multiplier by (1 + value), or by (1 - value) for cost reduction; the
      other three kinds touch nothing. */
  function Apply(m: Multipliers, u: GlobalUpgrade): Multipliers
  {
    if u.level <= 0 then m
    else
      match u.kind
      case GlobalProduction => m.(globalProduction := m.globalProduction * (1.0 + CurrentValue(u)))
      case OfflineGain => m.(offlineGain := m.offlineGain * (1.0 + CurrentValue(u)))
      case GeneratorCostReduction =>
        m.(generatorCostReduction := m.generatorCostReduction * (1.0 - CurrentValue(u)))
      case _ => m
  }

  /** The multipliers after resetting to 1 and running the loop over `ups` in order. */
  function Fold(ups: seq<GlobalUpgrade>): Multipliers
  {
    if ups == [] then Neutral else Apply(Fold(ups[..|ups| - 1]), ups[|ups| - 1])
  }

  /** What one upgrade contributes to the multiplier of one kind. */
  function Factor(u: GlobalUpgrade, kind: GlobalUpgradeType): real
  {
    if u.level <= 0 || u.kind != kind then 1.0
    else if kind == GeneratorCostReduction then 1.0 - CurrentValue(u)
    else 1.0 + CurrentValue(u)
  }

  /** The factors of `ups` for one kind, in list order. */
  function Factors(ups: seq<GlobalUpgrade>, kind: GlobalUpgradeType): (fs: seq<real>)
    ensures |fs| == |ups| && forall i :: 0 <= i < |ups| ==> fs[i] == Factor(ups[i], kind)
  {
    seq(|ups|, i requires 0 <= i < |ups| => Factor(ups[i], kind))
  }

  /** The product of the factors of `ups` for one kind, independent of any loop. */
  function ProductOf(ups: seq<GlobalUpgrade>, kind: GlobalUpgradeType): real
  {
    Prod(Factors(ups, kind))
  }

  /** `p` is `p0` times the factor `f`. */
  predicate ScaledBy(p: real, p0: real, f: real)
  {
    p == p0 * f
  }

  /** The product over two lists joined is the first product scaled by the second. */
  lemma ProductOfConcat(a: seq<GlobalUpgrade>, b: seq<GlobalUpgrade>, kind: GlobalUpgradeType)
    ensures ScaledBy(ProductOf(a + b, kind), ProductOf(a, kind), ProductOf(b, kind))
  {
    assert Factors(a + b, kind) == Factors(a, kind) + Factors(b, kind);
    ProdConcat(Factors(a, kind), Factors(b, kind));
  }

  lemma ProductOfSingle(u: GlobalUpgrade, kind: GlobalUpgradeType)
    ensures ProductOf([u], kind) == Factor(u, kind)
  {
    var fs := Factors([u], kind);
    assert fs[1..] == [];
    assert Prod(fs) == fs[0] * Prod(fs[1..]);
  }

  /** The three kinds that drive a multiplier. */
  predicate Tracked(kind: GlobalUpgradeType)
  {
    kind == GlobalProduction || kind == OfflineGain || kind == GeneratorCostReduction
  }

  /** The multiplier a tracked kind drives. */
  function Component(m: Multipliers, kind: GlobalUpgradeType): real
    requires Tracked(kind)
  {
    match kind
    case GlobalProduction => m.globalProduction
    case OfflineGain => m.offlineGain
    case GeneratorCostReduction => m.generatorCostReduction
  }

  /** One pass of the loop multiplies each multiplier by the upgrade's factor for its kind. */
  lemma ApplyScales(m: Multipliers, u: GlobalUpgrade, kind: GlobalUpgradeType)
    requires Tracked(kind)
    ensures ScaledBy(Component(Apply(m, u), kind), Component(m, kind), Factor(u, kind))
  {
  }

  /** The product for one kind over a list and one more upgrade. */
  lemma ProductOfSnoc(init: seq<GlobalUpgrade>, last: GlobalUpgrade, kind: GlobalUpgradeType)
    ensures ScaledBy(ProductOf(init + [last], kind), ProductOf(init, kind), Factor(last, kind))
  {
    ProductOfConcat(init, [last], kind);
    ProductOfSingle(last, kind);
  }

  /** The product for one kind over a non-empty list is the product over all
      but the last upgrade scaled by the last upgrade's factor. */
  lemma ProductOfLast(ups: seq<GlobalUpgrade>, kind: GlobalUpgradeType)
    requires ups != []
    ensures ScaledBy(ProductOf(ups, kind), ProductOf(ups[..|ups| - 1], kind), Factor(ups[|ups| - 1], kind))
  {
    assert ups == ups[..|ups| - 1] + [ups[|ups| - 1]];
    ProductOfSnoc(ups[..|ups| - 1], ups[|ups| - 1], kind);
  }

  /** Equal amounts scaled by the same factor stay equal. */
  lemma SameScaling(a: real, b: real, a0: real, b0: real, f: real)
    requires ScaledBy(a, a0, f) && ScaledBy(b, b0, f) && a0 == b0
    ensures a == b
  {
  }

  /** Scaling by 1 changes nothing. */
  lemma ScaledByOne(p: real, p0: real, f: real)
    requires ScaledBy(p, p0, f) && f == 1.0
    ensures p == p0
  {
  }

  /** The loop leaves in each tracked multiplier the product of that kind's factors. */
  lemma {:induction false} FoldComponent(ups: seq<GlobalUpgrade>, kind: GlobalUpgradeType)
    requires Tracked(kind)
    ensures Component(Fold(ups), kind) == ProductOf(ups, kind)
  {
    if ups == [] {
      assert Factors(ups, kind) == [];
    } else {
      var init, last := ups[..|ups| - 1], ups[|ups| - 1];
      FoldComponent(init, kind);
      ApplyScales(Fold(init), last, kind);
      ProductOfLast(ups, kind);
      SameScaling(Component(Fold(ups), kind), ProductOf(ups, kind),
                  Component(Fold(init), kind), ProductOf(init, kind), Factor(last, kind));
    }
  }

  /** The loop computes, per kind, the product of the factors:
      Π(1+value) over GlobalProduction, Π(1+value) over OfflineGain and
      Π(1-value) over GeneratorCostReduction. */
  lemma FoldIsProduct(ups: seq<GlobalUpgrade>)
    ensures Fold(ups) == Multipliers(ProductOf(ups, GlobalProduction),
                                     ProductOf(ups, OfflineGain),
                                     ProductOf(ups, GeneratorCostReduction))
  {
    FoldComponent(ups, GlobalProduction);
    FoldComponent(ups, OfflineGain);
    FoldComponent(ups, GeneratorCostReduction);
  }

  /** Permuting the upgrades permutes their factors. */
  lemma {:induction false} FactorsPermutation(a: seq<GlobalUpgrade>, b: seq<GlobalUpgrade>, kind: GlobalUpgradeType)
    requires multiset(a) == multiset(b)
    ensures multiset(Factors(a, kind)) == multiset(Factors(b, kind))
    decreases |a|
  {
    if a != [] {
      var j := MatchFirst(a, b);
      var rest := b[..j] + b[j + 1..];
      FactorsPermutation(a[1..], rest, kind);
      var fa, fb := Factors(a, kind), Factors(b, kind);
      assert fa == [fa[0]] + Factors(a[1..], kind);
      assert Factors(rest, kind) == fb[..j] + fb[j + 1..];
      MultisetRemove(fb, j);
      assert fb[j] == fa[0];
    } else {
      assert |b| == |multiset(b)| == 0;
    }
  }

  lemma ProductOfPermutation(a: seq<GlobalUpgrade>, b: seq<GlobalUpgrade>, kind: GlobalUpgradeType)
    requires multiset(a) == multiset(b)
    ensures ProductOf(a, kind) == ProductOf(b, kind)
  {
    FactorsPermutation(a, b, kind);
    ProdPermutation(Factors(a, kind), Factors(b, kind));
  }

  /** The multipliers depend only on which upgrades are present at which
      levels, not on their order in the list. */
  lemma RecomputeOrderIndependent(a: seq<GlobalUpgrade>, b: seq<GlobalUpgrade>)
    requires multiset(a) == multiset(b)
    ensures Fold(a) == Fold(b)
  {
    FoldIsProduct(a);
    FoldIsProduct(b);
    ProductOfPermutation(a, b, GlobalProduction);
    ProductOfPermutation(a, b, OfflineGain);
    ProductOfPermutation(a, b, GeneratorCostReduction);
  }

  /** With nothing purchased all three multipliers are 1. */
  lemma {:induction false} NothingPurchasedIsNeutral(ups: seq<GlobalUpgrade>)
    requires forall i :: 0 <= i < |ups| ==> ups[i].level <= 0
    ensures Fold(ups) == Neutral
  {
    if ups != [] {
      NothingPurchasedIsNeutral(ups[..|ups| - 1]);
    }
  }

  /** Synergy, constellation and singularity upgrades, wherever they sit in
      the list, leave all three multipliers as they are. */
  lemma OtherKindsNeutral(a: seq<GlobalUpgrade>, u: GlobalUpgrade, b: seq<GlobalUpgrade>)
    requires u.kind in {GeneratorSynergy, ConstellationBoost, SingularityCore}
    ensures Fold(a + [u] + b) == Fold(a + b)
  {
    FoldIsProduct(a + [u] + b);
    FoldIsProduct(a + b);
    SpliceNeutralFactor(a, u, b, GlobalProduction);
    SpliceNeutralFactor(a, u, b, OfflineGain);
    SpliceNeutralFactor(a, u, b, GeneratorCostReduction);
  }

  lemma SpliceNeutralFactor(a: seq<GlobalUpgrade>, u: GlobalUpgrade, b: seq<GlobalUpgrade>, kind: GlobalUpgradeType)
    requires Factor(u, kind) == 1.0
    ensures ProductOf(a + [u] + b, kind) == ProductOf(a + b, kind)
  {
    var withU := a + [u];
    ProductOfSnoc(a, u, kind);
    ScaledByOne(ProductOf(withU, kind), ProductOf(a, kind), Factor(u, kind));
    ProductOfConcat(withU, b, kind);
    ProductOfConcat(a, b, kind);
    SameScaling(ProductOf(withU + b, kind), ProductOf(a + b, kind), ProductOf(withU, kind), ProductOf(a, kind), ProductOf(b, kind));
  }

  /** Three +25% production upgrades at level 1 compound to 1.25^3. */
  lemma ThreeProductionUpgradesExample(u: GlobalUpgrade)
    requires u.kind == GlobalProduction && u.valuePerLevel == 0.25 && u.level == 1
    ensures Fold([u, u, u]).globalProduction == 1.953125
    ensures Fold([u, u, u]).offlineGain == 1.0 && Fold([u, u, u]).generatorCostReduction == 1.0
  {
    assert CurrentValue(u) == 0.25;
    assert [u][..0] == [];
    assert Fold([u]) == Multipliers(1.25, 1.0, 1.0);
    assert [u, u][..1] == [u];
    assert Fold([u, u]) == Multipliers(1.5625, 1.0, 1.0);
    assert [u, u, u][..2] == [u, u];
  }

  // ---------------------------------------------------------------------
  // Persistence of the levels

  predicate DistinctIds(ups: seq<GlobalUpgrade>)
  {
    forall i, j :: 0 <= i < j < |ups| ==> ups[i].id != ups[j].id
  }

  /** The store after the save loop: each upgrade's level under its key, in list order. */
  function SaveUpgradeLevels(p: Store, ups: seq<GlobalUpgrade>): Store
  {
    if ups == [] then p
    else
      var last := ups[|ups| - 1];
      SaveUpgradeLevels(p, ups[..|ups| - 1])[UpgradeKey(last.id) := IntValue(last.level)]
  }

  /** One upgrade after loading: its stored level when the key is present, unchanged otherwise. */
  function LoadUpgradeLevel(u: GlobalUpgrade, p: Store): (r: GlobalUpgrade)
    ensures r.(level := u.level) == u
    ensures UpgradeKey(u.id) !in p ==> r == u
    ensures UpgradeKey(u.id) in p && p[UpgradeKey(u.id)].IntValue? ==> r.level == p[UpgradeKey(u.id)].n
  {
    var key := UpgradeKey(u.id);
    if key in p then u.(level := GetInt(p, key, 0)) else u
  }

  function LoadUpgradeLevels(ups: seq<GlobalUpgrade>, p: Store): (r: seq<GlobalUpgrade>)
    ensures |r| == |ups|
  {
    seq(|ups|, i requires 0 <= i < |ups| => LoadUpgradeLevel(ups[i], p))
  }

  /** Saving writes only the keys of the saved upgrades. */
  lemma {:induction false} SaveUpgradeLevelsFrame(p: Store, ups: seq<GlobalUpgrade>, k: string)
    requires forall i :: 0 <= i < |ups| ==> UpgradeKey(ups[i].id) != k
    ensures (k in SaveUpgradeLevels(p, ups)) == (k in p)
    ensures k in p ==> SaveUpgradeLevels(p, ups)[k] == p[k]
  {
    if ups != [] {
      SaveUpgradeLevelsFrame(p, ups[..|ups| - 1], k);
    }
  }

  /** After saving, each upgrade's key holds its level. */
  lemma {:induction false} SavedUpgradeLevel(p: Store, ups: seq<GlobalUpgrade>, i: nat)
    requires DistinctIds(ups) && i < |ups|
    ensures UpgradeKey(ups[i].id) in SaveUpgradeLevels(p, ups)
    ensures SaveUpgradeLevels(p, ups)[UpgradeKey(ups[i].id)] == IntValue(ups[i].level)
  {
    var n := |ups|;
    if i < n - 1 {
      UpgradeKeyInjective(ups[i].id, ups[n - 1].id);
      SavedUpgradeLevel(p, ups[..n - 1], i);
    }
  }

  /** Saving and then loading restores every level, whatever the levels of
      the list loaded into, provided it lists the same ids. */
  lemma SaveThenLoadUpgrades(p: Store, saved: seq<GlobalUpgrade>, target: seq<GlobalUpgrade>)
    requires DistinctIds(saved)
    requires |target| == |saved| && forall i :: 0 <= i < |saved| ==> target[i].id == saved[i].id
    ensures forall i :: 0 <= i < |saved| ==>
      LoadUpgradeLevels(target, SaveUpgradeLevels(p, saved))[i] == target[i].(level := saved[i].level)
    ensures target == saved ==> LoadUpgradeLevels(target, SaveUpgradeLevels(p, saved)) == saved
  {
    forall i | 0 <= i < |saved|
      ensures LoadUpgradeLevels(target, SaveUpgradeLevels(p, saved))[i] == target[i].(level := saved[i].level)
    {
      SavedUpgradeLevel(p, saved, i);
    }
  }

  /** Every upgrade whose key is absent keeps its level, whatever other keys
      the store holds; a store holding none of the keys changes nothing. */
  lemma LoadWithoutKeys(ups: seq<GlobalUpgrade>, p: Store)
    ensures forall i :: 0 <= i < |ups| && UpgradeKey(ups[i].id) !in p ==> LoadUpgradeLevels(ups, p)[i] == ups[i]
    ensures (forall i :: 0 <= i < |ups| ==> UpgradeKey(ups[i].id) !in p) ==> LoadUpgradeLevels(ups, p) == ups
  {
  }

  // ---------------------------------------------------------------------
  // The manager

  class UpgradeManager {
    var upgrades: seq<GlobalUpgrade>
    var globalProductionMultiplier: real
    var offlineGainMultiplier: real
    var generatorCostReductionMultiplier: real

    constructor (ups: seq<GlobalUpgrade>)
      ensures upgrades == ups && Current() == Neutral
    {
      upgrades := ups;
      globalProductionMultiplier := 1.0;
      offlineGainMultiplier := 1.0;
      generatorCostReductionMultiplier := 1.0;
    }

    function Current(): Multipliers
      reads this
    {
      Multipliers(globalProductionMultiplier, offlineGainMultiplier, generatorCostReductionMultiplier)
    }

    /** The multiplier fields agree with the current levels. */
    ghost predicate Consistent()
      reads this
    {
      Current() == Fold(upgrades)
    }

    /** Resets the three multipliers to 1 and folds every owned upgrade into them. */
    method RecomputeMultipliers()
      modifies this`globalProductionMultiplier, this`offlineGainMultiplier, this`generatorCostReductionMultiplier
      ensures upgrades == old(upgrades) && Consistent()
    {
      globalProductionMultiplier := 1.0;
      offlineGainMultiplier := 1.0;
      generatorCostReductionMultiplier := 1.0;
      var i := 0;
      while i < |upgrades|
        invariant 0 <= i <= |upgrades|
        invariant Current() == Fold(upgrades[..i])
      {
        assert upgrades[..i + 1][..i] == upgrades[..i];
        ApplyUpgrade(upgrades[i]);
        i := i + 1;
      }
      assert upgrades[..i] == upgrades;
    }

    /** One pass of the recompute loop: an owned upgrade of one of the three
        multiplier kinds scales that multiplier by its factor. */
    method ApplyUpgrade(upg: GlobalUpgrade)
      modifies this`globalProductionMultiplier, this`offlineGainMultiplier, this`generatorCostReductionMultiplier
      ensures Current() == Apply(old(Current()), upg)
    {
      if upg.level > 0 {
        var totalValue := CurrentValue(upg);
        match upg.kind {
          case GlobalProduction =>
            globalProductionMultiplier := globalProductionMultiplier * (1.0 + totalValue);
          case OfflineGain =>
            offlineGainMultiplier := offlineGainMultiplier * (1.0 + totalValue);
          case GeneratorCostReduction =>
            var reduction := totalValue;
            generatorCostReductionMultiplier := generatorCostReductionMultiplier * (1.0 - reduction);
          case _ =>
        }
      }
    }

    /** Writes each upgrade's level under `ASTRAL_UPG_{id}_LEVEL`. */
    method SaveUpgrades(p: Store) returns (q: Store)
      ensures q == SaveUpgradeLevels(p, upgrades)
    {
      q := p;
      var i := 0;
      while i < |upgrades|
        invariant 0 <= i <= |upgrades|
        invariant q == SaveUpgradeLevels(p, upgrades[..i])
      {
        var upg := upgrades[i];
        assert upgrades[..i + 1][..i] == upgrades[..i];
        q := q[UpgradeKey(upg.id) := IntValue(upg.level)];
        i := i + 1;
      }
      assert upgrades[..i] == upgrades;
    }

    /** Sets each level whose key is present, leaves the others, then recomputes. */
    method LoadUpgrades(p: Store)
      modifies this
      ensures upgrades == LoadUpgradeLevels(old(upgrades), p) && Consistent()
    {
      var i := 0;
      while i < |upgrades|
        invariant 0 <= i <= |upgrades| == |old(upgrades)|
        invariant forall j :: 0 <= j < i ==> upgrades[j] == LoadUpgradeLevel(old(upgrades)[j], p)
        invariant forall j :: i <= j < |upgrades| ==> upgrades[j] == old(upgrades)[j]
      {
        var upg := upgrades[i];
        var key := UpgradeKey(upg.id);
        if key in p {
          upgrades := upgrades[i := upg.(level := GetInt(p, key, 0))];
        }
        i := i + 1;
      }
      RecomputeMultipliers();
    }
  }
}
