/** A generator: a production source whose output and next-level price are
    pure functions of its level. Two milestone tiers compound its output: a
    weak bonus every `weakMilestoneInterval` levels (25 by default) and a
    strong one every `strongMilestoneInterval` levels (100 by default). */
module Generators {
  import opened Numerics

  /** One generator. Every field but `level` is configuration. */
  datatype Generator = Generator(
    id: string,
    baseProductionPerSecond: real,
    baseProdUpgrade: real,            // a percentage applied to the base production
    baseCost: real,
    costMultiplier: real,
    unlockAtStardust: real,
    weakMilestoneInterval: int,
    weakMilestoneMultiplier: real,
    strongMilestoneInterval: int,
    strongMilestoneMultiplier: real,
    level: int)

  /** Completed milestones of an interval: `level / interval` in C#'s
      truncating division, or 0 when the interval is not positive. */
  function MilestoneCount(level: int, interval: int): (n: int)
  {
    if interval <= 0 then 0 else TruncDiv(level, interval)
  }

  /** For a positive interval and a level of at least 0, the count is the
      number of whole intervals the level spans. */
  lemma MilestoneCountBounds(level: int, interval: int)
    requires interval > 0 && level >= 0
    ensures MilestoneCount(level, interval) * interval <= level < (MilestoneCount(level, interval) + 1) * interval
  {
    TruncDivBounds(level, interval);
  }

  /** A level of at least 0 has completed a natural number of milestones,
      and none at all when the interval is not positive. */
  lemma MilestoneCountNonNegative(level: int, interval: int)
    requires level >= 0
    ensures MilestoneCount(level, interval) >= 0
    ensures interval <= 0 ==> MilestoneCount(level, interval) == 0
  {
    if interval > 0 {
      TruncDivNonNegative(level, interval);
    }
  }

  function WeakMilestoneCount(g: Generator): int
  {
    MilestoneCount(g.level, g.weakMilestoneInterval)
  }

  function StrongMilestoneCount(g: Generator): int
  {
    MilestoneCount(g.level, g.strongMilestoneInterval)
  }

  /** The tier shown to the player and used for constellation bonuses: one per
      completed strong milestone. */
  function UpgradeTier(g: Generator): int
  {
    StrongMilestoneCount(g)
  }

  /** The tier counts the strong intervals the level spans: tier · interval ≤
      level < (tier + 1) · interval for a positive interval and a level of at
      least 0, and there is no tier when the interval is not positive. */
  lemma UpgradeTierBounds(g: Generator)
    ensures g.strongMilestoneInterval <= 0 ==> UpgradeTier(g) == 0
    ensures g.strongMilestoneInterval > 0 && g.level >= 0 ==>
      && 0 <= UpgradeTier(g)
      && UpgradeTier(g) * g.strongMilestoneInterval <= g.level < (UpgradeTier(g) + 1) * g.strongMilestoneInterval
  {
    if g.strongMilestoneInterval > 0 && g.level >= 0 {
      MilestoneCountBounds(g.level, g.strongMilestoneInterval);
      MilestoneCountNonNegative(g.level, g.strongMilestoneInterval);
    }
  }

  predicate NonNegativeMilestones(g: Generator)
  {
    g.weakMilestoneMultiplier >= 0.0 && g.strongMilestoneMultiplier >= 0.0
  }

  /** One milestone tier's factor: (1 + bonus)^count, or 1 when the count
      is not positive. */
  function MilestoneFactor(bonus: real, count: int): real
  {
    if count > 0 then Pow(1.0 + bonus, count) else 1.0
  }

  /** The compounded milestone bonus: (1 + weak)^weakCount * (1 + strong)^strongCount,
      with each factor skipped when its count is not positive. */
  function MilestoneMultiplier(g: Generator): real
  {
    if g.level <= 0 then 1.0
    else
      var weak := MilestoneFactor(g.weakMilestoneMultiplier, WeakMilestoneCount(g));
      var strong := MilestoneFactor(g.strongMilestoneMultiplier, StrongMilestoneCount(g));
      1.0 * weak * strong
  }

  /** With a non-negative bonus, a tier's factor is at least 1 and never
      falls as the count rises. */
  lemma MilestoneFactorMonotone(bonus: real, c1: int, c2: int)
    requires bonus >= 0.0 && c1 <= c2
    ensures 1.0 <= MilestoneFactor(bonus, c1) <= MilestoneFactor(bonus, c2)
  {
    if c2 > 0 {
      var n1: nat := if c1 > 0 then c1 else 0;
      PowBetween(1.0 + bonus, n1, c2);
      assert Pow(1.0 + bonus, 0) == 1.0;
    }
  }

  /** Whatever the bonuses, the multiplier is exactly 1 at level 0 or below,
      and also at a positive level that has completed no milestone of either
      tier. */
  lemma MilestoneMultiplierNeutral(g: Generator)
    ensures g.level <= 0 ==> MilestoneMultiplier(g) == 1.0
    ensures WeakMilestoneCount(g) <= 0 && StrongMilestoneCount(g) <= 0 ==> MilestoneMultiplier(g) == 1.0
  {
  }

  /** With non-negative milestone bonuses the multiplier is at least 1; at
      level 0 or below it is exactly 1. */
  lemma MilestoneMultiplierAtLeastOne(g: Generator)
    requires NonNegativeMilestones(g)
    ensures MilestoneMultiplier(g) >= 1.0
    ensures g.level <= 0 ==> MilestoneMultiplier(g) == 1.0
  {
    if g.level > 0 {
      var weak := MilestoneFactor(g.weakMilestoneMultiplier, WeakMilestoneCount(g));
      var strong := MilestoneFactor(g.strongMilestoneMultiplier, StrongMilestoneCount(g));
      MilestoneFactorMonotone(g.weakMilestoneMultiplier, WeakMilestoneCount(g), WeakMilestoneCount(g));
      MilestoneFactorMonotone(g.strongMilestoneMultiplier, StrongMilestoneCount(g), StrongMilestoneCount(g));
      assert weak * strong >= weak * 1.0;
    }
  }

  /** Output per second: 0 at level 0 or below, otherwise
      base * upgrade% * level * milestone multiplier. */
  function ProductionPerSecond(g: Generator): (p: real)
    ensures g.level <= 0 ==> p == 0.0
  {
    if g.level <= 0 then 0.0
    else
      var baseProd := BaseUpgrade(g) * (g.level as real);
      baseProd * MilestoneMultiplier(g)
  }

  /** The per-level base output after the percentage upgrade. */
  function BaseUpgrade(g: Generator): real
  {
    g.baseProductionPerSecond * g.baseProdUpgrade / 100.0
  }

  /** At a positive level both milestone counts are natural numbers and the
      multiplier is exactly the product of the two powers. */
  lemma MilestoneMultiplierClosedForm(g: Generator, l: int)
    requires l > 0
    ensures MilestoneCount(l, g.weakMilestoneInterval) >= 0 && MilestoneCount(l, g.strongMilestoneInterval) >= 0
    ensures MilestoneMultiplier(g.(level := l))
         == Pow(1.0 + g.weakMilestoneMultiplier, MilestoneCount(l, g.weakMilestoneInterval))
          * Pow(1.0 + g.strongMilestoneMultiplier, MilestoneCount(l, g.strongMilestoneInterval))
  {
    MilestoneCountNonNegative(l, g.weakMilestoneInterval);
    MilestoneCountNonNegative(l, g.strongMilestoneInterval);
  }

  /** The production formula at a positive level, with the multiplier spelled out. */
  lemma ProductionClosedForm(g: Generator)
    requires g.level > 0
    ensures WeakMilestoneCount(g) >= 0 && StrongMilestoneCount(g) >= 0
    ensures ProductionPerSecond(g)
         == BaseUpgrade(g) * (g.level as real)
          * Pow(1.0 + g.weakMilestoneMultiplier, WeakMilestoneCount(g))
          * Pow(1.0 + g.strongMilestoneMultiplier, StrongMilestoneCount(g))
  {
    MilestoneMultiplierClosedForm(g, g.level);
    assert g.(level := g.level) == g;
  }

  /** Milestone counts never fall as the level rises. */
  lemma MilestoneCountMonotone(l1: int, l2: int, interval: int)
    requires 0 <= l1 <= l2
    ensures MilestoneCount(l1, interval) <= MilestoneCount(l2, interval)
  {
    if interval > 0 {
      TruncDivMonotone(l1, l2, interval);
    }
  }

  /** With non-negative milestone bonuses the multiplier never falls as the level rises. */
  lemma MilestoneMultiplierMonotone(g: Generator, l1: int, l2: int)
    requires NonNegativeMilestones(g) && 0 < l1 <= l2
    ensures MilestoneMultiplier(g.(level := l1)) <= MilestoneMultiplier(g.(level := l2))
  {
    var weak1, weak2 := MilestoneCount(l1, g.weakMilestoneInterval), MilestoneCount(l2, g.weakMilestoneInterval);
    var strong1, strong2 := MilestoneCount(l1, g.strongMilestoneInterval), MilestoneCount(l2, g.strongMilestoneInterval);
    MilestoneCountMonotone(l1, l2, g.weakMilestoneInterval);
    MilestoneCountMonotone(l1, l2, g.strongMilestoneInterval);
    MilestoneFactorMonotone(g.weakMilestoneMultiplier, weak1, weak2);
    MilestoneFactorMonotone(g.strongMilestoneMultiplier, strong1, strong2);
    ProductOrder(MilestoneMultiplier(g.(level := l1)), MilestoneMultiplier(g.(level := l2)),
                 MilestoneFactor(g.weakMilestoneMultiplier, weak1), MilestoneFactor(g.strongMilestoneMultiplier, strong1),
                 MilestoneFactor(g.weakMilestoneMultiplier, weak2), MilestoneFactor(g.strongMilestoneMultiplier, strong2));
  }

  /** Two products of factors of at least 1 are ordered as their factors are. */
  lemma ProductOrder(m1: real, m2: real, w1: real, s1: real, w2: real, s2: real)
    requires m1 == 1.0 * w1 * s1 && m2 == 1.0 * w2 * s2
    requires 1.0 <= w1 <= w2 && 1.0 <= s1 <= s2
    ensures m1 <= m2
  {
    MulMonotone(w1, s1, w2, s2);
  }

  lemma PowBetween(b: real, m: nat, n: nat)
    requires b >= 1.0 && m <= n
    ensures 1.0 <= Pow(b, m) <= Pow(b, n)
  {
    PowAtLeastOne(b, m);
    PowMonotoneInExponent(b, m, n);
  }

  /** Two amounts of the form u * l * m, with u non-negative, the levels l
      positive and the multipliers m at least 1, are ordered as their levels
      and multipliers are. */
  predicate ScaledBy(p: real, u: real, l: int, m: real)
  {
    p == (u * (l as real)) * m
  }

  lemma ScaledProductMonotone(p1: real, p2: real, u: real, l1: int, l2: int, m1: real, m2: real)
    requires ScaledBy(p1, u, l1, m1)
    requires ScaledBy(p2, u, l2, m2)
    requires u >= 0.0
    requires 0 < l1 <= l2
    requires m1 >= 1.0
    requires m1 <= m2
    ensures 0.0 <= p1 <= p2
  {
    var x1, x2 := l1 as real, l2 as real;
    MulMonotone(u, x1, u, x2);
    MulMonotone(0.0, 0.0, u, x1);
    MulMonotone(u * x1, m1, u * x2, m2);
  }

  /** At a positive level, with non-negative configuration, production is
      the non-negative base times the level times a multiplier of at least 1. */
  lemma ProductionAtPositiveLevel(g: Generator, l: int)
    requires l > 0 && g.baseProductionPerSecond >= 0.0 && g.baseProdUpgrade >= 0.0
    requires NonNegativeMilestones(g)
    ensures BaseUpgrade(g) >= 0.0 && MilestoneMultiplier(g.(level := l)) >= 1.0
    ensures ScaledBy(ProductionPerSecond(g.(level := l)), BaseUpgrade(g), l, MilestoneMultiplier(g.(level := l)))
  {
    MulMonotone(0.0, 0.0, g.baseProductionPerSecond, g.baseProdUpgrade);
    MilestoneMultiplierAtLeastOne(g.(level := l));
  }

  /** Production never decreases as the level grows, provided the base
      production, the upgrade percentage and both milestone bonuses are
      non-negative. */
  lemma ProductionMonotone(g: Generator, l1: int, l2: int)
    requires g.baseProductionPerSecond >= 0.0 && g.baseProdUpgrade >= 0.0
    requires NonNegativeMilestones(g)
    requires l1 <= l2
    ensures 0.0 <= ProductionPerSecond(g.(level := l1)) <= ProductionPerSecond(g.(level := l2))
  {
    if l1 > 0 {
      PositiveLevelsMonotone(g, l1, l2);
    } else if l2 > 0 {
      PositiveLevelsMonotone(g, l2, l2);
    }
  }

  /** The case of `ProductionMonotone` where both levels are positive. */
  lemma PositiveLevelsMonotone(g: Generator, l1: int, l2: int)
    requires g.baseProductionPerSecond >= 0.0 && g.baseProdUpgrade >= 0.0
    requires NonNegativeMilestones(g)
    requires 0 < l1 <= l2
    ensures 0.0 <= ProductionPerSecond(g.(level := l1)) <= ProductionPerSecond(g.(level := l2))
  {
    MilestoneMultiplierMonotone(g, l1, l2);
    ProductionFollowsMultiplier(g, l1, l2);
  }

  /** Between two positive levels, production is ordered as soon as the
      milestone multipliers are. */
  lemma ProductionFollowsMultiplier(g: Generator, l1: int, l2: int)
    requires g.baseProductionPerSecond >= 0.0 && g.baseProdUpgrade >= 0.0
    requires NonNegativeMilestones(g)
    requires 0 < l1 <= l2
    requires MilestoneMultiplier(g.(level := l1)) <= MilestoneMultiplier(g.(level := l2))
    ensures 0.0 <= ProductionPerSecond(g.(level := l1)) <= ProductionPerSecond(g.(level := l2))
  {
    var g1, g2 := g.(level := l1), g.(level := l2);
    ProductionAtPositiveLevel(g, l1);
    ProductionAtPositiveLevel(g, l2);
    ScaledProductMonotone(ProductionPerSecond(g1), ProductionPerSecond(g2),
                          BaseUpgrade(g), l1, l2, MilestoneMultiplier(g1), MilestoneMultiplier(g2));
  }

  /** Price of the next level: baseCost * costMultiplier^level, times the
      global cost-reduction factor when an upgrade manager exists. */
  function NextLevelCost(g: Generator, costReduction: Option<real>): real
  {
    var cost := g.baseCost * IntPow(g.costMultiplier, g.level);
    if costReduction.Some? then cost * costReduction.value else cost
  }

  /** The price strictly rises with every level when the base cost and the
      reduction factor are positive and the growth ratio exceeds 1. */
  lemma NextLevelCostIncreasing(g: Generator, costReduction: Option<real>)
    requires g.baseCost > 0.0 && g.costMultiplier > 1.0
    requires costReduction.Some? ==> costReduction.value > 0.0
    ensures 0.0 < NextLevelCost(g, costReduction) < NextLevelCost(g.(level := g.level + 1), costReduction)
  {
    IntPowStrictStep(g.costMultiplier, g.level);
    ReducedCostsOrdered(NextLevelCost(g, costReduction), NextLevelCost(g.(level := g.level + 1), costReduction),
                        g.baseCost, IntPow(g.costMultiplier, g.level), IntPow(g.costMultiplier, g.level + 1), costReduction);
  }

  /** Two prices base * p, each times the same optional positive factor, are
      ordered as their powers p are. */
  lemma ReducedCostsOrdered(c0: real, c1: real, base: real, p0: real, p1: real, costReduction: Option<real>)
    requires c0 == (var cost := base * p0; if costReduction.Some? then cost * costReduction.value else cost)
    requires c1 == (var cost := base * p1; if costReduction.Some? then cost * costReduction.value else cost)
    requires base > 0.0 && 0.0 < p0 < p1
    requires costReduction.Some? ==> costReduction.value > 0.0
    ensures 0.0 < c0 < c1
  {
    assert 0.0 < base * p0 < base * p1;
    if costReduction.Some? {
      var r := costReduction.value;
      assert (base * p0) * r < (base * p1) * r;
    }
  }

  /** Unlocked once a level is owned; before that, once the lifetime total
      (`None` when no game manager exists) reaches the threshold. */
  function IsUnlocked(g: Generator, lifetimeEarned: Option<real>): (u: bool)
    ensures g.level > 0 ==> u
    ensures lifetimeEarned.None? ==> (u <==> g.level > 0)
    ensures g.level <= 0 && lifetimeEarned.Some? ==> (u <==> lifetimeEarned.value >= g.unlockAtStardust)
  {
    if g.level > 0 then true
    else if lifetimeEarned.None? then false
    else lifetimeEarned.value >= g.unlockAtStardust
  }

  /** Unlocking is never undone by earning more or by owning more levels. */
  lemma IsUnlockedMonotone(g: Generator, e1: real, e2: real, l2: int)
    requires e1 <= e2 && g.level <= l2
    requires IsUnlocked(g, Some(e1))
    ensures IsUnlocked(g.(level := l2), Some(e2))
  {
  }
}
