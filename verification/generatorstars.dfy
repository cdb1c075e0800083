/** The milestone stars of a generator's panel. A row of big stars shows the
    progress inside the current cycle of `starCount` hundreds: one red star
    per complete hundred, one orange star per further 25 levels, grey for the
    rest, and a gold first star from level 1000. A row of small rank stars
    counts the completed cycles. Over successive refreshes, a latch fires the
    gold-tier sound once per crossing of level 1000. A missing image in
    either row is `None` and is skipped. */
module GeneratorStars {
  import opened Numerics

  datatype StarColour = Inactive | Orange | Red | Gold
  datatype RankColour = RankInactive | RankActive

  const GoldLevel: int := 1000

  /** The integers the big-star loop works from. */
  datatype Layout = Layout(cycles: int, localHundreds: int, orangeCount: int)

  /** The layout for a level and a row of `starCount` big stars (the code
      returns before this when the row is empty). C#'s `/` and `%` truncate,
      which matters for a negative level. */
  function StarLayout(level: int, starCount: int): (l: Layout)
    requires starCount > 0
    ensures level < 100 ==> l.cycles == 0 && l.localHundreds == 0
    ensures level >= 100 ==>
      && 0 <= l.cycles && 1 <= l.localHundreds <= starCount
      && l.cycles * starCount + l.localHundreds == level / 100
    ensures 0 <= l.orangeCount <= 3 && l.localHundreds + l.orangeCount <= starCount
    ensures level >= 0 ==> l.orangeCount == Min((level % 100) / 25, starCount - l.localHundreds)
  {
    var totalHundreds := TruncDiv(level, 100);
    var cycles := if totalHundreds > 0 then TruncDiv(totalHundreds - 1, starCount) else 0;
    var localHundreds := if totalHundreds > 0 then TruncMod(totalHundreds - 1, starCount) + 1 else 0;
    var remainderInHundred := TruncMod(level, 100);
    var orangeCount := ClampInt(TruncDiv(remainderInHundred, 25), 0, starCount - localHundreds);
    Layout(cycles, localHundreds, orangeCount)
  }

  function Min(a: int, b: int): int
  {
    if a <= b then a else b
  }

  /** The colour of big star `i`. */
  function StarColourAt(level: int, l: Layout, i: int): StarColour
  {
    if i == 0 && level >= GoldLevel then Gold
    else if i < l.localHundreds then Red
    else if i < l.localHundreds + l.orangeCount then Orange
    else Inactive
  }

  /** The big-star row after a refresh: every present image takes its colour. */
  function PaintStars(row: seq<Option<StarColour>>, level: int, l: Layout): (r: seq<Option<StarColour>>)
    ensures |r| == |row|
  {
    seq(|row|, i requires 0 <= i < |row| => if row[i].None? then None else Some(StarColourAt(level, l, i)))
  }

  /** The rank row for a number of completed cycles: the first
      clamp(cycles, 0, count) stars are lit. */
  function PaintRanks(row: seq<Option<RankColour>>, cycles: int): (r: seq<Option<RankColour>>)
    ensures |r| == |row|
  {
    var activeCount := ClampInt(cycles, 0, |row|);
    seq(|row|, i requires 0 <= i < |row| => if row[i].None? then None else Some(if i < activeCount then RankActive else RankInactive))
  }

  /** How many present images show colour `x`. */
  function Count<T(==)>(row: seq<Option<T>>, x: T): (n: nat)
    ensures n <= |row|
  {
    if row == [] then 0 else Count(row[..|row| - 1], x) + (if row[|row| - 1] == Some(x) then 1 else 0)
  }

  /** A colour shown exactly on the positions lo..hi-1 is counted hi - lo times. */
  lemma {:induction false} CountRange<T>(row: seq<Option<T>>, x: T, lo: int, hi: int)
    requires 0 <= lo <= hi <= |row|
    requires forall i :: 0 <= i < |row| ==> (row[i] == Some(x) <==> lo <= i < hi)
    ensures Count(row, x) == hi - lo
    decreases |row|
  {
    if row != [] {
      var p := row[..|row| - 1];
      if hi == |row| && lo < hi {
        CountRange(p, x, lo, hi - 1);
      } else if hi == |row| {
        CountRange(p, x, lo - 1, hi - 1);
      } else {
        CountRange(p, x, lo, hi);
      }
    }
  }

  predicate AllPresent<T>(row: seq<Option<T>>)
  {
    forall i :: 0 <= i < |row| ==> row[i].Some?
  }

  /** With every image present, the big row shows one gold star from level
      1000 on, one red star per complete hundred of the current cycle (less
      the gold one), `orangeCount` orange stars, and grey for the rest. */
  lemma StarCounts(row: seq<Option<StarColour>>, level: int)
    requires |row| > 0 && AllPresent(row)
    ensures var l := StarLayout(level, |row|);
      var painted := PaintStars(row, level, l);
      var gold := if level >= GoldLevel then 1 else 0;
      && Count(painted, Gold) == gold
      && Count(painted, Red) == l.localHundreds - gold
      && Count(painted, Orange) == l.orangeCount
      && Count(painted, Inactive) == |row| - l.localHundreds - l.orangeCount
  {
    var l := StarLayout(level, |row|);
    var painted := PaintStars(row, level, l);
    var gold := if level >= GoldLevel then 1 else 0;
    assert gold == 1 ==> l.localHundreds >= 1;
    CountRange(painted, Gold, 0, gold);
    CountRange(painted, Red, gold, l.localHundreds);
    CountRange(painted, Orange, l.localHundreds, l.localHundreds + l.orangeCount);
    CountRange(painted, Inactive, l.localHundreds + l.orangeCount, |row|);
  }

  /** With every image present, exactly clamp(cycles, 0, count) rank stars are lit. */
  lemma RankCount(row: seq<Option<RankColour>>, cycles: int)
    requires AllPresent(row)
    ensures Count(PaintRanks(row, cycles), RankActive) == ClampInt(cycles, 0, |row|)
    ensures Count(PaintRanks(row, cycles), RankInactive) == |row| - ClampInt(cycles, 0, |row|)
  {
    var a := ClampInt(cycles, 0, |row|);
    CountRange(PaintRanks(row, cycles), RankActive, 0, a);
    CountRange(PaintRanks(row, cycles), RankInactive, a, |row|);
  }

  /** The stars never overstate the level: the red and orange stars of the
      current cycle, plus the completed cycles, account for at most `level`
      levels, and when the orange count is not cut short they account for
      it to within 25 levels. */
  lemma StarsReadLevel(level: int, starCount: int)
    requires level >= 0 && starCount > 0
    ensures var l := StarLayout(level, starCount);
      var shown := 100 * (l.cycles * starCount + l.localHundreds) + 25 * l.orangeCount;
      && shown <= level
      && (l.localHundreds + (level % 100) / 25 <= starCount ==> level < shown + 25)
  {
    var l := StarLayout(level, starCount);
    HundredsAndQuarters(level, l.cycles * starCount + l.localHundreds, l.orangeCount, starCount - l.localHundreds);
  }

  /** Whole hundreds of a level plus at most its whole quarters of the rest
      never exceed the level, and all the quarters fall short of it by less
      than one quarter. */
  lemma HundredsAndQuarters(level: int, hundreds: int, quarters: int, cap: int)
    requires level >= 0 && hundreds == level / 100
    requires quarters == Min((level % 100) / 25, cap)
    ensures 100 * hundreds + 25 * quarters <= level
    ensures (level % 100) / 25 <= cap ==> level < 100 * hundreds + 25 * quarters + 25
  {
    var r := level % 100;
    assert level == 100 * hundreds + r;
    assert 25 * (r / 25) <= r < 25 * (r / 25) + 25;
  }

  /** What one `CheckGoldTierEffects` call leaves: the new latch, and whether
      the latch fired (the sound then plays when a source and a clip are set). */
  datatype LatchStep = LatchStep(latched: bool, fired: bool)

  /** Without a generator nothing happens; otherwise the latch fires when the
      level is at least 1000 and the latch is open, and the latch re-opens once
      the level is seen below 1000. */
  function GoldLatch(latched: bool, level: Option<int>): (r: LatchStep)
    ensures level.None? ==> r == LatchStep(latched, false)
    ensures level.Some? ==> r.latched == (level.value >= GoldLevel)
    ensures r.fired <==> level.Some? && level.value >= GoldLevel && !latched
  {
    if level.None? then LatchStep(latched, false)
    else if level.value >= GoldLevel && !latched then LatchStep(true, true)
    else if level.value < GoldLevel then LatchStep(false, false)
    else LatchStep(latched, false)
  }

  /** The latch firings of a series of refreshes of a panel whose generator is set. */
  function GoldRun(latched: bool, levels: seq<int>): (fired: seq<bool>)
    ensures |fired| == |levels|
    decreases |levels|
  {
    if levels == [] then []
    else
      var step := GoldLatch(latched, Some(levels[0]));
      [step.fired] + GoldRun(step.latched, levels[1..])
  }

  /** Over any series of refreshes the latch fires exactly at the refreshes
      that see level 1000 or more when the previous one saw less (or, for
      the first, when the latch started open): once per crossing. */
  lemma {:induction false} GoldRunFiresOnCrossing(latched: bool, levels: seq<int>)
    ensures forall k :: 0 <= k < |levels| ==>
      (GoldRun(latched, levels)[k] <==>
         levels[k] >= GoldLevel && (if k == 0 then !latched else levels[k - 1] < GoldLevel))
    decreases |levels|
  {
    if levels != [] {
      var step := GoldLatch(latched, Some(levels[0]));
      var rest := levels[1..];
      GoldRunFiresOnCrossing(step.latched, rest);
      assert GoldRun(latched, levels) == [step.fired] + GoldRun(step.latched, rest);
      forall k | 0 <= k < |levels|
        ensures GoldRun(latched, levels)[k] <==>
          levels[k] >= GoldLevel && (if k == 0 then !latched else levels[k - 1] < GoldLevel)
      {
        if k > 0 {
          assert GoldRun(latched, levels)[k] == GoldRun(step.latched, rest)[k - 1];
          assert rest[k - 1] == levels[k];
          if k > 1 {
            assert rest[k - 2] == levels[k - 1];
          }
        }
      }
    }
  }

  /** The panel's star rows and its gold-tier latch. */
  class GeneratorUI {
    const upgradeStars: array<Option<StarColour>>
    const rankStars: array<Option<RankColour>>
    var hasTriggeredGoldTierFx: bool

    constructor (stars: array<Option<StarColour>>, ranks: array<Option<RankColour>>)
      ensures upgradeStars == stars && rankStars == ranks && !hasTriggeredGoldTierFx
    {
      upgradeStars := stars;
      rankStars := ranks;
      hasTriggeredGoldTierFx := false;
    }

    /** Repaints both rows for the generator's level (`None` without a
        generator). Nothing changes with an empty big row or no generator. */
    method UpdateUpgradeStars(generatorLevel: Option<int>)
      modifies upgradeStars, rankStars
      ensures upgradeStars.Length == 0 || generatorLevel.None? ==>
        upgradeStars[..] == old(upgradeStars[..]) && rankStars[..] == old(rankStars[..])
      ensures upgradeStars.Length > 0 && generatorLevel.Some? ==>
        var l := StarLayout(generatorLevel.value, upgradeStars.Length);
        && upgradeStars[..] == PaintStars(old(upgradeStars[..]), generatorLevel.value, l)
        && rankStars[..] == PaintRanks(old(rankStars[..]), l.cycles)
    {
      if upgradeStars.Length == 0 || generatorLevel.None? {
        return;
      }
      var level := generatorLevel.value;
      var starCount := upgradeStars.Length;
      var l := StarLayout(level, starCount);
      ghost var before := upgradeStars[..];
      for i := 0 to starCount
        modifies upgradeStars
        invariant forall j :: 0 <= j < i ==>
          upgradeStars[j] == (if before[j].None? then None else Some(StarColourAt(level, l, j)))
        invariant forall j :: i <= j < starCount ==> upgradeStars[j] == before[j]
      {
        var img := upgradeStars[i];
        if img.None? {
          continue;
        }
        if i == 0 && level >= GoldLevel {
          upgradeStars[i] := Some(Gold);
          continue;
        }
        if i < l.localHundreds {
          upgradeStars[i] := Some(Red);
        } else if i < l.localHundreds + l.orangeCount {
          upgradeStars[i] := Some(Orange);
        } else {
          upgradeStars[i] := Some(Inactive);
        }
      }
      assert upgradeStars[..] == PaintStars(before, level, l);
      UpdateRankStars(l.cycles);
    }

    /** Lights the first clamp(cycles, 0, count) rank stars and dims the rest. */
    method UpdateRankStars(cycles: int)
      modifies rankStars
      ensures rankStars[..] == PaintRanks(old(rankStars[..]), cycles)
    {
      var activeCount := ClampInt(cycles, 0, rankStars.Length);
      ghost var before := rankStars[..];
      for i := 0 to rankStars.Length
        invariant forall j :: 0 <= j < i ==>
          rankStars[j] == (if before[j].None? then None else Some(if j < activeCount then RankActive else RankInactive))
        invariant forall j :: i <= j < rankStars.Length ==> rankStars[j] == before[j]
      {
        var img := rankStars[i];
        if img.None? {
          continue;
        }
        rankStars[i] := Some(if i < activeCount then RankActive else RankInactive);
      }
      assert rankStars[..] == PaintRanks(before, cycles);
    }

    /** Fires the gold-tier latch (`fired`; the sound plays when a source and a
        clip are set) at most once per crossing of level 1000 over successive refreshes. */
    method CheckGoldTierEffects(generatorLevel: Option<int>) returns (fired: bool)
      modifies this`hasTriggeredGoldTierFx
      ensures LatchStep(hasTriggeredGoldTierFx, fired) == GoldLatch(old(hasTriggeredGoldTierFx), generatorLevel)
    {
      fired := false;
      if generatorLevel.None? {
        return;
      }
      var isGoldTierReached := generatorLevel.value >= GoldLevel;
      if isGoldTierReached && !hasTriggeredGoldTierFx {
        hasTriggeredGoldTierFx := true;
        fired := true;
      } else if !isGoldTierReached {
        hasTriggeredGoldTierFx := false;
      }
    }
  }
}
