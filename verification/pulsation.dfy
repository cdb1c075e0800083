/** The pulsation mini-game: the player clicks in rhythm, each click is
    judged against the ideal interval, a combo builds up, a charge in [0, 1]
    fills with each click and decays over time, and a full charge with a long
    enough combo starts a timed surge. Times are seconds passed in by the
    caller (Unity's unscaled clock). */
module Pulsation {
  import N = Numerics

  datatype HitQuality = None | Perfect | Good | Miss

  /** The inspector settings of the manager. */
  datatype Settings = Settings(
    baseChargePerClick: real,
    decayPerSecond: real,
    maxProductionMultiplier: real,
    flowEnabled: bool,
    idealInterval: real,
    perfectWindow: real,
    goodWindow: real,
    comboDisplayCap: int,
    chargeBonusPerCombo: real,
    productionBonusPerCombo: real,
    resetComboOnMiss: bool,
    minComboForSurge: int,
    surgeDuration: real,
    surgeMultiplier: real,
    chargeAfterSurge: real)

  /** The runtime fields of the manager. */
  datatype PulseState = PulseState(
    charge: real,
    lastClickTime: real,
    combo: int,
    surgeActive: bool,
    surgeRemaining: real,
    lastHit: HitQuality,
    lastTimingDiff: real,
    lastTimingSignedDiff: real)

  /** The state every frame and click keeps: the charge in [0, 1], no time
      left without a surge, and the combo at 0 or within the cap. */
  predicate ValidState(st: PulseState, s: Settings)
  {
    && 0.0 <= st.charge <= 1.0
    && (!st.surgeActive ==> st.surgeRemaining == 0.0)
    && (st.combo == 0 || st.combo <= s.comboDisplayCap)
    && (s.comboDisplayCap >= 0 ==> st.combo >= 0)
  }

  /** How good a hit is, for comparing qualities: Perfect 2, Good 1, else 0. */
  function Rank(h: HitQuality): nat
  {
    match h
    case Perfect => 2
    case Good => 1
    case _ => 0
  }

  /** The judgement of a click `diff` seconds away from the ideal interval:
      always Good with flow off; otherwise Perfect within the perfect window,
      Good within the good window, Miss beyond both. */
  function Classify(s: Settings, diff: real): (h: HitQuality)
    ensures h != None
    ensures !s.flowEnabled ==> h == Good
    ensures s.flowEnabled ==> (h == Perfect <==> diff <= s.perfectWindow)
    ensures s.flowEnabled ==> (h == Miss <==> diff > s.perfectWindow && diff > s.goodWindow)
  {
    if !s.flowEnabled then Good
    else if diff <= s.perfectWindow then Perfect
    else if diff <= s.goodWindow then Good
    else Miss
  }

  /** A click closer to the ideal interval is never judged worse. */
  lemma ClassifyMonotone(s: Settings, d1: real, d2: real)
    requires d1 <= d2
    ensures Rank(Classify(s, d1)) >= Rank(Classify(s, d2))
  {
  }

  /** The combo after a hit: +2 for Perfect, +1 for Good, back to 0 on a Miss
      when so configured, then capped. */
  function ComboAfter(s: Settings, combo: int, hit: HitQuality): (c: int)
    ensures c <= s.comboDisplayCap
    ensures hit == Perfect && combo + 2 <= s.comboDisplayCap ==> c == combo + 2
    ensures hit == Good && combo + 1 <= s.comboDisplayCap ==> c == combo + 1
    ensures hit == Miss && s.resetComboOnMiss ==> c == if 0 <= s.comboDisplayCap then 0 else s.comboDisplayCap
    ensures hit == Miss && !s.resetComboOnMiss ==> c == if combo <= s.comboDisplayCap then combo else s.comboDisplayCap
  {
    var raised :=
      if hit == Perfect then combo + 2
      else if hit == Good then combo + 1
      else if hit == Miss && s.resetComboOnMiss then 0
      else combo;
    if raised > s.comboDisplayCap then s.comboDisplayCap else raised
  }

  function QualityMultiplier(hit: HitQuality): real
  {
    match hit
    case Perfect => 1.25
    case Good => 1.0
    case Miss => 0.25
    case None => 1.0
  }

  /** The charge a click adds: the base, scaled by the quality and by the combo bonus. */
  function ChargeGained(s: Settings, hit: HitQuality, combo: int): real
  {
    s.baseChargePerClick * QualityMultiplier(hit) * (1.0 + (combo as real) * s.chargeBonusPerCombo)
  }

  /** With a non-negative base, combo bonus and combo, a click never removes charge. */
  lemma ChargeGainedNonNegative(s: Settings, hit: HitQuality, combo: int)
    requires s.baseChargePerClick >= 0.0 && s.chargeBonusPerCombo >= 0.0 && combo >= 0
    ensures ChargeGained(s, hit, combo) >= 0.0
  {
    var comboChargeBonus := 1.0 + (combo as real) * s.chargeBonusPerCombo;
    N.MulMonotone(0.0, 0.0, combo as real, s.chargeBonusPerCombo);
    N.MulMonotone(0.0, 0.0, s.baseChargePerClick, QualityMultiplier(hit));
    N.MulMonotone(0.0, 0.0, s.baseChargePerClick * QualityMultiplier(hit), comboChargeBonus);
  }

  /** The surge condition checked after a click. */
  predicate SurgeDue(s: Settings, surgeActive: bool, charge: real, combo: int)
  {
    !surgeActive && charge >= 1.0 && combo >= s.minComboForSurge
  }

  /** `TriggerSurge`: the surge runs for its full duration and the charge
      falls back to the configured level, clamped to [0, 1]. */
  function StartSurge(s: Settings, st: PulseState): (r: PulseState)
    ensures r.surgeActive && 0.0 <= r.charge <= 1.0
  {
    st.(surgeActive := true, surgeRemaining := s.surgeDuration, charge := N.Clamp01(s.chargeAfterSurge))
  }

  /** `RegisterClick` at time `now`: judge the timing, update the combo and
      the charge, and start a surge when one is due. */
  function Click(s: Settings, st: PulseState, now: real): PulseState
  {
    var clicked := Clicked(s, st, now);
    if SurgeDue(s, clicked.surgeActive, clicked.charge, clicked.combo) then StartSurge(s, clicked) else clicked
  }

  /** A click before the surge check: the timing judged, the combo advanced
      and the charge added. */
  function Clicked(s: Settings, st: PulseState, now: real): PulseState
  {
    var signedDiff := (now - st.lastClickTime) - s.idealInterval;
    var diff := N.Abs(signedDiff);
    var hit := Classify(s, diff);
    var combo := ComboAfter(s, st.combo, hit);
    var charge := N.Clamp01(st.charge + ChargeGained(s, hit, combo));
    st.(lastClickTime := now, lastTimingDiff := diff, lastTimingSignedDiff := signedDiff,
        lastHit := hit, combo := combo, charge := charge)
  }

  /** One frame of `dt` seconds: a positive charge decays (clamped to [0, 1])
      and a running surge counts down, ending with no time left once its time is up. */
  function Tick(s: Settings, st: PulseState, dt: real): PulseState
  {
    var charge := if st.charge > 0.0 then N.Clamp01(st.charge - s.decayPerSecond * dt) else st.charge;
    var remaining := st.surgeRemaining - dt;
    if !st.surgeActive then st.(charge := charge)
    else if remaining <= 0.0 then st.(charge := charge, surgeActive := false, surgeRemaining := 0.0)
    else st.(charge := charge, surgeRemaining := remaining)
  }

  /** Every click keeps the state valid, and leaves the combo within the cap. */
  lemma ClickPreservesValid(s: Settings, st: PulseState, now: real)
    requires ValidState(st, s)
    ensures ValidState(Click(s, st, now), s)
    ensures Click(s, st, now).combo <= s.comboDisplayCap
  {
  }

  /** Every frame keeps the state valid. */
  lemma TickPreservesValid(s: Settings, st: PulseState, dt: real)
    requires ValidState(st, s)
    ensures ValidState(Tick(s, st, dt), s)
  {
  }

  /** A frame counts a running surge down by `dt`; once nothing is left the
      surge is over and its time is 0. Without a surge, the surge fields stay. */
  lemma TickSurgeCountdown(s: Settings, st: PulseState, dt: real)
    ensures var r := Tick(s, st, dt);
      && (st.surgeActive && st.surgeRemaining - dt > 0.0 ==> r.surgeActive && r.surgeRemaining == st.surgeRemaining - dt)
      && (st.surgeActive && st.surgeRemaining - dt <= 0.0 ==> !r.surgeActive && r.surgeRemaining == 0.0)
      && (!st.surgeActive ==> !r.surgeActive && r.surgeRemaining == st.surgeRemaining)
  {
  }

  /** With a non-negative decay and frame time, a frame never raises the charge. */
  lemma TickNeverRaisesCharge(s: Settings, st: PulseState, dt: real)
    requires ValidState(st, s) && s.decayPerSecond >= 0.0 && dt >= 0.0
    ensures Tick(s, st, dt).charge <= st.charge
  {
    N.MulMonotone(0.0, 0.0, s.decayPerSecond, dt);
  }

  /** A surge starts on a click exactly when none is running, the charge
      after the click is full and the combo has reached the threshold; a
      running surge is neither restarted nor shortened by a click. */
  lemma ClickStartsSurgeIff(s: Settings, st: PulseState, now: real)
    ensures var r := Click(s, st, now);
      var hit := Classify(s, N.Abs((now - st.lastClickTime) - s.idealInterval));
      var combo := ComboAfter(s, st.combo, hit);
      var charge := N.Clamp01(st.charge + ChargeGained(s, hit, combo));
      && (!st.surgeActive ==> (r.surgeActive <==> charge >= 1.0 && combo >= s.minComboForSurge))
      && (r.surgeActive && !st.surgeActive ==> r.surgeRemaining == s.surgeDuration && r.charge == N.Clamp01(s.chargeAfterSurge))
      && (st.surgeActive ==> r.surgeActive && r.surgeRemaining == st.surgeRemaining)
  {
  }

  /** The production multiplier: the charge interpolates between 1 and the
      maximum, times the combo bonus, times the surge multiplier while a surge runs. */
  function ProductionMultiplier(s: Settings, st: PulseState): real
  {
    var baseMult := N.Lerp(1.0, s.maxProductionMultiplier, st.charge);
    var comboMult := 1.0 + (st.combo as real) * s.productionBonusPerCombo;
    var surgeMult := if st.surgeActive then s.surgeMultiplier else 1.0;
    baseMult * comboMult * surgeMult
  }

  /** The multiplier is at least 1 when the maximum and the surge multiplier
      are at least 1 and the combo bonus is non-negative. */
  lemma ProductionMultiplierAtLeastOne(s: Settings, st: PulseState)
    requires s.maxProductionMultiplier >= 1.0 && s.productionBonusPerCombo >= 0.0 && s.surgeMultiplier >= 1.0
    requires st.combo >= 0
    ensures ProductionMultiplier(s, st) >= 1.0
  {
    var baseMult := N.Lerp(1.0, s.maxProductionMultiplier, st.charge);
    var comboMult := 1.0 + (st.combo as real) * s.productionBonusPerCombo;
    var surgeMult := if st.surgeActive then s.surgeMultiplier else 1.0;
    N.LerpBounds(1.0, s.maxProductionMultiplier, st.charge);
    N.MulMonotone(0.0, 0.0, st.combo as real, s.productionBonusPerCombo);
    N.MulMonotone(1.0, 1.0, baseMult, comboMult);
    N.MulMonotone(1.0, 1.0, baseMult * comboMult, surgeMult);
  }

  class PulsationManager {
    const settings: Settings
    var charge01: real
    var lastClickTime: real
    var combo: int
    var surgeActive: bool
    var surgeRemaining: real
    var lastHit: HitQuality
    var lastTimingDiff: real
    var lastTimingSignedDiff: real

    /** The initial runtime fields: no charge, no combo, no surge, and a last
        click far in the past. */
    constructor (s: Settings)
      ensures settings == s && State() == PulseState(0.0, -999.0, 0, false, 0.0, None, 0.0, 0.0)
      ensures Valid()
    {
      settings := s;
      charge01 := 0.0;
      lastClickTime := -999.0;
      combo := 0;
      surgeActive := false;
      surgeRemaining := 0.0;
      lastHit := None;
      lastTimingDiff := 0.0;
      lastTimingSignedDiff := 0.0;
    }

    function State(): PulseState
      reads this
    {
      PulseState(charge01, lastClickTime, combo, surgeActive, surgeRemaining, lastHit, lastTimingDiff, lastTimingSignedDiff)
    }

    predicate Valid()
      reads this
    {
      ValidState(State(), settings)
    }

    /** One frame: decay the charge, count the surge down. */
    method Update(unscaledDeltaTime: real)
      modifies this
      ensures State() == Tick(settings, old(State()), unscaledDeltaTime)
      ensures old(Valid()) ==> Valid()
    {
      if charge01 > 0.0 {
        charge01 := charge01 - settings.decayPerSecond * unscaledDeltaTime;
        charge01 := N.Clamp01(charge01);
      }
      if surgeActive {
        surgeRemaining := surgeRemaining - unscaledDeltaTime;
        if surgeRemaining <= 0.0 {
          surgeActive := false;
          surgeRemaining := 0.0;
        }
      }
      if old(Valid()) {
        TickPreservesValid(settings, old(State()), unscaledDeltaTime);
      }
    }

    /** A click at time `now`: judge it, advance the combo, add the charge,
        and start a surge when one is due. */
    method RegisterClick(now: real)
      modifies this
      ensures State() == Click(settings, old(State()), now)
      ensures old(Valid()) ==> Valid() && combo <= settings.comboDisplayCap
    {
      ApplyClick(now);
      if !surgeActive && charge01 >= 1.0 && combo >= settings.minComboForSurge {
        TriggerSurge();
      }
      if old(Valid()) {
        ClickPreservesValid(settings, old(State()), now);
      }
    }

    /** A click up to the surge check. */
    method ApplyClick(now: real)
      modifies this`lastClickTime, this`lastTimingDiff, this`lastTimingSignedDiff, this`lastHit, this`combo, this`charge01
      ensures State() == Clicked(settings, old(State()), now)
    {
      var hit := JudgeTiming(now);
      AdvanceCombo(hit);
      AddCharge(hit);
    }

    /** The timing half of a click: record the click time and the distance
        to the ideal interval, and judge it. */
    method JudgeTiming(now: real) returns (hit: HitQuality)
      modifies this`lastClickTime, this`lastTimingDiff, this`lastTimingSignedDiff, this`lastHit
      ensures lastTimingSignedDiff == (now - old(lastClickTime)) - settings.idealInterval
      ensures lastTimingDiff == N.Abs(lastTimingSignedDiff)
      ensures hit == lastHit == Classify(settings, lastTimingDiff)
      ensures lastClickTime == now
    {
      var dt := now - lastClickTime;
      lastClickTime := now;
      var signedDiff := dt - settings.idealInterval;
      var diff := N.Abs(signedDiff);
      lastTimingDiff := diff;
      lastTimingSignedDiff := signedDiff;

      if !settings.flowEnabled {
        hit := Good;
      } else {
        if diff <= settings.perfectWindow {
          hit := Perfect;
        } else if diff <= settings.goodWindow {
          hit := Good;
        } else {
          hit := Miss;
        }
      }
      lastHit := hit;
    }

    /** The combo half of a click. */
    method AdvanceCombo(hit: HitQuality)
      modifies this`combo
      ensures combo == ComboAfter(settings, old(combo), hit)
    {
      if hit == Perfect {
        combo := combo + 2;
      } else if hit == Good {
        combo := combo + 1;
      } else if hit == Miss && settings.resetComboOnMiss {
        combo := 0;
      }
      if combo > settings.comboDisplayCap {
        combo := settings.comboDisplayCap;
      }
    }

    /** The charge half of a click, scaled by the quality and the new combo. */
    method AddCharge(hit: HitQuality)
      modifies this`charge01
      ensures charge01 == N.Clamp01(old(charge01) + ChargeGained(settings, hit, combo))
    {
      var qualityMult := 1.0;
      match hit {
        case Perfect => qualityMult := 1.25;
        case Good => qualityMult := 1.0;
        case Miss => qualityMult := 0.25;
        case None =>
      }
      var comboChargeBonus := 1.0 + (combo as real) * settings.chargeBonusPerCombo;
      assert qualityMult == QualityMultiplier(hit);
      var gained := settings.baseChargePerClick * qualityMult * comboChargeBonus;
      assert gained == ChargeGained(settings, hit, combo);
      charge01 := N.Clamp01(charge01 + gained);
    }

    method TriggerSurge()
      modifies this`surgeActive, this`surgeRemaining, this`charge01
      ensures State() == StartSurge(settings, old(State()))
    {
      surgeActive := true;
      surgeRemaining := settings.surgeDuration;
      charge01 := N.Clamp01(settings.chargeAfterSurge);
    }

    /** The production multiplier in the current state. */
    method GetProductionMultiplier() returns (m: real)
      ensures m == ProductionMultiplier(settings, State())
      ensures (settings.maxProductionMultiplier >= 1.0 && settings.productionBonusPerCombo >= 0.0
               && settings.surgeMultiplier >= 1.0 && combo >= 0) ==> m >= 1.0
    {
      var baseMult := N.Lerp(1.0, settings.maxProductionMultiplier, charge01);
      var comboMult := 1.0 + (combo as real) * settings.productionBonusPerCombo;
      var surgeMult := if surgeActive then settings.surgeMultiplier else 1.0;
      m := baseMult * comboMult * surgeMult;
      if settings.maxProductionMultiplier >= 1.0 && settings.productionBonusPerCombo >= 0.0
         && settings.surgeMultiplier >= 1.0 && combo >= 0 {
        ProductionMultiplierAtLeastOne(settings, State());
      }
    }
  }
}
