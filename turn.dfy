/**
 * Crisis resolution and the turn step, as functions from the state before
 * to the state after. The two random draws of the engine (which crisis,
 * and which institution fails) are parameters.
 */
module Turn {
  import opened Wrappers
  import opened Numeric
  import opened Tracks
  import opened Metrics
  import opened Rules

  datatype CrisisKind = PublicBacklash | TechnologicalAccident | InstitutionalFailure | ResourceShortage

  /** What a crisis did, with the number its message reports. */
  datatype CrisisEffect =
    | RateCut(newRate: int)                         // research points per turn afterwards
    | ComplexityRise(increase: int)                 // added to the complexity seed
    | Setback(institution: Institution, lost: int)  // levels taken from the institution
    | PointsLost(loss: int)                         // research points taken

  datatype CrisisEvent = CrisisEvent(effect: CrisisEffect, severity: real, adjustedSeverity: real)

  datatype CrisisResult = CrisisResult(state: State, event: CrisisEvent)

  /**
   * Severity after Biotechnology's crisis resistance. The resistance is not
   * clamped: above level 10 a positive severity turns negative.
   */
  function AdjustedSeverity(severity: real, bioLevel: nat): (r: real)
    ensures 0.0 <= severity && bioLevel <= 10 ==> 0.0 <= r <= severity
    ensures 0.0 < severity && bioLevel > 10 ==> r < 0.0
    ensures bioLevel == 0 ==> r == severity
  {
    var factor := 1.0 - (bioLevel as real) * CrisisResistance;
    assert bioLevel <= 10 ==> 0.0 <= factor <= 1.0;
    assert 0.0 <= severity && 0.0 <= factor <= 1.0 ==> severity * factor <= severity * 1.0 by {
      if 0.0 <= severity && 0.0 <= factor <= 1.0 {
        MulMonotone(factor, 1.0, severity);
      }
    }
    severity * factor
  }

  /** Public Backlash: the research rate is scaled down, but never below 10. */
  function BacklashRate(rate: int, adjusted: real): (r: int)
    ensures r >= MinimumRate
    ensures rate >= MinimumRate && adjusted >= 0.0 ==> r <= rate
  {
    var scaled := rate as real * (1.0 - adjusted / 2.0);
    assert rate >= 0 && adjusted >= 0.0 ==> scaled <= rate as real by {
      if rate >= 0 && adjusted >= 0.0 {
        MulMonotone(1.0 - adjusted / 2.0, 1.0, rate as real);
      }
    }
    Max(MinimumRate, Trunc(scaled))
  }

  /** Technological Accident: the increase of the complexity seed. */
  function AccidentIncrease(seed: real, adjusted: real): (r: int)
    ensures seed >= 0.0 && adjusted >= 0.0 ==> 0 <= r && r as real <= seed * adjusted
    ensures seed >= 0.0 && adjusted <= 0.0 ==> r <= 0
  {
    assert seed >= 0.0 ==> (adjusted >= 0.0 ==> seed * adjusted >= 0.0) && (adjusted <= 0.0 ==> seed * adjusted <= 0.0) by {
      if seed >= 0.0 {
        ScaleBounds(seed, adjusted);
      }
    }
    Trunc(seed * adjusted)
  }

  /** Institutional Failure: the number of levels the institution loses, at least one. */
  function FailureReduction(level: int, adjusted: real): (r: int)
    ensures r >= 1
    ensures level >= 0 && adjusted >= 0.0 ==> (r == 1 || r as real <= level as real * adjusted)
  {
    Max(1, Trunc(level as real * adjusted))
  }

  /** Institutional Failure: the new level, strictly lower unless already 1, and never below 1. */
  function FailureLevel(level: int, adjusted: real): (r: int)
    ensures r >= 1
    ensures level >= 1 ==> r <= level
    ensures level > 1 ==> r < level
  {
    Max(1, level - FailureReduction(level, adjusted))
  }

  /** Resource Shortage: the research points taken. */
  function ShortageLoss(points: int, adjusted: real): (r: int)
    ensures points >= 0 && 0.0 <= adjusted <= 1.0 ==> 0 <= r <= points
    ensures points >= 0 && adjusted <= 0.0 ==> r <= 0
  {
    var p := points as real;
    var x := p * adjusted;
    assert points >= 0 ==> (0.0 <= adjusted ==> 0.0 <= x) && (adjusted <= 1.0 ==> x <= p) && (adjusted <= 0.0 ==> x <= 0.0) by {
      if points >= 0 {
        ScaleBounds(p, adjusted);
      }
    }
    Trunc(x)
  }

  /** Resource Shortage: the points afterwards, clamped at 0. */
  function ShortagePoints(points: int, adjusted: real): (r: int)
    ensures r >= 0
    ensures points >= 0 && adjusted >= 0.0 ==> r <= points
    ensures points >= 0 && 0.0 <= adjusted <= 1.0 ==> r == points - ShortageLoss(points, adjusted)
    ensures points >= 0 && adjusted <= 0.0 ==> r >= points
  {
    Max(0, points - ShortageLoss(points, adjusted))
  }

  /** `trigger_crisis(severity)` with the drawn crisis `kind` and, for Institutional Failure, the drawn `victim`. */
  function ApplyCrisis(s: State, severity: real, kind: CrisisKind, victim: Institution): CrisisResult {
    var adjusted := AdjustedSeverity(severity, s.tech.Level(Biotechnology));
    match kind
    case PublicBacklash =>
      var rate := BacklashRate(s.rate, adjusted);
      CrisisResult(s.(rate := rate), CrisisEvent(RateCut(rate), severity, adjusted))
    case TechnologicalAccident =>
      var increase := AccidentIncrease(s.seed, adjusted);
      CrisisResult(s.(seed := s.seed + increase as real), CrisisEvent(ComplexityRise(increase), severity, adjusted))
    case InstitutionalFailure =>
      var level := s.inst.Level(victim);
      var reduction := FailureReduction(level, adjusted);
      CrisisResult(s.(inst := s.inst.With(victim, FailureLevel(level, adjusted))),
                   CrisisEvent(Setback(victim, reduction), severity, adjusted))
    case ResourceShortage =>
      var loss := ShortageLoss(s.points, adjusted);
      CrisisResult(s.(points := ShortagePoints(s.points, adjusted)), CrisisEvent(PointsLost(loss), severity, adjusted))
  }

  /**
   * A crisis keeps the state valid, touches no technology and not the turn,
   * changes only the part of the state its kind names, and never raises capacity.
   */
  lemma ApplyCrisisEffects(s: State, severity: real, kind: CrisisKind, victim: Institution)
    requires ValidState(s)
    ensures var r := ApplyCrisis(s, severity, kind, victim).state;
      && ValidState(r)
      && r.tech == s.tech && r.turn == s.turn
      && (kind != PublicBacklash ==> r.rate == s.rate)
      && (kind != TechnologicalAccident ==> r.seed == s.seed)
      && (kind != InstitutionalFailure ==> r.inst == s.inst)
      && (kind != ResourceShortage ==> r.points == s.points)
      && (forall i :: r.inst.Level(i) <= s.inst.Level(i))
      && Capacity(r) <= Capacity(s)
  {
    var r := ApplyCrisis(s, severity, kind, victim).state;
    if kind == InstitutionalFailure {
      var level := s.inst.Level(victim);
      assert r.inst.Level(victim) == FailureLevel(level, AdjustedSeverity(severity, s.tech.Level(Biotechnology)));
      assert forall i :: r.inst.Level(i) <= s.inst.Level(i);
      CapacityMonotone(r.inst, s.inst, s.tech.Level(InformationSystems), s.tech.Level(InformationSystems));
    }
  }

  /**
   * The crisis resistance is not clamped: above Biotechnology level 10 the
   * adjusted severity is negative, so with Biotechnology at level 11 a
   * Resource Shortage of severity 1 hands out 10 points instead of taking any.
   */
  lemma UnclampedResistanceExample()
    ensures var s := InitialState.(tech := InitialTechLevels.With(Biotechnology, 11));
      var c := ApplyCrisis(s, 1.0, ResourceShortage, EducationSystem);
      c.event.adjustedSeverity < 0.0 && c.event.effect == PointsLost(-10) && c.state.points == 110
  {
    var s := InitialState.(tech := InitialTechLevels.With(Biotechnology, 11));
    assert AdjustedSeverity(1.0, 11) == -0.1;
    assert ShortageLoss(100, -0.1) == Trunc(-10.0) == -10;
  }

  /**
   * Above Clean Energy level 20 one quiet turn makes a positive seed
   * negative, and a Technological Accident then truncates a negative
   * product: the increase is 0 where rounding down would give -1.
   */
  lemma NegativeSeedAccident()
    ensures var lv := TechLevels(0, 0, 21, 0);
      var seed := 10.0 * (GrowthRate * GrowthModifier(lv));
      seed < 0.0 && AccidentIncrease(seed, 0.5) == 0 && (seed * 0.5).Floor == -1
  {
    var lv := TechLevels(0, 0, 21, 0);
    assert GrowthModifier(lv) == 1.21 * (1.0 - 21.0 * 0.05);
    var seed := 10.0 * (GrowthRate * GrowthModifier(lv));
    assert seed * 0.5 == -0.3267;
  }

  // ---------------------------------------------------------------------------
  // The turn step
  // ---------------------------------------------------------------------------

  /** Summary returned by `next_turn`; the two percentages are unformatted. */
  datatype TurnSummary = TurnSummary(
    turn: nat,
    points: int,
    complexity: real,
    capacity: real,
    balance: real,
    growthPercent: real,
    researchBonusPercent: real,
    crisis: Option<CrisisEvent>)

  datatype Step = Step(state: State, summary: TurnSummary)

  /** A crisis fires when complexity exceeds capacity by more than the 20% threshold. */
  predicate CrisisFires(cx: real, cap: real) {
    cx > cap * (1.0 + CrisisThreshold)
  }

  function Severity(cx: real, cap: real): (r: real)
    requires cap > 0.0
    ensures CrisisFires(cx, cap) ==> r > CrisisThreshold
    ensures r * cap == cx - cap
  {
    var r := (cx - cap) / cap;
    assert r * cap == cx - cap;
    assert CrisisFires(cx, cap) ==> r > CrisisThreshold by {
      if CrisisFires(cx, cap) && r <= CrisisThreshold {
        MulMonotone(r, CrisisThreshold, cap);
      }
    }
    r
  }

  function ResearchMultiplier(aiLevel: nat): (r: real)
    ensures r >= 1.0
  {
    1.0 + (aiLevel as real) * ResearchBonus
  }

  /** Research points awarded at the end of a turn: never less than the base rate. */
  function Award(rate: int, aiLevel: nat): (r: int)
    ensures rate >= 0 ==> r >= rate
    ensures aiLevel == 0 ==> r == rate
  {
    var m := ResearchMultiplier(aiLevel);
    assert rate >= 0 ==> rate as real * m >= rate as real by {
      if rate >= 0 {
        MulMonotone(1.0, m, rate as real);
      }
    }
    Trunc(rate as real * m)
  }

  /** The state after the crisis check of a turn, and the crisis that fired, if any. */
  datatype Phase = Phase(state: State, crisis: Option<CrisisEvent>)

  /** The crisis check of `next_turn`, on the snapshot totals `cx` and `cap`. */
  function CrisisPhase(s: State, cx: real, cap: real, kind: CrisisKind, victim: Institution): Phase
    requires cap > 0.0
  {
    if CrisisFires(cx, cap) then
      var c := ApplyCrisis(s, Severity(cx, cap), kind, victim);
      Phase(c.state, Some(c.event))
    else Phase(s, None)
  }

  /** The end of `next_turn`: award research points, then grow the seed by 1.08 times `modifier`. */
  function GrowthPhase(s: State, modifier: real): State {
    s.(points := s.points + Award(s.rate, s.tech.Level(AiAutomation)),
       seed := s.seed * (GrowthRate * modifier))
  }

  /**
   * `next_turn()` after the turn counter has been incremented, given the
   * snapshot totals `cx` and `cap` taken at that point.
   */
  function StepFrom(s: State, cx: real, cap: real, kind: CrisisKind, victim: Institution): Step
    requires cap > 0.0
  {
    var modifier := GrowthModifier(s.tech);
    var p := CrisisPhase(s, cx, cap, kind, victim);
    var after := GrowthPhase(p.state, modifier);
    var multiplier := ResearchMultiplier(p.state.tech.Level(AiAutomation));
    Step(after, TurnSummary(after.turn, after.points, cx, cap, cap - cx,
                            (GrowthRate * modifier - 1.0) * 100.0, (multiplier - 1.0) * 100.0, p.crisis))
  }

  /** `next_turn()` with the crisis draws `kind` and `victim` (used only if a crisis fires). */
  function TurnStep(s: State, kind: CrisisKind, victim: Institution): Step
    requires ValidState(s)
  {
    var s1 := s.(turn := s.turn + 1);
    CapacityLowerBound(s1.inst, s1.tech.Level(InformationSystems));
    StepFrom(s1, Complexity(s1), Capacity(s1), kind, victim)
  }

  /**
   * `TurnStep` is `StepFrom` on the incremented state and its two totals.
   * A verification-cost helper: it unfolds `TurnStep` once, so that the
   * engine's `NextTurn` can reason about the two halves of the turn apart.
   */
  lemma TurnStepFrom(s: State, cx: real, cap: real, kind: CrisisKind, victim: Institution)
    requires ValidState(s)
    requires cx == Complexity(s.(turn := s.turn + 1)) && cap == Capacity(s.(turn := s.turn + 1))
    ensures cap >= 6.4
    ensures TurnStep(s, kind, victim) == StepFrom(s.(turn := s.turn + 1), cx, cap, kind, victim)
  {
    CapacityLowerBound(s.inst, s.tech.Level(InformationSystems));
  }

  /**
   * `StepFrom` assembled from its phases: the crisis check (`s2`, `crisis`),
   * the award and growth (`s3`), and the summary built from them.
   * A verification-cost helper: it unfolds `StepFrom` once, so that the
   * engine's `FinishTurn` can reason about each phase apart.
   */
  lemma StepFromPhases(s1: State, cx: real, cap: real, kind: CrisisKind, victim: Institution,
                       s2: State, crisis: Option<CrisisEvent>, s3: State, summary: TurnSummary)
    requires cap > 0.0 && Phase(s2, crisis) == CrisisPhase(s1, cx, cap, kind, victim)
    requires s3 == GrowthPhase(s2, GrowthModifier(s1.tech))
    requires summary == TurnSummary(s3.turn, s3.points, cx, cap, cap - cx,
                                    (GrowthRate * GrowthModifier(s1.tech) - 1.0) * 100.0,
                                    (ResearchMultiplier(s2.tech.Level(AiAutomation)) - 1.0) * 100.0, crisis)
    ensures StepFrom(s1, cx, cap, kind, victim) == Step(s3, summary)
  {
  }

  /** The crisis check keeps the state valid, leaves turn and technologies alone, and fires exactly above the threshold. */
  lemma CrisisPhaseEffects(s: State, cx: real, cap: real, kind: CrisisKind, victim: Institution)
    requires ValidState(s) && cap > 0.0
    ensures var p := CrisisPhase(s, cx, cap, kind, victim);
      && ValidState(p.state)
      && p.state.turn == s.turn && p.state.tech == s.tech
      && (p.crisis.Some? <==> CrisisFires(cx, cap))
      && (p.crisis.None? ==> p.state == s)
      && (p.crisis.Some? ==>
            && p.crisis.value.severity == Severity(cx, cap)
            && p.crisis.value.severity > CrisisThreshold
            && p.state == ApplyCrisis(s, p.crisis.value.severity, kind, victim).state)
  {
    if CrisisFires(cx, cap) {
      ApplyCrisisEffects(s, Severity(cx, cap), kind, victim);
    }
  }

  /**
   * The rest of a turn keeps the state valid, keeps the turn and every
   * technology level, and ends with at least the research rate (so at least
   * 10) in the pool; the summary reports the snapshot totals and the crisis,
   * which fires exactly above the threshold.
   */
  lemma StepFromEffects(s: State, cx: real, cap: real, kind: CrisisKind, victim: Institution)
    requires ValidState(s) && cap > 0.0
    ensures var r := StepFrom(s, cx, cap, kind, victim);
      && ValidState(r.state)
      && r.state.turn == s.turn && r.state.tech == s.tech
      && r.state.points >= MinimumRate
      && r.summary.turn == r.state.turn && r.summary.points == r.state.points
      && r.summary.complexity == cx && r.summary.capacity == cap && r.summary.balance == cap - cx
      && (r.summary.crisis.Some? <==> CrisisFires(cx, cap))
      && (r.summary.crisis.Some? ==>
            r.summary.crisis.value.severity == Severity(cx, cap) && r.summary.crisis.value.severity > CrisisThreshold)
  {
    CrisisPhaseEffects(s, cx, cap, kind, victim);
  }

  /**
   * The seed is multiplied by 1.08 times the growth modifier of the technology
   * levels (no crisis changes them); before that, a Technological Accident has
   * added its increase.
   */
  lemma StepFromGrowth(s: State, cx: real, cap: real, kind: CrisisKind, victim: Institution)
    requires ValidState(s) && cap > 0.0
    ensures var r := StepFrom(s, cx, cap, kind, victim);
      var growth := GrowthRate * GrowthModifier(s.tech);
      var accident := r.summary.crisis.Some? && kind == TechnologicalAccident;
      && (accident ==>
            r.state.seed == (s.seed + AccidentIncrease(s.seed, r.summary.crisis.value.adjustedSeverity) as real) * growth)
      && (!accident ==> r.state.seed == s.seed * growth)
  {
    var m := GrowthModifier(s.tech);
    var r := StepFrom(s, cx, cap, kind, victim);
    if CrisisFires(cx, cap) {
      var c := ApplyCrisis(s, Severity(cx, cap), kind, victim);
      assert r.state == GrowthPhase(c.state, m) && r.summary.crisis == Some(c.event);
      if kind == TechnologicalAccident {
        assert c.state.seed == s.seed + AccidentIncrease(s.seed, c.event.adjustedSeverity) as real;
      } else {
        ApplyCrisisEffects(s, Severity(cx, cap), kind, victim);
      }
    } else {
      assert r.state == GrowthPhase(s, m) && r.summary.crisis == None;
    }
  }

  /** The two snapshot totals do not depend on the turn counter. */
  lemma SnapshotIgnoresTurn(s: State)
    ensures Complexity(s.(turn := s.turn + 1)) == Complexity(s)
    ensures Capacity(s.(turn := s.turn + 1)) == Capacity(s)
  {
  }

  /**
   * A turn keeps the state valid, advances the turn by exactly one, leaves
   * every technology level as it was, and ends with at least 10 points in the
   * pool. Its summary reports complexity and capacity as they stood before
   * this turn's growth, and a crisis fires exactly when complexity exceeds 1.2
   * times capacity, with severity (complexity - capacity) / capacity above 0.2.
   */
  lemma TurnStepEffects(s: State, kind: CrisisKind, victim: Institution)
    requires ValidState(s)
    ensures var r := TurnStep(s, kind, victim);
      && ValidState(r.state)
      && r.state.turn == s.turn + 1
      && r.state.tech == s.tech
      && r.state.points >= MinimumRate
      && r.summary.turn == r.state.turn && r.summary.points == r.state.points
      && r.summary.complexity == Complexity(s) && r.summary.capacity == Capacity(s)
      && Capacity(s) >= 6.4
      && (r.summary.crisis.Some? <==> CrisisFires(Complexity(s), Capacity(s)))
      && (r.summary.crisis.Some? ==>
            && r.summary.crisis.value.severity == Severity(Complexity(s), Capacity(s))
            && r.summary.crisis.value.severity > CrisisThreshold)
  {
    var s1 := s.(turn := s.turn + 1);
    SnapshotIgnoresTurn(s);
    var cx, cap := Complexity(s1), Capacity(s1);
    TurnStepFrom(s, cx, cap, kind, victim);
    StepFromEffects(s1, cx, cap, kind, victim);
  }

  /**
   * A quiet turn (no crisis) changes exactly three things: the turn, the pool
   * (by the award) and the seed (by the growth factor 1.08 times the modifier).
   */
  lemma QuietTurn(s: State, kind: CrisisKind, victim: Institution)
    requires ValidState(s)
    requires !CrisisFires(Complexity(s), Capacity(s))
    ensures TurnStep(s, kind, victim).state ==
      s.(turn := s.turn + 1,
         points := s.points + Award(s.rate, s.tech.Level(AiAutomation)),
         seed := s.seed * (GrowthRate * GrowthModifier(s.tech)))
  {
    var s1 := s.(turn := s.turn + 1);
    SnapshotIgnoresTurn(s);
    CapacityLowerBound(s1.inst, s1.tech.Level(InformationSystems));
    var cx, cap := Complexity(s1), Capacity(s1);
    assert TurnStep(s, kind, victim) == StepFrom(s1, cx, cap, kind, victim);
    QuietStep(s, cx, cap, kind, victim);
  }

  /** `QuietTurn` on the snapshot totals `cx` and `cap`. */
  lemma QuietStep(s: State, cx: real, cap: real, kind: CrisisKind, victim: Institution)
    requires ValidState(s) && cap > 0.0 && !CrisisFires(cx, cap)
    ensures StepFrom(s.(turn := s.turn + 1), cx, cap, kind, victim).state ==
      s.(turn := s.turn + 1,
         points := s.points + Award(s.rate, s.tech.Level(AiAutomation)),
         seed := s.seed * (GrowthRate * GrowthModifier(s.tech)))
  {
    var s1 := s.(turn := s.turn + 1);
    assert CrisisPhase(s1, cx, cap, kind, victim) == Phase(s1, None);
  }

  /**
   * A fresh game starts out of balance: complexity 10 against capacity 6.4
   * exceeds the 1.2 ratio, so the first turn always brings a crisis, of
   * severity 0.5625.
   */
  lemma OpeningCrisis()
    ensures Complexity(InitialState) == 10.0 && Capacity(InitialState) == 6.4
    ensures CrisisFires(Complexity(InitialState), Capacity(InitialState))
    ensures Severity(Complexity(InitialState), Capacity(InitialState)) == 0.5625
  {
    BreakdownProperties(InitialSeed, InitialTechLevels);
    InitialInstitutionStrength();
  }

  /**
   * Whatever draws come up, the first turn of a fresh game reports complexity
   * 10 against capacity 6.4 and so brings a crisis, of severity 0.5625.
   */
  lemma FirstTurnCrisis(kind: CrisisKind, victim: Institution)
    ensures var r := TurnStep(InitialState, kind, victim).summary;
      && r.complexity == 10.0 && r.capacity == 6.4
      && r.crisis.Some? && r.crisis.value.severity == 0.5625
  {
    OpeningCrisis();
    TurnStepEffects(InitialState, kind, victim);
  }
}
