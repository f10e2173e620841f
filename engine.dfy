/**
 * The simulation engine as an object: the fields of `TechProgressGame`,
 * updated in place by its methods, each proved to perform the step that
 * the functions of modules Rules and Turn describe.
 */
module Engine {
  import opened Wrappers
  import opened Numeric
  import opened Tracks
  import opened Metrics
  import opened Rules
  import opened Turn

  class Game {
    var turn: nat
    var researchPoints: int
    var complexity: real                // the base complexity seed
    var researchPointsPerTurn: int
    var technologies: TechLevels
    var institutions: InstLevels
    var complexityComponents: Breakdown // overwritten by every complexity computation

    // The history record: five parallel lists, one entry per turn boundary.
    var turnHistory: seq<int>
    var complexityHistory: seq<real>
    var capacityHistory: seq<real>
    var pointsHistory: seq<int>
    var crisisHistory: seq<Option<CrisisEvent>>

    /** The engine's state as a value. */
    function Snapshot(): State
      reads this`turn, this`researchPoints, this`complexity, this`researchPointsPerTurn,
            this`technologies, this`institutions
    {
      State(turn, researchPoints, complexity, researchPointsPerTurn, technologies, institutions)
    }

    /** The state invariant, and a history with one entry per turn boundary so far. */
    ghost predicate Valid()
      reads this
    {
      ValidState(Snapshot()) && HistoryUpTo(turn + 1)
    }

    /**
     * Each history list holds exactly `n` entries; the turns recorded are
     * 0, 1, ..., n - 1, every recorded capacity is at least 6.4, every
     * recorded pool is non-negative, and turn 0 records no crisis.
     */
    ghost predicate HistoryUpTo(n: nat)
      reads this`turnHistory, this`complexityHistory, this`capacityHistory, this`pointsHistory, this`crisisHistory
    {
      && |turnHistory| == n
      && |complexityHistory| == n
      && |capacityHistory| == n
      && |pointsHistory| == n
      && |crisisHistory| == n
      && (forall k :: 0 <= k < |turnHistory| ==> turnHistory[k] == k)
      && (forall k :: 0 <= k < |capacityHistory| ==> capacityHistory[k] >= 6.4)
      && (forall k :: 0 <= k < |pointsHistory| ==> pointsHistory[k] >= 0)
      && (n > 0 ==> crisisHistory[0] == None)
    }

    constructor ()
      ensures Valid()
      ensures Snapshot() == InitialState
      ensures complexityComponents == BreakdownOf(InitialSeed, InitialTechLevels)
      ensures turnHistory == [0] && crisisHistory == [None] && pointsHistory == [InitialPoints]
      ensures complexityHistory == [Complexity(InitialState)] && capacityHistory == [Capacity(InitialState)]
    {
      turn := 0;
      researchPoints := InitialPoints;
      complexity := InitialSeed;
      technologies := InitialTechLevels;
      institutions := InitialInstLevels;
      researchPointsPerTurn := InitialRate;
      complexityComponents := Breakdown(0.0, 0.0, 0.0, 0.0);
      turnHistory, complexityHistory, capacityHistory, pointsHistory, crisisHistory := [], [], [], [], [];
      new;
      assert Snapshot() == InitialState;
      assert ValidState(Snapshot()) by {
        assert forall i :: InitialInstLevels.Level(i) == 1;
      }
      RecordOpening();
    }

    /** The history of a fresh game: one entry for turn 0, with no crisis. */
    method RecordOpening()
      requires ValidState(Snapshot()) && turn == 0 && HistoryUpTo(0)
      modifies this`complexityComponents, this`turnHistory, this`complexityHistory, this`capacityHistory,
               this`pointsHistory, this`crisisHistory
      ensures complexityComponents == BreakdownOf(complexity, technologies)
      ensures turnHistory == [0] && crisisHistory == [None] && pointsHistory == [researchPoints]
      ensures complexityHistory == [Complexity(Snapshot())] && capacityHistory == [Capacity(Snapshot())]
      ensures HistoryUpTo(1)
    {
      var cx := ComputeComplexity();
      var cap := ComputeCapacity();
      RecordHistory(cx, cap, None);
    }

    /** `calculate_total_social_capacity`: capacity of the current state, at least its initial 6.4 in a valid state. */
    method ComputeCapacity() returns (capacity: real)
      ensures capacity == Capacity(Snapshot())
      ensures ValidState(Snapshot()) ==> capacity >= 6.4
    {
      var total := 0.0;
      for k := 0 to |Institutions|
        invariant total == InstitutionSum(Institutions[..k], institutions)
      {
        var i := Institutions[k];
        assert Institutions[..k + 1][..k] == Institutions[..k];
        total := total + (institutions.Level(i) as real) * CapacityFactor(i);
      }
      assert Institutions[..|Institutions|] == Institutions;
      InstitutionSumTable(institutions);
      var infoLevel := technologies.Level(InformationSystems);
      var capacityMultiplier := 1.0 + (infoLevel as real) * CapacityBonus;
      capacity := total * capacityMultiplier;
      if ValidState(Snapshot()) {
        CapacityLowerBound(institutions, infoLevel);
      }
    }

    /** `calculate_total_complexity`: returns the total and records its breakdown. */
    method ComputeComplexity() returns (total: real)
      modifies this`complexityComponents
      ensures complexityComponents == BreakdownOf(complexity, technologies)
      ensures total == complexityComponents.total && total == Complexity(Snapshot())
    {
      var baseComplexity := complexity;
      var techComplexity := ComputeDirect();
      var active := ComputeActive();
      ActiveTable(technologies);
      var techInteraction := 0.0;
      if |active| > 1 {
        var levelSum := ComputeLevelSum(active);
        techInteraction := InteractionOf(|active|, levelSum);
      }
      assert techInteraction == Interaction(technologies);
      total := baseComplexity + techComplexity + techInteraction;
      complexityComponents := Breakdown(baseComplexity, techComplexity, techInteraction, total);
    }

    /** The first loop of `calculate_total_complexity`: level times complexity factor, summed. */
    method ComputeDirect() returns (techComplexity: real)
      ensures techComplexity == DirectComplexity(technologies)
    {
      techComplexity := 0.0;
      for k := 0 to |Techs|
        invariant techComplexity == DirectSum(Techs[..k], technologies)
      {
        var t := Techs[k];
        assert Techs[..k + 1][..k] == Techs[..k];
        techComplexity := techComplexity + (technologies.Level(t) as real) * ComplexityFactor(t);
      }
      assert Techs[..|Techs|] == Techs;
      DirectSumTable(technologies);
    }

    /** The technologies with a level above 0, in dictionary order. */
    method ComputeActive() returns (active: seq<Tech>)
      ensures active == Active(Techs, technologies)
    {
      active := [];
      for k := 0 to |Techs|
        invariant active == Active(Techs[..k], technologies)
      {
        assert Techs[..k + 1][..k] == Techs[..k];
        if technologies.Level(Techs[k]) > 0 {
          active := active + [Techs[k]];
        }
      }
      assert Techs[..|Techs|] == Techs;
    }

    /** The sum of the levels of the technologies in `active`. */
    method ComputeLevelSum(active: seq<Tech>) returns (levelSum: nat)
      ensures levelSum == LevelSum(active, technologies)
    {
      levelSum := 0;
      for k := 0 to |active|
        invariant levelSum == LevelSum(active[..k], technologies)
      {
        assert active[..k + 1][..k] == active[..k];
        levelSum := levelSum + technologies.Level(active[k]);
      }
      assert active[..|active|] == active;
    }

    /** `invest_in_technology(name, amount)`. */
    method InvestInTechnology(name: string, amount: int) returns (outcome: TechOutcome)
      requires Valid()
      modifies this`technologies, this`researchPoints
      ensures Valid()
      ensures TechNamed(name).None? ==> outcome == UnknownTechnology
      ensures TechNamed(name).Some? ==>
        outcome == TechDecision(old(technologies).Level(TechNamed(name).value), amount, old(researchPoints))
      ensures outcome.Invested? ==>
        && technologies == old(technologies).With(TechNamed(name).value, outcome.newLevel)
        && researchPoints == old(researchPoints) - outcome.spent
      ensures !outcome.Invested? ==> technologies == old(technologies) && researchPoints == old(researchPoints)
      ensures forall t :: old(technologies).Level(t) <= technologies.Level(t)
    {
      var tech := TechNamed(name);
      if tech.None? {
        return UnknownTechnology;
      }
      if amount > researchPoints {
        return NotEnoughPoints;
      }
      var t := tech.value;
      var currentLevel := technologies.Level(t);
      var costPerLevel := 10 + currentLevel * 2;
      var levelsGained := amount / costPerLevel;
      if levelsGained < 1 {
        return BelowMinimum(costPerLevel);
      }
      FloorDivision(amount, costPerLevel);
      technologies := technologies.With(t, currentLevel + levelsGained);
      var actualCost := levelsGained * costPerLevel;
      researchPoints := researchPoints - actualCost;
      outcome := Invested(actualCost, technologies.Level(t), levelsGained);
    }

    /** `invest_in_institution(name)`. */
    method InvestInInstitution(name: string) returns (outcome: InstOutcome)
      requires Valid()
      modifies this`institutions, this`researchPoints
      ensures Valid()
      ensures InstitutionNamed(name).None? ==> outcome == UnknownInstitution
      ensures InstitutionNamed(name).Some? ==>
        var i := InstitutionNamed(name).value;
        outcome == InstitutionDecision(i, old(institutions).Level(i), old(researchPoints))
      ensures outcome.Upgraded? ==>
        && institutions == old(institutions).With(InstitutionNamed(name).value, outcome.newLevel)
        && researchPoints == old(researchPoints) - outcome.cost
      ensures !outcome.Upgraded? ==> institutions == old(institutions) && researchPoints == old(researchPoints)
    {
      var inst := InstitutionNamed(name);
      if inst.None? {
        return UnknownInstitution;
      }
      var i := inst.value;
      var cost := BaseCost(i) * institutions.Level(i);
      if cost > researchPoints {
        return Shortfall(cost, researchPoints);
      }
      institutions := institutions.With(i, institutions.Level(i) + 1);
      researchPoints := researchPoints - cost;
      outcome := Upgraded(institutions.Level(i), cost);
    }

    /** `trigger_crisis(severity)` with the drawn crisis `kind` and, for Institutional Failure, the drawn `victim`. */
    method TriggerCrisis(severity: real, kind: CrisisKind, victim: Institution) returns (event: CrisisEvent)
      modifies this`researchPointsPerTurn, this`complexity, this`institutions, this`researchPoints
      ensures Snapshot() == ApplyCrisis(old(Snapshot()), severity, kind, victim).state
      ensures event == ApplyCrisis(old(Snapshot()), severity, kind, victim).event
      ensures old(ValidState(Snapshot())) ==> ValidState(Snapshot())
    {
      ghost var s0 := Snapshot();
      if ValidState(s0) {
        ApplyCrisisEffects(s0, severity, kind, victim);
      }
      var adjustedSeverity := AdjustedSeverity(severity, technologies.Level(Biotechnology));
      match kind
      case PublicBacklash =>
        researchPointsPerTurn := BacklashRate(researchPointsPerTurn, adjustedSeverity);
        event := CrisisEvent(RateCut(researchPointsPerTurn), severity, adjustedSeverity);
      case TechnologicalAccident =>
        var complexityIncrease := AccidentIncrease(complexity, adjustedSeverity);
        complexity := complexity + complexityIncrease as real;
        event := CrisisEvent(ComplexityRise(complexityIncrease), severity, adjustedSeverity);
      case InstitutionalFailure =>
        var levelReduction := FailureReduction(institutions.Level(victim), adjustedSeverity);
        institutions := institutions.With(victim, Max(1, institutions.Level(victim) - levelReduction));
        event := CrisisEvent(Setback(victim, levelReduction), severity, adjustedSeverity);
      case ResourceShortage =>
        var loss := ShortageLoss(researchPoints, adjustedSeverity);
        researchPoints := Max(0, researchPoints - loss);
        event := CrisisEvent(PointsLost(loss), severity, adjustedSeverity);
    }

    /** `next_turn()` with the crisis draws `kind` and `victim` (used only if a crisis fires). */
    method NextTurn(kind: CrisisKind, victim: Institution) returns (summary: TurnSummary)
      requires Valid()
      modifies this
      ensures Valid()
      ensures Snapshot() == TurnStep(old(Snapshot()), kind, victim).state
      ensures summary == TurnStep(old(Snapshot()), kind, victim).summary
      ensures complexityComponents == BreakdownOf(old(complexity), old(technologies))
      ensures turnHistory == old(turnHistory) + [turn]
      ensures complexityHistory == old(complexityHistory) + [summary.complexity]
      ensures capacityHistory == old(capacityHistory) + [summary.capacity]
      ensures pointsHistory == old(pointsHistory) + [researchPoints]
      ensures crisisHistory == old(crisisHistory) + [summary.crisis]
    {
      ghost var s0 := Snapshot();
      turn := turn + 1;
      assert HistoryUpTo(turn);
      var currentComplexity := ComputeComplexity();
      var currentCapacity := ComputeCapacity();
      summary := FinishTurn(currentComplexity, currentCapacity, kind, victim);
      assert TurnStep(s0, kind, victim) == StepFrom(s0.(turn := s0.turn + 1), currentComplexity, currentCapacity, kind, victim) by {
        TurnStepFrom(s0, currentComplexity, currentCapacity, kind, victim);
      }
    }

    /**
     * The part of `next_turn` after the two totals `cx` and `cap` have been
     * computed: crisis check, award, growth, history and summary.
     */
    method FinishTurn(cx: real, cap: real, kind: CrisisKind, victim: Institution) returns (summary: TurnSummary)
      requires ValidState(Snapshot()) && turn >= 1 && HistoryUpTo(turn) && cap >= 6.4
      modifies this`researchPointsPerTurn, this`complexity, this`institutions, this`researchPoints,
               this`turnHistory, this`complexityHistory, this`capacityHistory, this`pointsHistory, this`crisisHistory
      ensures Step(Snapshot(), summary) == StepFrom(old(Snapshot()), cx, cap, kind, victim)
      ensures ValidState(Snapshot()) && HistoryUpTo(turn + 1)
      ensures turnHistory == old(turnHistory) + [turn]
      ensures complexityHistory == old(complexityHistory) + [cx]
      ensures capacityHistory == old(capacityHistory) + [cap]
      ensures pointsHistory == old(pointsHistory) + [researchPoints]
      ensures crisisHistory == old(crisisHistory) + [summary.crisis]
    {
      ghost var s1 := Snapshot();
      var complexityGrowthModifier := GrowthModifier(technologies);
      var crisisEvent := CrisisCheck(cx, cap, kind, victim);
      ghost var s2 := Snapshot();
      var researchMultiplier := ResearchMultiplier(technologies.Level(AiAutomation));
      AwardAndGrow(complexityGrowthModifier);
      ghost var s3 := Snapshot();
      RecordHistory(cx, cap, crisisEvent);
      summary := TurnSummary(turn, researchPoints, cx, cap, cap - cx,
                             (GrowthRate * complexityGrowthModifier - 1.0) * 100.0,
                             (researchMultiplier - 1.0) * 100.0, crisisEvent);
      assert StepFrom(s1, cx, cap, kind, victim) == Step(s3, summary) by {
        StepFromPhases(s1, cx, cap, kind, victim, s2, crisisEvent, s3, summary);
      }
    }

    /** The crisis check of `next_turn`, on the totals `cx` and `cap` it has just computed. */
    method CrisisCheck(cx: real, cap: real, kind: CrisisKind, victim: Institution) returns (crisisEvent: Option<CrisisEvent>)
      requires cap > 0.0 && ValidState(Snapshot())
      modifies this`researchPointsPerTurn, this`complexity, this`institutions, this`researchPoints
      ensures Phase(Snapshot(), crisisEvent) == CrisisPhase(old(Snapshot()), cx, cap, kind, victim)
      ensures ValidState(Snapshot())
    {
      CrisisPhaseEffects(Snapshot(), cx, cap, kind, victim);
      crisisEvent := None;
      if cx > cap * (1.0 + CrisisThreshold) {
        var severity := Severity(cx, cap);
        var event := TriggerCrisis(severity, kind, victim);
        crisisEvent := Some(event);
      }
    }

    /** The end of `next_turn`: the research award, then the growth of the complexity seed. */
    method AwardAndGrow(complexityGrowthModifier: real)
      requires ValidState(Snapshot())
      modifies this`researchPoints, this`complexity
      ensures Snapshot() == GrowthPhase(old(Snapshot()), complexityGrowthModifier)
      ensures ValidState(Snapshot())
    {
      researchPoints := researchPoints + Award(researchPointsPerTurn, technologies.Level(AiAutomation));
      complexity := complexity * (GrowthRate * complexityGrowthModifier);
    }

    /** The history bookkeeping of `next_turn`: one entry appended to each list. */
    method RecordHistory(cx: real, cap: real, crisisEvent: Option<CrisisEvent>)
      requires HistoryUpTo(turn) && (turn == 0 ==> crisisEvent == None)
      requires cap >= 6.4 && researchPoints >= 0
      modifies this`turnHistory, this`complexityHistory, this`capacityHistory, this`pointsHistory, this`crisisHistory
      ensures turnHistory == old(turnHistory) + [turn]
      ensures complexityHistory == old(complexityHistory) + [cx]
      ensures capacityHistory == old(capacityHistory) + [cap]
      ensures pointsHistory == old(pointsHistory) + [researchPoints]
      ensures crisisHistory == old(crisisHistory) + [crisisEvent]
      ensures HistoryUpTo(turn + 1)
    {
      turnHistory := turnHistory + [turn];
      complexityHistory := complexityHistory + [cx];
      capacityHistory := capacityHistory + [cap];
      pointsHistory := pointsHistory + [researchPoints];
      crisisHistory := crisisHistory + [crisisEvent];
    }

    /** `game_status()`: the status of the current totals; only the breakdown is rewritten. */
    method GameStatus() returns (status: Status)
      modifies this`complexityComponents
      ensures complexityComponents == BreakdownOf(complexity, technologies)
      ensures status == StatusOf(turn, Complexity(Snapshot()), Capacity(Snapshot()))
      ensures old(Valid()) ==> Valid()
    {
      var currentComplexity := ComputeComplexity();
      var currentCapacity := ComputeCapacity();
      if currentComplexity > currentCapacity * 3.0 {
        return Overwhelmed;
      }
      if turn >= TurnLimit {
        if currentCapacity > currentComplexity * 1.1 {
          return Victory;
        } else if currentCapacity > currentComplexity {
          return PartialVictory;
        } else {
          return OutOfTime;
        }
      }
      return Ongoing;
    }
  }
}
