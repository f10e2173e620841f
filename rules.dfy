/**
 * The engine's state as a value, its invariant, the two investment
 * transactions as decisions on that state, and the status query.
 */
module Rules {
  import opened Numeric
  import opened Tracks
  import opened Metrics

  /** The scalar fields and the two track tables of the engine. */
  datatype State = State(
    turn: nat,
    points: int,
    seed: real,
    rate: int,
    tech: TechLevels,
    inst: InstLevels)

  const InitialState: State :=
    State(0, InitialPoints, InitialSeed, InitialRate, InitialTechLevels, InitialInstLevels)

  /** What every operation preserves: no debt, a research rate of at least 10, no institution below level 1. */
  ghost predicate ValidState(s: State) {
    && s.points >= 0
    && s.rate >= MinimumRate
    && forall i :: s.inst.Level(i) >= 1
  }

  function Complexity(s: State): real {
    TotalComplexity(s.seed, s.tech)
  }

  function Capacity(s: State): real {
    TotalCapacity(s.inst, s.tech.Level(InformationSystems))
  }

  // ---------------------------------------------------------------------------
  // Investing in a technology
  // ---------------------------------------------------------------------------

  /** Results of `invest_in_technology`; the failure messages become kinds. */
  datatype TechOutcome =
    | Invested(spent: int, newLevel: nat, gained: nat)
    | UnknownTechnology
    | NotEnoughPoints
    | BelowMinimum(needed: int)

  function CostPerLevel(level: nat): int {
    10 + level * 2
  }

  /**
   * Decision of `invest_in_technology` for a known track at `level`:
   * the purchase succeeds exactly when the amount is affordable and covers
   * one level, and then buys the largest whole number of levels the amount
   * pays for, charging only for those.
   */
  function TechDecision(level: nat, amount: int, points: int): (r: TechOutcome)
    ensures !r.UnknownTechnology?
    ensures r.NotEnoughPoints? <==> amount > points
    ensures r.Invested? <==> CostPerLevel(level) <= amount <= points
    ensures r.BelowMinimum? ==> r.needed == CostPerLevel(level) && amount < r.needed
    ensures r.Invested? ==>
      && r.gained >= 1
      && r.newLevel == level + r.gained
      && r.spent == r.gained * CostPerLevel(level)
      && r.spent <= amount < r.spent + CostPerLevel(level)
      && 0 <= points - r.spent
  {
    if amount > points then NotEnoughPoints
    else
      var cost := CostPerLevel(level);
      var gained := amount / cost;
      FloorDivision(amount, cost);
      if gained < 1 then BelowMinimum(cost)
      else Invested(gained * cost, level + gained, gained)
  }

  // ---------------------------------------------------------------------------
  // Upgrading an institution
  // ---------------------------------------------------------------------------

  /** Results of `invest_in_institution`. */
  datatype InstOutcome =
    | Upgraded(newLevel: int, cost: int)
    | UnknownInstitution
    | Shortfall(cost: int, have: int)

  function UpgradeCost(i: Institution, level: int): int {
    BaseCost(i) * level
  }

  /**
   * Decision of `invest_in_institution` for a known institution at `level`:
   * it succeeds exactly when the points cover base cost times level, and then
   * adds exactly one level for exactly that cost.
   */
  function InstitutionDecision(i: Institution, level: int, points: int): (r: InstOutcome)
    ensures !r.UnknownInstitution?
    ensures r.Upgraded? <==> UpgradeCost(i, level) <= points
    ensures r.Upgraded? ==> r.newLevel == level + 1 && r.cost == BaseCost(i) * level && r.cost <= points
    ensures r.Shortfall? ==> r.cost == BaseCost(i) * level && r.have == points < r.cost
  {
    var cost := UpgradeCost(i, level);
    if cost > points then Shortfall(cost, points)
    else Upgraded(level + 1, cost)
  }

  /** Each upgrade makes the next one dearer by exactly the base cost. */
  lemma UpgradeCostGrows(i: Institution, level: int)
    ensures UpgradeCost(i, level + 1) == UpgradeCost(i, level) + BaseCost(i)
    ensures level >= 1 ==> UpgradeCost(i, level) >= BaseCost(i) > 0
  {
  }

  // ---------------------------------------------------------------------------
  // Game status
  // ---------------------------------------------------------------------------

  datatype Status =
    | Ongoing
    | Victory          // capacity exceeds complexity by more than 10% at the turn limit
    | PartialVictory   // capacity exceeds complexity at the turn limit
    | Overwhelmed      // complexity above three times capacity, at any turn
    | OutOfTime        // capacity does not exceed complexity at the turn limit

  /** Status rule of `game_status`, from the turn and the current totals. */
  function StatusOf(turn: int, cx: real, cap: real): (r: Status)
    ensures r == Overwhelmed <==> cx > cap * 3.0
    ensures r == Ongoing <==> turn < TurnLimit && cx <= cap * 3.0
    ensures r == Victory <==> turn >= TurnLimit && cx <= cap * 3.0 && cap > cx * 1.1
    ensures r == PartialVictory <==> turn >= TurnLimit && cx <= cap * 3.0 && cx < cap <= cx * 1.1
    ensures r == OutOfTime <==> turn >= TurnLimit && cx <= cap * 3.0 && cap <= cx
  {
    if cx > cap * 3.0 then Overwhelmed
    else if turn >= TurnLimit then
      if cap > cx * 1.1 then Victory
      else if cap > cx then PartialVictory
      else OutOfTime
    else Ongoing
  }

  /** From the turn limit on the status is always terminal; with positive capacity victory needs no separate overwhelm test. */
  lemma StatusTerminalAtLimit(turn: int, cx: real, cap: real)
    requires turn >= TurnLimit
    ensures StatusOf(turn, cx, cap) != Ongoing
    ensures cap > 0.0 ==> (StatusOf(turn, cx, cap) == Victory <==> cap > cx * 1.1)
  {
    if cap > 0.0 && cap > cx * 1.1 {
      assert cx < cap;
    }
  }
}
