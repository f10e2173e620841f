/**
 * Client code playing the engine through its methods, with the outcomes
 * the rules fix for a fresh game written out as assertions.
 */
module Scenarios {
  import opened Wrappers
  import opened Tracks
  import opened Metrics
  import opened Rules
  import opened Turn
  import opened Engine

  /** A fresh game: 100 points, all technologies at 0, all institutions at 1, seed 10. */
  method FreshGame() {
    var g := new Game();
    assert g.Snapshot() == InitialState;
    assert g.turnHistory == [0] && g.pointsHistory == [100];
    BreakdownProperties(InitialSeed, InitialTechLevels);
    assert g.complexityHistory == [10.0];
    InitialInstitutionStrength();
    assert g.capacityHistory == [6.4];
    var status := g.GameStatus();
    assert status == Ongoing;
  }

  /** 30 points into AI & Automation at level 0 buy three levels at 10 each. */
  method BulkTechnologyPurchase() {
    var g := new Game();
    var outcome := g.InvestInTechnology("AI & Automation", 30);
    assert outcome == Invested(30, 3, 3);
    assert g.researchPoints == 70 && g.technologies.Level(AiAutomation) == 3;
    // At level 3 a level costs 16: 20 points buy one and return 4 unspent.
    outcome := g.InvestInTechnology("AI & Automation", 20);
    assert outcome == Invested(16, 4, 1);
    assert g.researchPoints == 54;
  }

  /** A technology investment below the cost of one level is refused and changes nothing. */
  method InvestmentBelowMinimum() {
    var g := new Game();
    var outcome := g.InvestInTechnology("Clean Energy", 5);
    assert outcome == BelowMinimum(10);
    assert g.Snapshot() == InitialState;
  }

  /** An investment above the pool is refused and changes nothing. */
  method InvestmentAbovePool() {
    var g := new Game();
    var outcome := g.InvestInTechnology("Clean Energy", 101);
    assert outcome == NotEnoughPoints;
    assert g.Snapshot() == InitialState;
  }

  /** Unknown names are refused and change nothing. */
  method UnknownNames() {
    var g := new Game();
    var outcome := g.InvestInTechnology("Fusion", 50);
    assert outcome == UnknownTechnology;
    var upgrade := g.InvestInInstitution("Parliament");
    assert upgrade == UnknownInstitution;
    assert g.Snapshot() == InitialState;
  }

  /** An institution upgrade costs its base cost times its level. */
  method InstitutionUpgrades() {
    var g := new Game();
    var outcome := g.InvestInInstitution("Education System");
    assert outcome == Upgraded(2, 15);
    assert g.researchPoints == 85;
    outcome := g.InvestInInstitution("Education System");
    assert outcome == Upgraded(3, 30);
    outcome := g.InvestInInstitution("Education System");
    assert outcome == Upgraded(4, 45);
    assert g.researchPoints == 10;
    outcome := g.InvestInInstitution("Education System");
    assert outcome == Shortfall(60, 10);
    assert g.institutions.Level(EducationSystem) == 4;
  }

  /** Computing complexity twice with nothing in between gives the same total and the same breakdown. */
  method RecomputeComplexity(g: Game)
    modifies g
  {
    var first := g.ComputeComplexity();
    var breakdown := g.complexityComponents;
    var second := g.ComputeComplexity();
    assert second == first && g.complexityComponents == breakdown;
  }

  /** The first turn of a fresh game always brings a crisis of severity 0.5625, whatever the draws. */
  method FirstTurn(kind: CrisisKind, victim: Institution) {
    var g := new Game();
    ghost var s0 := g.Snapshot();
    var summary := g.NextTurn(kind, victim);
    assert summary == TurnStep(s0, kind, victim).summary;
    assert summary.crisis.Some? && summary.crisis.value.severity == 0.5625 by {
      FirstTurnCrisis(kind, victim);
    }
    assert |g.crisisHistory| == 2 && g.crisisHistory[1] == summary.crisis;
  }

  /**
   * Thirty turns, whatever the crisis draws (`kinds[k]` and `victims[k]`
   * for turn k + 1), always end the game with a status other than Ongoing,
   * and leave 31 entries in every history list.
   */
  method PlayToTheEnd(kinds: seq<CrisisKind>, victims: seq<Institution>) returns (status: Status)
    requires |kinds| == TurnLimit && |victims| == TurnLimit
  {
    var g := new Game();
    for k := 0 to TurnLimit
      invariant g.Valid() && g.turn == k
    {
      var _ := g.NextTurn(kinds[k], victims[k]);
    }
    status := g.GameStatus();
    assert status != Ongoing;
    assert |g.turnHistory| == 31 && g.turnHistory[30] == 30;
  }
}
