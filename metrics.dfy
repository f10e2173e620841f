/**
 * The three derived metrics of the engine: total complexity (with its
 * breakdown), total social capacity and the complexity growth modifier.
 *
 * Each metric is a closed sum over the four entries of a track table. The
 * engine computes the same sums with loops over the table; the functions
 * over a prefix of a table (`DirectSum`, `Active`, `LevelSum`,
 * `InstitutionSum`) state what such a loop has built after its first k
 * entries, and the lemmas `...Table` equate the whole-table prefix sums
 * with the closed sums.
 */
module Metrics {
  import opened Numeric
  import opened Tracks

  // ---------------------------------------------------------------------------
  // The metrics
  // ---------------------------------------------------------------------------

  /** Sum of all four technology levels. */
  function LevelTotal(lv: TechLevels): nat {
    lv.ai + lv.bio + lv.clean + lv.info
  }

  /** Number of technologies developed beyond level 0. */
  function DevelopedCount(lv: TechLevels): nat {
    (if lv.ai > 0 then 1 else 0) + (if lv.bio > 0 then 1 else 0)
    + (if lv.clean > 0 then 1 else 0) + (if lv.info > 0 then 1 else 0)
  }

  /** Direct complexity: level times complexity factor, over the four technologies. */
  function DirectComplexity(lv: TechLevels): real {
    (lv.ai as real) * ComplexityFactor(AiAutomation)
    + (lv.bio as real) * ComplexityFactor(Biotechnology)
    + (lv.clean as real) * ComplexityFactor(CleanEnergy)
    + (lv.info as real) * ComplexityFactor(InformationSystems)
  }

  /** The interaction term for `n` developed technologies whose levels sum to `sum`. */
  function InteractionOf(n: nat, sum: nat): real {
    if n > 1 then
      var interactionLevel := (sum as real) / (n as real);
      (n - 1) as real * interactionLevel * 0.5
    else 0.0
  }

  /**
   * Interaction complexity between simultaneously developed technologies.
   * Technologies at level 0 add nothing to the level sum, so the sum over
   * the developed ones is the sum of all levels (see `ActiveTable`).
   */
  function Interaction(lv: TechLevels): real {
    InteractionOf(DevelopedCount(lv), LevelTotal(lv))
  }

  /** The components recorded by every computation of total complexity. */
  datatype Breakdown = Breakdown(base: real, direct: real, interaction: real, total: real)

  function BreakdownOf(seed: real, lv: TechLevels): Breakdown {
    var direct := DirectComplexity(lv);
    var interaction := Interaction(lv);
    Breakdown(seed, direct, interaction, seed + direct + interaction)
  }

  function TotalComplexity(seed: real, lv: TechLevels): real {
    BreakdownOf(seed, lv).total
  }

  /** Level times capacity factor, over the four institutions. */
  function InstitutionStrength(inst: InstLevels): real {
    (inst.education as real) * CapacityFactor(EducationSystem)
    + (inst.regulatory as real) * CapacityFactor(RegulatoryFramework)
    + (inst.scientific as real) * CapacityFactor(ScientificCommunity)
    + (inst.safetyNet as real) * CapacityFactor(SocialSafetyNet)
  }

  /** Effectiveness multiplier contributed by Information Systems. */
  function CapacityMultiplier(infoLevel: nat): real {
    1.0 + (infoLevel as real) * CapacityBonus
  }

  function TotalCapacity(inst: InstLevels, infoLevel: nat): real {
    InstitutionStrength(inst) * CapacityMultiplier(infoLevel)
  }

  /** General acceleration: one percent per technology level. */
  function TechAcceleration(lv: TechLevels): real {
    1.0 + (LevelTotal(lv) as real) * 0.01
  }

  function GrowthModifier(lv: TechLevels): real {
    TechAcceleration(lv) * (1.0 - (lv.Level(CleanEnergy) as real) * ComplexityReduction)
  }

  // ---------------------------------------------------------------------------
  // Sums over a prefix of a table, as the engine's loops build them
  // ---------------------------------------------------------------------------

  /** Sum of level times complexity factor over the technologies listed in `ts`. */
  function DirectSum(ts: seq<Tech>, lv: TechLevels): real {
    if |ts| == 0 then 0.0
    else DirectSum(ts[..|ts| - 1], lv) + (lv.Level(ts[|ts| - 1]) as real) * ComplexityFactor(ts[|ts| - 1])
  }

  /** Sum of the levels of the technologies listed in `ts`. */
  function LevelSum(ts: seq<Tech>, lv: TechLevels): nat {
    if |ts| == 0 then 0 else LevelSum(ts[..|ts| - 1], lv) + lv.Level(ts[|ts| - 1])
  }

  /** The technologies of `ts` whose level is positive, in order. */
  function Active(ts: seq<Tech>, lv: TechLevels): (r: seq<Tech>)
    ensures |r| <= |ts|
    ensures forall t :: t in r <==> t in ts && lv.Level(t) > 0
  {
    if |ts| == 0 then []
    else
      var rest := Active(ts[..|ts| - 1], lv);
      var t := ts[|ts| - 1];
      assert ts == ts[..|ts| - 1] + [t];
      if lv.Level(t) > 0 then rest + [t] else rest
  }

  /** Sum of level times capacity factor over the institutions listed in `insts`. */
  function InstitutionSum(insts: seq<Institution>, lv: InstLevels): real {
    if |insts| == 0 then 0.0
    else InstitutionSum(insts[..|insts| - 1], lv) + (lv.Level(insts[|insts| - 1]) as real) * CapacityFactor(insts[|insts| - 1])
  }

  // ---------------------------------------------------------------------------
  // The loops' sums over a whole table are the metrics
  // ---------------------------------------------------------------------------

  lemma DirectSumTable(lv: TechLevels)
    ensures DirectSum(Techs, lv) == DirectComplexity(lv)
  {
    assert Techs[..1][..0] == [] && Techs[..2][..1] == Techs[..1] && Techs[..3][..2] == Techs[..2];
    var a := (lv.ai as real) * ComplexityFactor(AiAutomation);
    var b := (lv.bio as real) * ComplexityFactor(Biotechnology);
    var c := (lv.clean as real) * ComplexityFactor(CleanEnergy);
    assert DirectSum(Techs[..1], lv) == a;
    assert DirectSum(Techs[..2], lv) == a + b;
    assert DirectSum(Techs[..3], lv) == a + b + c;
  }

  lemma InstitutionSumTable(inst: InstLevels)
    ensures InstitutionSum(Institutions, inst) == InstitutionStrength(inst)
  {
    var insts := Institutions;
    assert insts[..1][..0] == [] && insts[..2][..1] == insts[..1] && insts[..3][..2] == insts[..2];
    var a := (inst.education as real) * CapacityFactor(EducationSystem);
    var b := (inst.regulatory as real) * CapacityFactor(RegulatoryFramework);
    var c := (inst.scientific as real) * CapacityFactor(ScientificCommunity);
    assert InstitutionSum(insts[..1], inst) == a;
    assert InstitutionSum(insts[..2], inst) == a + b;
    assert InstitutionSum(insts[..3], inst) == a + b + c;
  }

  /** Tracks at level 0 add nothing: the active tracks carry all of the levels. */
  lemma {:induction false} ActiveLevelSum(ts: seq<Tech>, lv: TechLevels)
    ensures LevelSum(Active(ts, lv), lv) == LevelSum(ts, lv)
  {
    if |ts| > 0 {
      var init, t := ts[..|ts| - 1], ts[|ts| - 1];
      ActiveLevelSum(init, lv);
      var rest := Active(init, lv);
      if lv.Level(t) > 0 {
        assert (rest + [t])[..|rest|] == rest;
      }
    }
  }

  /**
   * Over the whole table, the developed technologies are `DevelopedCount`
   * many and their levels sum to the sum of all levels.
   */
  lemma ActiveTable(lv: TechLevels)
    ensures |Active(Techs, lv)| == DevelopedCount(lv)
    ensures LevelSum(Active(Techs, lv), lv) == LevelTotal(lv)
  {
    ActiveCount(lv);
    ActiveLevelSum(Techs, lv);
    LevelSumTable(lv);
  }

  lemma ActiveCount(lv: TechLevels)
    ensures |Active(Techs, lv)| == DevelopedCount(lv)
  {
    assert Techs[..1][..0] == [] && Techs[..2][..1] == Techs[..1] && Techs[..3][..2] == Techs[..2];
    var a, b, c := (if lv.ai > 0 then 1 else 0), (if lv.bio > 0 then 1 else 0), (if lv.clean > 0 then 1 else 0);
    assert |Active(Techs[..1], lv)| == a;
    assert |Active(Techs[..2], lv)| == a + b;
    assert |Active(Techs[..3], lv)| == a + b + c;
  }

  lemma LevelSumTable(lv: TechLevels)
    ensures LevelSum(Techs, lv) == LevelTotal(lv)
  {
    assert Techs[..1][..0] == [] && Techs[..2][..1] == Techs[..1] && Techs[..3][..2] == Techs[..2];
    assert LevelSum(Techs[..1], lv) == lv.ai;
    assert LevelSum(Techs[..2], lv) == lv.ai + lv.bio;
    assert LevelSum(Techs[..3], lv) == lv.ai + lv.bio + lv.clean;
  }

  // ---------------------------------------------------------------------------
  // Lemmas about the metrics
  // ---------------------------------------------------------------------------

  /** The interaction term is never negative, and it vanishes exactly when fewer than two technologies are developed. */
  lemma InteractionVanishes(lv: TechLevels)
    ensures Interaction(lv) >= 0.0
    ensures Interaction(lv) == 0.0 <==> DevelopedCount(lv) < 2
  {
    var n := DevelopedCount(lv);
    if n > 1 {
      MeanTermBound(LevelTotal(lv) as real, n as real);
    }
  }

  /**
   * With n >= 2 developed technologies, the interaction term is (n - 1)
   * times the mean level of those n technologies, times 0.5.
   */
  lemma InteractionMean(lv: TechLevels)
    requires DevelopedCount(lv) >= 2
    ensures var n := DevelopedCount(lv) as real;
      Interaction(lv) == (n - 1.0) * ((LevelSum(Active(Techs, lv), lv) as real) / n) * 0.5
  {
    var n, total := DevelopedCount(lv) as real, LevelTotal(lv) as real;
    assert Interaction(lv) == (n - 1.0) * (total / n) * 0.5;
    assert LevelSum(Active(Techs, lv), lv) == LevelTotal(lv) by { ActiveTable(lv); }
  }

  /** With n >= 2 tracks of total level at least n, the interaction term is at least 0.5. */
  lemma MeanTermBound(sum: real, n: real)
    requires n >= 2.0 && sum >= n
    ensures (n - 1.0) * (sum / n) * 0.5 >= 0.5
  {
    var mean := sum / n;
    assert mean * n == sum;
    assert mean >= 1.0 by {
      if mean < 1.0 {
        MulMonotone(mean, 1.0, n);
      }
    }
    MulMonotone(1.0, n - 1.0, mean);
    MulMonotone(1.0, mean, 1.0);
  }

  lemma ProductMonotone(a: real, b: real, c: real, d: real)
    requires 0.0 <= a <= b && 0.0 <= c <= d
    ensures a * c <= b * d
  {
    MulMonotone(a, b, c);
    MulMonotone(c, d, b);
  }

  /** Total complexity is the seed plus non-negative technology terms; with no technology it is the seed alone. */
  lemma BreakdownProperties(seed: real, lv: TechLevels)
    ensures BreakdownOf(seed, lv).base == seed
    ensures BreakdownOf(seed, lv).direct >= 0.0 && BreakdownOf(seed, lv).interaction >= 0.0
    ensures TotalComplexity(seed, lv) >= seed
    ensures lv == InitialTechLevels ==> TotalComplexity(seed, lv) == seed
  {
    InteractionVanishes(lv);
  }

  /** Raising institution levels never lowers the institutions' strength. */
  lemma InstitutionStrengthMonotone(lo: InstLevels, hi: InstLevels)
    requires forall i :: lo.Level(i) <= hi.Level(i)
    ensures InstitutionStrength(lo) <= InstitutionStrength(hi)
  {
    assert lo.Level(EducationSystem) <= hi.Level(EducationSystem);
    assert lo.Level(RegulatoryFramework) <= hi.Level(RegulatoryFramework);
    assert lo.Level(ScientificCommunity) <= hi.Level(ScientificCommunity);
    assert lo.Level(SocialSafetyNet) <= hi.Level(SocialSafetyNet);
  }

  lemma InitialInstitutionStrength()
    ensures InstitutionStrength(InitialInstLevels) == 6.4
  {
  }

  /**
   * With every institution at level 1 or more, capacity never falls below
   * its initial value 6.4; in particular it is positive, so the crisis
   * severity ratio is well defined.
   */
  lemma CapacityLowerBound(inst: InstLevels, infoLevel: nat)
    requires forall i :: inst.Level(i) >= 1
    ensures TotalCapacity(inst, infoLevel) >= 6.4
    ensures TotalCapacity(inst, infoLevel) >= InstitutionStrength(inst)
  {
    InstitutionStrengthMonotone(InitialInstLevels, inst);
    var s := InstitutionStrength(inst);
    assert s * CapacityMultiplier(infoLevel) == s + s * (infoLevel as real) * CapacityBonus;
    assert s * (infoLevel as real) >= 0.0;
  }

  /** Capacity grows with every institution level and with Information Systems. */
  lemma CapacityMonotone(lo: InstLevels, hi: InstLevels, infoLo: nat, infoHi: nat)
    requires forall i :: 1 <= lo.Level(i) <= hi.Level(i)
    requires infoLo <= infoHi
    ensures TotalCapacity(lo, infoLo) <= TotalCapacity(hi, infoHi)
  {
    InstitutionStrengthMonotone(lo, hi);
    InstitutionStrengthMonotone(InitialInstLevels, lo);
    var a, b := InstitutionStrength(lo), InstitutionStrength(hi);
    var ma, mb := CapacityMultiplier(infoLo), CapacityMultiplier(infoHi);
    assert 0.0 <= a <= b && 1.0 <= ma <= mb;
    ProductMonotone(a, b, ma, mb);
  }

  /**
   * Clean Energy damps the general acceleration: without it the modifier is
   * the acceleration itself (at least 1); with it the modifier is strictly
   * smaller; at level 20 the modifier is zero, and above it negative.
   */
  lemma GrowthModifierCases(lv: TechLevels)
    ensures TechAcceleration(lv) >= 1.0
    ensures lv.Level(CleanEnergy) == 0 ==> GrowthModifier(lv) == TechAcceleration(lv)
    ensures lv.Level(CleanEnergy) > 0 ==> GrowthModifier(lv) < TechAcceleration(lv)
    ensures lv.Level(CleanEnergy) == 20 ==> GrowthModifier(lv) == 0.0
    ensures lv.Level(CleanEnergy) > 20 ==> GrowthModifier(lv) < 0.0
  {
    var acc := TechAcceleration(lv);
    var e := (lv.Level(CleanEnergy) as real) * ComplexityReduction;
    assert GrowthModifier(lv) == acc - acc * e;
    if lv.Level(CleanEnergy) > 0 {
      assert acc * e > 0.0;
    }
    if lv.Level(CleanEnergy) == 20 {
      assert e == 1.0;
    }
    if lv.Level(CleanEnergy) > 20 {
      var d := e - 1.0;
      assert d > 0.0 && acc > 0.0;
      assert acc * d > 0.0;
      assert acc * e == acc + acc * d;
      assert GrowthModifier(lv) == -(acc * d);
    }
  }
}
