/**
 * The fixed tables of the engine: four technology tracks and four
 * institution tracks, their display names, their factors and costs,
 * and the constants of the turn rules.
 */
module Tracks {
  import opened Wrappers

  datatype Tech = AiAutomation | Biotechnology | CleanEnergy | InformationSystems

  datatype Institution = EducationSystem | RegulatoryFramework | ScientificCommunity | SocialSafetyNet

  /** The technology table in its dictionary order. */
  const Techs: seq<Tech> := [AiAutomation, Biotechnology, CleanEnergy, InformationSystems]

  /** The institution table in its dictionary order. */
  const Institutions: seq<Institution> :=
    [EducationSystem, RegulatoryFramework, ScientificCommunity, SocialSafetyNet]

  /** The level of every technology track (levels are never negative). */
  datatype TechLevels = TechLevels(ai: nat, bio: nat, clean: nat, info: nat) {
    function Level(t: Tech): nat {
      match t
      case AiAutomation => ai
      case Biotechnology => bio
      case CleanEnergy => clean
      case InformationSystems => info
    }

    /** The levels with track `t` set to `v`, the dictionary update `[t]['level'] = v`. */
    function With(t: Tech, v: nat): (r: TechLevels)
      ensures r.Level(t) == v
      ensures forall u :: u != t ==> r.Level(u) == Level(u)
    {
      match t
      case AiAutomation => this.(ai := v)
      case Biotechnology => this.(bio := v)
      case CleanEnergy => this.(clean := v)
      case InformationSystems => this.(info := v)
    }
  }

  /** The level of every institution track. */
  datatype InstLevels = InstLevels(education: int, regulatory: int, scientific: int, safetyNet: int) {
    function Level(i: Institution): int {
      match i
      case EducationSystem => education
      case RegulatoryFramework => regulatory
      case ScientificCommunity => scientific
      case SocialSafetyNet => safetyNet
    }

    function With(i: Institution, v: int): (r: InstLevels)
      ensures r.Level(i) == v
      ensures forall j :: j != i ==> r.Level(j) == Level(j)
    {
      match i
      case EducationSystem => this.(education := v)
      case RegulatoryFramework => this.(regulatory := v)
      case ScientificCommunity => this.(scientific := v)
      case SocialSafetyNet => this.(safetyNet := v)
    }
  }

  const InitialTechLevels: TechLevels := TechLevels(0, 0, 0, 0)
  const InitialInstLevels: InstLevels := InstLevels(1, 1, 1, 1)

  // Per-level magnitudes of the four special effects, one per technology.
  const ResearchBonus: real := 0.1         // AI & Automation: research points per turn
  const CrisisResistance: real := 0.1      // Biotechnology: crisis severity
  const ComplexityReduction: real := 0.05  // Clean Energy: complexity growth
  const CapacityBonus: real := 0.1         // Information Systems: institution effectiveness

  // Game progression parameters.
  const InitialPoints: int := 100
  const InitialSeed: real := 10.0
  const InitialRate: int := 50
  const MinimumRate: int := 10
  const GrowthRate: real := 1.08
  const CrisisThreshold: real := 0.2
  const TurnLimit: int := 30

  function TechName(t: Tech): string {
    match t
    case AiAutomation => "AI & Automation"
    case Biotechnology => "Biotechnology"
    case CleanEnergy => "Clean Energy"
    case InformationSystems => "Information Systems"
  }

  function InstitutionName(i: Institution): string {
    match i
    case EducationSystem => "Education System"
    case RegulatoryFramework => "Regulatory Framework"
    case ScientificCommunity => "Scientific Community"
    case SocialSafetyNet => "Social Safety Net"
  }

  /** Membership test `name in self.technologies`, returning the track. */
  function TechNamed(name: string): (r: Option<Tech>)
    ensures r.Some? ==> TechName(r.value) == name
    ensures r.None? ==> forall t: Tech :: TechName(t) != name
  {
    if name == "AI & Automation" then Some(AiAutomation)
    else if name == "Biotechnology" then Some(Biotechnology)
    else if name == "Clean Energy" then Some(CleanEnergy)
    else if name == "Information Systems" then Some(InformationSystems)
    else None
  }

  /** Membership test `name in self.institutions`, returning the track. */
  function InstitutionNamed(name: string): (r: Option<Institution>)
    ensures r.Some? ==> InstitutionName(r.value) == name
    ensures r.None? ==> forall i: Institution :: InstitutionName(i) != name
  {
    if name == "Education System" then Some(EducationSystem)
    else if name == "Regulatory Framework" then Some(RegulatoryFramework)
    else if name == "Scientific Community" then Some(ScientificCommunity)
    else if name == "Social Safety Net" then Some(SocialSafetyNet)
    else None
  }

  /** Every track is found under its own name. */
  lemma NamesRoundTrip(t: Tech, i: Institution)
    ensures TechNamed(TechName(t)) == Some(t)
    ensures InstitutionNamed(InstitutionName(i)) == Some(i)
  {
  }

  function ComplexityFactor(t: Tech): (r: real)
    ensures r > 0.0
  {
    match t
    case AiAutomation => 1.8
    case Biotechnology => 1.5
    case CleanEnergy => 0.8
    case InformationSystems => 1.3
  }

  function CapacityFactor(i: Institution): (r: real)
    ensures r > 0.0
  {
    match i
    case EducationSystem => 1.8
    case RegulatoryFramework => 1.5
    case ScientificCommunity => 1.7
    case SocialSafetyNet => 1.4
  }

  function BaseCost(i: Institution): (r: int)
    ensures r > 0
  {
    match i
    case EducationSystem => 15
    case RegulatoryFramework => 18
    case ScientificCommunity => 20
    case SocialSafetyNet => 12
  }
}
