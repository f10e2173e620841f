# Technology progress simulation: a verified model of the engine

This project models the simulation engine of a turn-based game about
technological progress. The engine is the class `TechProgressGame`, and
the model covers all of it.

The player spends research points on four technology tracks (AI &
Automation, Biotechnology, Clean Energy, Information Systems) and on four
social institutions (Education System, Regulatory Framework, Scientific
Community, Social Safety Net).

- The technologies raise the total complexity of the world.
- The institutions, helped by Information Systems, raise society's capacity
  to absorb that complexity.
- Each turn the engine compares complexity with capacity. A crisis fires
  when complexity exceeds capacity by more than 20%. The engine then awards
  research points, grows the base complexity seed and records one history
  entry.
- After 30 turns the status query decides victory or defeat. At any turn it ends the game in catastrophic defeat when complexity exceeds three times capacity.

## Modules

- `Wrappers` holds `Option`.
- `Numeric` holds Python's `int()` on reals (`Trunc`, truncation toward zero), `max`, and the two facts about `//` the transactions rely on.
- `Tracks` holds the two track enumerations, the level tables (`TechLevels`, `InstLevels`), the dictionary keys, the factors, the costs and the constants.
- `Metrics` holds the three derived metrics as pure functions:
  - total complexity with its breakdown;
  - total social capacity;
  - the complexity growth modifier.

  It also holds the loop sums over a prefix of a table and the lemmas about all of these.
- `Rules` holds:
  - the engine's state as a value and its invariant `ValidState`: no debt, a rate of at least 10, every institution at level 1 or more;
  - the decisions of the two transactions;
  - the status rule.
- `Turn` holds crisis resolution and the turn step as functions from the state before to the state after, with their lemmas.
- `Engine` holds the class `Game`. It has the engine's fields and methods that update them in place. Each method is proved to compute what the matching function of `Metrics`, `Rules` or `Turn` says.
  - The public operations (the constructor, the two investments, `NextTurn`, `GameStatus`) keep the invariant `Valid()`.
  - `FinishTurn` runs after the turn counter has moved on, so it starts from `ValidState` with the history one entry short, and it ends with `Valid()`.
  - The mid-turn helpers `CrisisCheck`, `AwardAndGrow` and `TriggerCrisis` keep only `ValidState` of the state, because the history is one entry short until `RecordHistory` runs.
- `Scenarios` holds client code that plays a game through the methods. Concrete outcomes are asserted, including that the first turn of a fresh game always brings a crisis of severity 0.5625.

## Behaviour worth noting

- Biotechnology's crisis resistance is not clamped. The code computes `severity * (1 - level * 0.1)` without any bound, so above level 10 the adjusted severity is negative. The model does the same. `Turn.UnclampedResistanceExample` shows the consequence: at Biotechnology level 11, a Resource Shortage of severity 1 takes -10 points, so the pool grows from 100 to 110.
- The crisis effects use `int()`, which truncates toward zero, and the model does the same (`Numeric.Trunc`). Truncation differs from rounding down on negative values, and two situations produce them:
  - an unclamped resistance, as above;
  - a negative complexity seed. The growth modifier is zero at Clean Energy level 20 and negative above it (`Metrics.GrowthModifierCases`). A turn multiplies the seed by 1.08 times the modifier after any accident increase (`Turn.StepFromGrowth`), and a quiet turn does only that to it (`Turn.QuietTurn`). So at level 20 one turn's growth brings the seed to zero, and above level 20 one quiet turn turns a positive seed negative. A turn with an accident can instead push the seed to zero or below first, and the negative factor then makes it positive again. A Technological Accident on a negative seed then truncates a negative product. `Turn.NegativeSeedAccident` shows an increase of 0 where rounding down would give -1.

## Model

| member | source | states |
|---|---|---|
| Numeric.Trunc | app.py:217 | `int(x)`: for x >= 0 the result r satisfies r <= x < r + 1, and for x < 0 it is the integer above x, truncating toward zero |
| Numeric.Max | app.py:279 | `max(a, b)` is one of its arguments and at least both |
| Numeric.FloorDivision | app.py:169-171 | `amount // cost` is the largest q with q * cost <= amount, and it is at least 1 exactly when amount >= cost |
| Tracks.TechLevels.With | app.py:175 | writing a technology level sets that track to the new value and leaves the other three as they were |
| Tracks.InstLevels.With | app.py:192 | writing an institution level sets that track to the new value and leaves the other three as they were |
| Tracks.TechNamed | app.py:160-161 | a name is found exactly when it is one of the four technology keys, and the track found carries that name |
| Tracks.InstitutionNamed | app.py:182-183 | a name is found exactly when it is one of the four institution keys, and the track found carries that name |
| Tracks.NamesRoundTrip | app.py:25-85 | every track is found again under its own dictionary key |
| Tracks.ComplexityFactor | app.py:25-54 | every complexity factor (1.8, 1.5, 0.8, 1.3) is positive |
| Tracks.CapacityFactor | app.py:57-85 | every capacity factor (1.8, 1.5, 1.7, 1.4) is positive |
| Tracks.BaseCost | app.py:57-85 | every institution base cost (15, 18, 20, 12) is positive |
| Metrics.BreakdownOf | app.py:128-157 | definition of the complexity breakdown: the seed as base, the direct term and the interaction term. `BreakdownProperties`, `InteractionVanishes` and `InteractionMean` state its properties, and `DirectSumTable`, `ActiveTable` and `Engine.Game.ComputeComplexity` tie it to the loops |
| Metrics.TotalComplexity | app.py:128-157 | definition of total complexity as the sum of the three terms; `BreakdownProperties` bounds it below by the seed, with equality when nothing is developed |
| Metrics.TotalCapacity | app.py:103-114 | definition of capacity as the institutions' strength times the Information Systems multiplier; `CapacityLowerBound`, `CapacityMonotone`, `InstitutionSumTable` and `Engine.Game.ComputeCapacity` state its properties |
| Metrics.GrowthModifier | app.py:116-126 | definition of the modifier as the acceleration times the Clean Energy reduction; `GrowthModifierCases` states its cases |
| Metrics.Active | app.py:139 | the active list holds exactly the listed technologies whose level is above 0, and it is no longer than the list |
| Metrics.DirectSumTable | app.py:133-135 | the loop's sum of level times complexity factor over the whole table equals the direct complexity |
| Metrics.InstitutionSumTable | app.py:105-107 | the loop's sum of level times capacity factor over the whole table equals the institutions' strength |
| Metrics.ActiveLevelSum | app.py:139-143 | the levels of the active technologies sum to the levels of all technologies, because level-0 tracks add nothing |
| Metrics.ActiveTable | app.py:139-143 | over the whole table the active technologies number `DevelopedCount` and their levels sum to the sum of all levels |
| Metrics.ActiveCount | app.py:139 | over the whole table the number of active technologies is the number of technologies with a positive level |
| Metrics.LevelSumTable | app.py:122 | the sum of the levels over the table equals the sum of the four levels |
| Metrics.InteractionVanishes | app.py:138-144 | the interaction term is never negative, and it is 0 exactly when fewer than two technologies are developed |
| Metrics.InteractionMean | app.py:139-144 | with n >= 2 active technologies, the interaction term is (n - 1) times the mean level of the active ones, times 0.5 |
| Metrics.BreakdownProperties | app.py:128-157 | the breakdown records the seed as base; the direct and interaction terms are non-negative; the total is at least the seed, and equals it when no technology is developed |
| Metrics.InstitutionStrengthMonotone | app.py:105-107 | raising institution levels never lowers the institutions' summed strength |
| Metrics.InitialInstitutionStrength | app.py:57-85 | the four institutions at level 1 have strength 6.4 |
| Metrics.CapacityLowerBound | app.py:103-114 | with every institution at level 1 or more, capacity is at least 6.4 and at least the institutions' strength, so the severity division is safe |
| Metrics.CapacityMonotone | app.py:103-114 | capacity grows with every institution level and with the Information Systems level |
| Metrics.GrowthModifierCases | app.py:116-126 | the acceleration is at least 1; without Clean Energy the modifier equals it; with Clean Energy the modifier is strictly smaller; at Clean Energy level 20 it is zero, and above that it is negative |
| Rules.ValidState | app.py:277-297 | definition of the invariant: no debt, a research rate of at least 10, every institution at level 1 or more. The clamps `max(10, …)`, `max(1, …)` and `max(0, …)` keep it; `Turn.ApplyCrisisEffects`, `Turn.TurnStepEffects` and the engine's methods prove that it is kept |
| Rules.CostPerLevel | app.py:168 | definition of the price of one technology level, 10 + 2 × level; `TechDecision` states what it buys |
| Rules.UpgradeCost | app.py:186 | definition of an upgrade's price, base cost × level; `UpgradeCostGrows` and `InstitutionDecision` state its properties |
| Rules.TechDecision | app.py:163-177 | amount > points is refused; a purchase succeeds exactly when cost <= amount <= points; it buys k = amount // cost >= 1 levels for exactly k * cost <= amount, never overdrawing; below one level it reports the cost needed |
| Rules.InstitutionDecision | app.py:185-195 | an upgrade succeeds exactly when base cost times level is affordable; it then adds exactly one level for exactly that cost; otherwise it reports the cost and the points in hand |
| Rules.UpgradeCostGrows | app.py:186 | each upgrade makes the next one dearer by exactly the base cost |
| Rules.StatusOf | app.py:308-324 | each status holds exactly under its condition: overwhelmed above 3 times capacity; ongoing before turn 30; then victory above 1.1 times complexity, partial victory above complexity, defeat otherwise |
| Rules.StatusTerminalAtLimit | app.py:316-322 | from turn 30 on the status is never ongoing, and with positive capacity victory is exactly capacity > 1.1 times complexity |
| Turn.AdjustedSeverity | app.py:272-275 | with Biotechnology at level 10 or less, the adjusted severity lies between 0 and the severity; above level 10 a positive severity turns negative; at level 0 it is unchanged |
| Turn.BacklashRate | app.py:279 | the new research rate is at least 10 and, for a non-negative adjusted severity, no more than the old rate |
| Turn.AccidentIncrease | app.py:283-284 | for a non-negative seed and adjusted severity, the increase is between 0 and seed times severity; for a non-positive severity it is at most 0 |
| Turn.FailureReduction | app.py:290 | at least one level is lost, and no more than max(1, level times adjusted severity) |
| Turn.FailureLevel | app.py:291 | the level afterwards is at least 1, never above the old level, and strictly lower when the old level was above 1 |
| Turn.ShortageLoss | app.py:295 | for an adjusted severity between 0 and 1, the loss is between 0 and the pool; for a non-positive one it is at most 0 |
| Turn.ShortagePoints | app.py:296 | the pool afterwards is never negative; it never grows for a non-negative severity, and for a severity of at most 1 it is the pool minus the loss |
| Turn.ApplyCrisis | app.py:241-306 | definition of crisis resolution, dispatching on the drawn kind; `ApplyCrisisEffects` and `UnclampedResistanceExample` state its properties |
| Turn.ApplyCrisisEffects | app.py:277-297 | a crisis keeps the state valid and touches neither the technologies nor the turn; it changes only the part its kind names; no institution level rises and capacity never rises |
| Turn.UnclampedResistanceExample | app.py:272-275 | at Biotechnology level 11 the adjusted severity of severity 1 is negative, and a Resource Shortage then adds 10 points instead of taking any |
| Turn.NegativeSeedAccident | app.py:283-284 | at Clean Energy level 21 one turn makes a seed of 10 negative, and an accident of adjusted severity 0.5 then adds 0 where rounding down would give -1 |
| Turn.Severity | app.py:207-209 | severity times capacity is complexity minus capacity, and severity exceeds 0.2 whenever the crisis condition holds |
| Turn.ResearchMultiplier | app.py:213-214 | the research multiplier is at least 1 |
| Turn.Award | app.py:217 | the award is never below the base rate, and equals it when AI & Automation is at level 0 |
| Turn.CrisisPhase | app.py:205-210 | definition of the crisis check on the snapshot totals; `CrisisPhaseEffects` states its properties |
| Turn.GrowthPhase | app.py:212-220 | definition of the award and the seed growth; `StepFromGrowth` and `QuietTurn` state its properties |
| Turn.StepFrom | app.py:205-239 | definition of the rest of the turn from the snapshot totals; `StepFromEffects` and `StepFromGrowth` state its properties |
| Turn.TurnStep | app.py:197-239 | definition of a whole turn; `TurnStepEffects`, `QuietTurn` and `FirstTurnCrisis` state its properties, and `Engine.Game.NextTurn` performs it |
| Turn.TurnStepFrom | app.py:198-202 | a helper that cuts verification cost by unfolding `TurnStep` once: the turn step is the rest of the turn on the incremented state and the two totals taken at that point, and the capacity taken is at least 6.4 |
| Turn.CrisisPhaseEffects | app.py:205-210 | the crisis check fires exactly when complexity exceeds 1.2 times capacity, with severity that ratio; it keeps the state valid, the turn and the technologies; without a crisis it changes nothing |
| Turn.StepFromEffects | app.py:205-239 | after the snapshot, the rest of the turn keeps the state valid, the turn and the technologies; it ends with at least 10 points; the summary reports the snapshot totals, their balance and the crisis, which fires exactly above the threshold |
| Turn.StepFromGrowth | app.py:219-220 | the seed is multiplied by 1.08 times the growth modifier; before that, a Technological Accident has added its increase |
| Turn.TurnStepEffects | app.py:197-239 | a turn advances the turn by exactly one and keeps the state valid and every technology level; it ends with at least 10 points; its summary reports pre-growth complexity and capacity; a crisis fires exactly above 1.2 times capacity, with severity (cx - cap) / cap > 0.2 |
| Turn.QuietTurn | app.py:197-220 | a turn without a crisis changes exactly the turn, the pool (by the award) and the seed (by 1.08 times the modifier) |
| Turn.OpeningCrisis | app.py:18-101 | a fresh game has complexity 10 against capacity 6.4, which is out of balance, with severity 0.5625 |
| Turn.FirstTurnCrisis | app.py:197-210 | whatever the draws, the first turn of a fresh game reports complexity 10 and capacity 6.4 and brings a crisis of severity 0.5625 |
| Engine.Game.Valid | app.py:95-101 | definition of the object invariant: `ValidState` of the fields, and history lists that start at the turn-0 entry and hold one entry per turn so far |
| Engine.Game.constructor | app.py:18-101 | a new game is in the initial state and satisfies the invariant; every history list holds the one turn-0 entry, with no crisis |
| Engine.Game.RecordOpening | app.py:95-101 | the opening history records turn 0, the current complexity and capacity, the pool and no crisis, and it sets the breakdown |
| Engine.Game.ComputeCapacity | app.py:103-114 | in any state, the loop and the multiplier compute the capacity of the current state; in a valid state it is at least 6.4 |
| Engine.Game.ComputeComplexity | app.py:128-157 | returns the total complexity of the current state and records exactly its breakdown, changing nothing else |
| Engine.Game.ComputeDirect | app.py:133-135 | the loop computes the direct complexity |
| Engine.Game.ComputeActive | app.py:139 | the loop builds the active technologies in dictionary order |
| Engine.Game.ComputeLevelSum | app.py:143 | the loop sums the levels of the given technologies |
| Engine.Game.InvestInTechnology | app.py:159-179 | an unknown name is refused; otherwise the outcome is `TechDecision` on the old level and pool; a success writes exactly the new level and subtracts exactly the cost; a failure changes nothing; no level falls; the invariant holds |
| Engine.Game.InvestInInstitution | app.py:181-195 | an unknown name is refused; otherwise the outcome is `InstitutionDecision`; a success raises exactly that institution by one and subtracts exactly the cost; a failure changes nothing; the invariant holds |
| Engine.Game.TriggerCrisis | app.py:241-306 | the new state and the event are those of `ApplyCrisis` on the old state with the drawn kind and institution; a valid state stays valid |
| Engine.Game.NextTurn | app.py:197-239 | the new state and the summary are `TurnStep` of the old state; the breakdown is that of the pre-growth snapshot; each history list gains exactly the new entry; the invariant holds, so every list has length turn + 1 |
| Engine.Game.FinishTurn | app.py:205-239 | after the snapshot, the state and the summary are `StepFrom` on the snapshot totals, and each history list gains exactly one entry |
| Engine.Game.CrisisCheck | app.py:205-210 | the crisis check performs `CrisisPhase` on the snapshot totals and keeps the state valid |
| Engine.Game.AwardAndGrow | app.py:212-220 | the award and the seed growth perform `GrowthPhase` and keep the state valid |
| Engine.Game.RecordHistory | app.py:222-227 | each of the five lists gains exactly its entry, and the history stays consistent with the turn |
| Engine.Game.GameStatus | app.py:308-324 | in any state, the status is `StatusOf` the turn and the current totals; only the breakdown is rewritten, and the invariant `Valid()` is kept |

## Left out

- The Streamlit interface, its session state, the two-actions-per-turn quota and the Altair/pandas charts (app.py:326 onward): presentation, not engine rules.
- Message strings, descriptions and icons. Failed transactions return an outcome kind instead of `(False, message)`. Successful ones return the numbers their message reports.
- The crisis event keeps its effect, raw severity and adjusted severity. Its name, description, message and icon are dropped.
- The summary's `complexity_growth` and `research_bonus` entries are the unformatted percentages; the `:.1f%` formatting is not modelled.
- The `random` module: the two `random.choice` draws (app.py:270 and app.py:289) are the parameters `kind` and `victim`. `victim` is used only by an Institutional Failure.
- IEEE floating point: every float is an exact `real`, so rounding effects of the original are not captured. The initial seed, the integer `10`, is the real 10.0; the code turns it into a float at the first growth.
- The empty `complexity_components` dictionary before the first computation is a zero breakdown.
- Nothing of `next_turn` is dropped. Its body is split into the helper methods `FinishTurn`, `CrisisCheck`, `AwardAndGrow` and `RecordHistory`, which run the source's statements in the source's order.
