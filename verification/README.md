# Genshin artifact simulator — a Dafny model

The repository simulates farming and levelling artifacts in Genshin Impact.
An artifact has a slot (Flower, Plume, Sands, Goblet, Circlet), a main stat,
three or four sub-stats, and a level from 0 to 20. Every fourth level adds a
fourth sub-stat or adds one roll to an existing sub-stat. Its score is twice
its crit-rate roll, plus its crit-damage roll, plus the roll of one desired
sub-stat (a quarter of it when that is elemental mastery).

Three programs run on top of the artifact:

- A `Traveler` scheduler:
  - carries resin from week to week;
  - runs domains that sometimes drop two artifacts and throws away half the drops;
  - keeps the drops whose main stat matches the goal;
  - raises the best share of every bag to level 4, then finishes each slot's best artifact;
  - keeps finishing the artifact with the smallest score gap to its slot's best until EXP runs out;
  - scores the set with at most one "free" slot.
- A `Player` scheduler: the same run of domains without the bonus drops or the discards. It then:
  - pops each slot's best drop into a best set;
  - keeps finishing the weakest drop of the slot whose name sorts last, replacing the slot's best when the new one is better;
  - scores the best set, swapping in one fixed free score.
- A simpler daily simulation (`Simulate_Score.py`):
  - each of nine daily drops is accepted when its main stat is the goal's and it has enough desired stats;
  - each accepted drop is levelled to 20 and kept.

## How it is modelled

- `Seqs`: generic sequence tools. It has `Filter` with its membership and
  multiset laws, and first-wins argmax and argmin. It also has `Ranking`, a
  stable descending order of indices, which models Python's stable
  `sorted(..., reverse=True)`.
- `Stats`: the stat and slot enumerations and the three constant tables of
  `ArtifactClass.py`. The main-stat weights are a function of the slot, the
  roll ranges a function of the sub-stat, and each sub-stat chance table is
  its own map. The `[-3:] == "DMG"` test that selects the elemental-damage
  chance table is kept.
- `Artifacts`: the artifact as an immutable datatype. The sub-stat
  dictionary is a sequence of `Roll(stat, value)` entries in insertion order,
  with distinct keys.
  - Every random draw is an explicit argument. `GenerateSubset` takes the
    drawn stat and roll index. `FirstAccepted` models the rejection loop over
    a sequence of weighted draws.
  - A level-up takes a sequence of `Growth(pick, roll)` draws, reduced modulo
    the number of outcomes. `Step` is one upgrade event on the sub-stat
    list, and `Steps(before, after, n)` says `after` is reached from
    `before` by exactly `n` of them. `LevelledUp(x, y, levels)` says `y`
    is what `level_up(levels)` makes of `x` under some run of draws, and
    `Loot.Finished` is that for a level-up to 20 ending with four sub-stats.
  - `Score` is `get_score`. `WeightedSum` is its independent reference
    definition as a sum of per-entry worths.
- `Loot`: what the two schedulers share:
  - the EXP and resin constants;
  - routing drops into per-slot bags;
  - the main-stat filter and the stable sort by score;
  - `Finish`, levelling an artifact at level 0 or 4 up to 20.
- `Traveler`, `Player`, `Simulate`: the three programs above.
  - Each scheduler state is a datatype holding the bags (a sequence of five
    sequences, in slot order), the EXP budget, and a `tick`.
  - The `tick` counts level-ups so far. Level-up number `n` takes its draws
    from the stream `rng` at `Chunk(rng, n)`.
  - Loops with EXP budgets are methods with invariants.

## Model

| member | source | states |
|---|---|---|
| Stats.MainStatTable | ArtifactClass.py:9-27 | a stat has positive weight in a slot's main-stat table exactly when it is one of the main stats that slot allows: HP for Flower, ATK for Plume, the five Sands stats, the percentages, EM and the seven damage bonuses for Goblet, the seven Circlet stats |
| Stats.FixedMainStats | ArtifactClass.py:10-11 | a Flower's main stat is always HP and a Plume's always ATK |
| Stats.RollRange | ArtifactClass.py:29-40 | every sub-stat has four possible rolls, strictly increasing and all at least the smallest roll of any stat |
| Stats.ChanceKey | ArtifactClass.py:211-213 | the chance table consulted is the shared elemental-damage one exactly for elemental-damage main stats, and the main stat's own table otherwise |
| Stats.DmgSuffix | ArtifactClass.py:211 | a stat's name ends in "DMG" exactly when it is an elemental-damage bonus, so the suffix test picks the right table |
| Stats.ChanceSupportOf | ArtifactClass.py:42-175 | for every main stat an artifact can have, a sub-stat has positive chance exactly when it is a sub-stat other than the main stat itself |
| Stats.SubStatOrderCoversSubStats | ArtifactClass.py:29-40 | the canonical sub-stat order lists exactly the ten sub-stats |
| Artifacts.FirstAccepted | ArtifactClass.py:209-222 | the rejection loop stops at the first draw not already a key, all earlier draws being keys, and never stops when every draw is a key |
| Artifacts.AcceptedDrawIsCandidate | ArtifactClass.py:209-222 | the draw the loop accepts is a sub-stat other than the main stat and not yet present |
| Artifacts.CandidatesNonEmpty | ArtifactClass.py:207-222 | with at most three sub-stats some candidate is always left, so the rejection loop can terminate |
| Artifacts.GenerateSubset | ArtifactClass.py:207-222 | adding a sub-stat appends exactly one new key after the existing entries, with a value from that stat's roll range, and keeps keys distinct and values positive |
| Artifacts.AddSubReachesEveryCandidate | ArtifactClass.py:207-222 | every candidate stat and roll that `generate_subset` can produce is reachable by the growth draw that a level-up uses |
| Artifacts.NewArtifact | ArtifactClass.py:178-193 | a new artifact is valid at level 0 with the drawn set, slot and main stat, has four sub-stats exactly when the 1-in-5 draw hits, never has its main stat as a sub-stat, and every sub-stat value is a single roll from its stat's roll range |
| Artifacts.AddSubs | ArtifactClass.py:192-193 | `n` calls of `generate_subset` append exactly `n` fresh entries after the existing ones, each a single roll from its stat's roll range, keeping keys distinct |
| Artifacts.NewLevel | ArtifactClass.py:227 | the new level is the old level plus the levels, capped at 20 |
| Artifacts.GrowthEvents | ArtifactClass.py:228-230 | the number of upgrade events is the number of multiples of 4 crossed, at most 5, and 0 when no multiple of 4 is reached |
| Artifacts.Grow | ArtifactClass.py:231-238 | one upgrade event adds a fourth fresh sub-stat, holding a single roll, to a three-sub-stat artifact and otherwise raises exactly one of the four entries by a roll of its own stat (`Step`) |
| Artifacts.ApplyGrowthsSteps | ArtifactClass.py:231-238 | running `n` upgrade draws is exactly `n` upgrade events, each a `Step` |
| Artifacts.LevelUp | ArtifactClass.py:225-238 | levelling keeps identity and validity, caps the level at 20, gains a fourth sub-stat if any event happens, keeps every entry and raises the total by at least one minimal roll per event; a level-up that crosses no multiple of 4 leaves the sub-stats unchanged, and level 20 and zero levels change nothing |
| Artifacts.LevelUpSteps | ArtifactClass.py:228-238 | a level-up runs exactly `floor(new / 4) - floor(old / 4)` upgrade events, no more and no fewer |
| Artifacts.LevelUpIsLevelledUp | ArtifactClass.py:225-238 | running `level_up(levels)` with any draws yields one of its outcomes (`LevelledUp`) |
| Artifacts.LevelledUpSteps | ArtifactClass.py:225-238 | any outcome of `level_up(levels)` is a valid artifact of the same identity at the capped level, reached by exactly `GrowthEvents` upgrade events |
| Artifacts.LevelUpComposes | ArtifactClass.py:225-238 | levelling by `x` and then by `y` is levelling by `x + y` with the two draw runs concatenated |
| Artifacts.ScoreIsWeightedSum | ArtifactClass.py:240-253 | `get_score` equals the sum over entries of the roll times its weight (CR 2, CD 1, desired 1 or 1/4 for EM, added together when they coincide) |
| Artifacts.ScoreOrderIndependent | ArtifactClass.py:240-253 | the score depends only on the set of entries, not on their insertion order |
| Artifacts.ScoreBump | ArtifactClass.py:236-253 | raising one entry by `delta` raises the score by that entry's weight times `delta` |
| Artifacts.ScoreNonNegative | ArtifactClass.py:240-253 | a valid artifact's score is never negative |
| Artifacts.LevelUpNeverLowersScore | ArtifactClass.py:225-253 | levelling up never lowers the score for any desired stat |
| Loot.RoutePerSlot | traveler.py:33-37 | after routing, bag `t` is its old contents followed by exactly the drops of slot `t`, in drop order |
| Loot.RouteKeepsBagsOk | player.py:48-51 | routing valid drops keeps every bag holding valid artifacts of its own slot |
| Loot.FilterMainStatus | traveler.py:40-44 | each bag keeps exactly the artifacts with the goal's main stat for its slot (same multiplicities, same order) |
| Loot.FilterMainStatusIdempotent | player.py:75-81 | filtering by main stat twice is filtering once |
| Loot.SortByScoreSpec | traveler.py:62 | the sorted bag is a permutation of the bag, by non-increasing score, with ties kept in bag order |
| Loot.TopIsSortedHead | traveler.py:103-104 | the head of the sorted bag is the first artifact of highest score |
| Loot.Finish | traveler.py:105-110 | finishing an artifact at level 0 or 4 gives a valid level-20 artifact of the same identity with four sub-stats and every earlier sub-stat kept, and is an outcome of `level_up(20 - level)` |
| Loot.FinishSteps | traveler.py:105-110 | finishing runs exactly five upgrade events from level 0 and four from level 4 |
| Loot.FinishNeverLowersScore | traveler.py:105-110 | finishing never lowers the score |
| Traveler.Start | traveler.py:12-17 | a new traveler has no resin and five empty bags |
| Traveler.HaulSize | traveler.py:29-32 | `nb_pull` runs drop between `nb_pull` and `2 * nb_pull` artifacts |
| Traveler.SurvivorsAreUnskipped | traveler.py:33-36 | the drops kept are exactly those whose discard bit is clear, taken in drop order |
| Traveler.GoDomain | traveler.py:28-38 | a domain run keeps the bags well formed, leaves only goal main stats, keeps bags of unlevelled drops unlevelled, and changes nothing but the bags |
| Traveler.GoDomainContents | traveler.py:28-44 | bag `t` afterwards is the old bag plus that slot's surviving drops, filtered by the goal's main stat, in order |
| Traveler.SpendWeeks | traveler.py:46-53 | the resin left is below one run's cost and, with the runs paid, accounts for all resin; the EXP budget is set to that of the weeks; bags hold only goal main stats and, from a fresh start, only unlevelled drops |
| Traveler.RunsCarry | traveler.py:47-50 | carrying leftover resin loses nothing: spending `w1` weeks and then `w2` runs as many domains as spending `w1 + w2` at once |
| Traveler.UpgradeCount | traveler.py:65-69 | bags of fewer than 3 are fully upgraded, otherwise the count is the ceiling of `n * pct / 100` |
| Loot.UpgradeFirst | traveler.py:71-73 | each of the first `nb` artifacts is an outcome of `level_up(4)` (four levels up, capped, identity and sub-stats kept) and the rest are untouched |
| Traveler.Stage4Spec | traveler.py:59-73 | one bag of `levelup_4` is its descending sort with each of the first `UpgradeCount` entries an outcome of `level_up(4)` and the rest untouched |
| Traveler.LevelUp4 | traveler.py:58-73 | every bag is sorted, each entry of its leading share an outcome of `level_up(4)` and the rest untouched, at 5900 EXP per upgrade |
| Traveler.Staged4Levels | traveler.py:59-73 | in a bag of unlevelled drops, `levelup_4` leaves the leading `UpgradeCount` artifacts at level 4 and the rest at level 0 |
| Traveler.LevelUp4Staged | traveler.py:58-73 | after `levelup_4` on the bags `spend_weeks` fills, every artifact is at level 0 or 4, as the bootstrap and the refinement loop need |
| Traveler.TopStaysTop | traveler.py:103-110 | replacing the top artifact by one scoring no less keeps it the top |
| Traveler.Bootstrap | traveler.py:100-110 | every non-empty bag's top artifact below level 20 is replaced by an outcome of `level_up(20 - level)` with four sub-stats (same identity, every sub-stat kept) and stays its top, a top already at 20 is left alone, every other artifact is untouched, and EXP spent equals the level cost gained |
| Traveler.FirstBelowMax | traveler.py:85-90 | the scan finds the first artifact after the head that is below level 20, all before it being finished |
| Traveler.Gap | traveler.py:79-90 | a slot's candidate is below level 20 and its gap is the top score minus its score (never negative); no candidate means the 1000 default |
| Traveler.GapPicksRunnerUp | traveler.py:83-90 | a slot has a candidate exactly when its sorted bag has an unfinished artifact after the head, and the candidate is the first such |
| Traveler.MaxDiffPick | traveler.py:75-96 | the chosen slot has the smallest gap, the first of equal gaps, and the returned artifact is its candidate; nothing is chosen when that slot has no candidate |
| Traveler.RefineTurnSpec | traveler.py:113-124 | a refinement turn either continues having paid a finishing cost, or stops with EXP below 0 (charged but the artifact not levelled) or nothing left to pick |
| Traveler.Refine | traveler.py:113-124 | the loop's result is `RefineRun`'s, the turns repeated until one stops, each finishing the candidate `MaxDiffPick` names; it ends with EXP below 0 or no candidate left, having only levelled artifacts, and EXP accounts for every finished level except the final unpaid charge |
| Traveler.Season | traveler.py:161-164 | a fresh traveler's weeks of domains, `levelup_4` and both halves of `levelup_until_exp` compose: the bags end well formed at levels 0, 4 or 20, the leftover resin accounts for the runs, and the loop stopped on a negative budget or with no candidate |
| Traveler.TopScore | traveler.py:129-133 | a bag's score is at least every artifact's score and is the top artifact's, or -1 exactly when the bag is empty |
| Traveler.Missing | traveler.py:135-138 | the missing slots are exactly those scoring below 0, in slot order |
| Traveler.GetScores | traveler.py:126-152 | no result exactly when two or more slots are missing; otherwise five scores and their sum |
| Traveler.GetScoresOneMissing | traveler.py:142-143 | with one slot missing, it takes its free score and every other slot keeps its own |
| Traveler.GetScoresIsBestSwap | traveler.py:144-152 | with no slot missing, the total is the best of keeping all scores and of swapping the free score into any one slot |
| Traveler.StaleScore | traveler.py:128-133 | as written, a non-empty bag scores its top artifact, and an empty bag after the first takes the previous slot's score, so the last non-empty bag's top, never a negative one |
| Traveler.TopScoresAsWritten | traveler.py:128-133 | as written, the scores fail exactly when the first bag is empty and agree with the bag tops on non-empty bags |
| Traveler.StaleScoresHideEmptyBag | traveler.py:128-139 | an empty bag after a non-empty first bag is missing in the corrected scores but not in the scores as written |
| Traveler.MissingIsEmptyBags | traveler.py:128-139 | corrected, the missing slots are exactly the empty bags |
| Traveler.GetScoresAsWritten | traveler.py:144-152 | as written, with no slot missing the result fails exactly when some free score is at least its slot's score |
| Traveler.GetScoresAsWrittenFails | traveler.py:144-152 | whenever a free score gains anything in a full set, the code as written fails while the corrected result swaps it in |
| Player.Start | player.py:14-19 | a new player has empty bags and an empty best set |
| Player.GoDomain | player.py:48-52 | a domain run keeps the bags well formed and unlevelled, leaves only goal main stats, and changes nothing but the bags |
| Player.GoDomainContents | player.py:48-52 | bag `t` afterwards is the old bag plus that slot's drops, filtered by the goal's main stat, in order |
| Player.SpendWeeks | player.py:42-46 | the weeks' resin pays for exactly the domain runs made (the remainder is dropped); the EXP budget is set to that of the weeks; the best set is unchanged |
| Player.BestIndex | player.py:83-89 | no index exactly for an empty bag; otherwise the first position of highest score |
| Player.BestIndexIsSortedHead | player.py:83-89 | the best index names the head of the bag sorted by descending score |
| Player.Pop | player.py:61 | `pop(i)` removes exactly the entry at `i` and keeps the others in order |
| Player.Bootstrap | player.py:55-64 | every slot without a best artifact and with a non-empty bag moves its best drop, as an outcome of `level_up(20)` with four sub-stats, into the best set; other slots are unchanged; 270475 EXP per move |
| Player.NameOrder | player.py:102 | comparing slot names as strings orders them Circlet, Flower, Goblet, Plume, Sands |
| Player.MaxNameIsFirstByName | player.py:102 | `max` over the keys of non-empty bags picks the non-empty slot whose name sorts last |
| Player.NextPick | player.py:91-105 | no pick exactly when every bag is empty; otherwise the slot whose name sorts last among non-empty bags, and its first lowest-scoring drop |
| Player.RefineStep | player.py:66-73 | after a refinement the slot's best is the old best or the new artifact, whichever scores more (the old one on ties) |
| Player.RefineTurn | player.py:66-73 | a turn happens exactly when some bag is non-empty; it takes one drop out, costs 270475 EXP, keeps the state well formed and covered, and leaves every best no worse |
| Player.Refine | player.py:65-73 | the loop's result is `RefineRun`'s, turns repeated while EXP is positive, each finishing the drop `NextPick` names and keeping the better of it and the slot's best; it ends with EXP at most 0 or no drops left, every best artifact scores no less than before, and each finished drop cost 270475 EXP |
| Player.MaxScores | player.py:21-40 | no scores exactly when two or more slots lack a best artifact; with one lacking, the current scores |
| Player.MaxScoresSwap | player.py:34-39 | with a full set, the free score replaces the slot where it gains most (the first of equal gains), giving the best single swap |
| Player.MaxScoresCanLower | player.py:34-39 | with a full set, the swap happens even when it lowers the total |
| Simulate.DesiredCount | Simulate_Score.py:10-18 | the count is at most 4, at most 3 for a valid artifact (its main stat is never a sub-stat), and is 0 exactly when there is no crit main stat and no CR, CD or desired sub-stat |
| Simulate.CheckArtifact | Simulate_Score.py:6-23 | an artifact without the goal's main stat is rejected, and an accepted one reaches the policy's count |
| Simulate.DesiredCountIsHits | Simulate_Score.py:10-18 | with distinct sub-stat keys the count is the crit main stat plus, entry by entry, one for each CR, CD or desired sub-stat entry (two for a desired CR or CD) |
| Simulate.CheckArtifactCounts | Simulate_Score.py:6-23 | an artifact is accepted exactly when its main stat matches and the entry-by-entry count reaches the policy |
| Simulate.CheckMonotone | Simulate_Score.py:20-23 | a stricter policy accepts a subset of what a looser one accepts |
| Simulate.CheckPolicyBounds | Simulate_Score.py:10-23 | a policy of at most 0 only checks the main stat, one of 5 or more accepts nothing, and one of 4 accepts no valid artifact |
| Simulate.CheckSurvivesLevelUp | Simulate_Score.py:37-40 | an accepted artifact stays accepted after levelling, since sub-stats are only added |
| Simulate.Harvest | Simulate_Score.py:32-41 | each slot's list holds exactly that slot's accepted drops, in drop order, each replaced by an outcome of `level_up(20)` with four sub-stats and still accepted |

## Left out

- Probabilities are not modelled. Every random draw is an argument, and the
  weight tables only determine which outcomes are possible, never how
  likely they are. The 6% bonus-drop chance (`PROB_DROP_TWO_ARTIFACT`) is a
  sequence of booleans.
- Artifacts.AddSub: the weighted, rejection-sampled sub-stat draw inside a
  level-up is a choice by index among the candidates. `AddSubReachesEveryCandidate`
  shows the choice can reach every outcome `generate_subset` can.
- Artifacts.LevelUp: each level-up takes five upgrade draws (`Chunk`), the
  most any level-up consumes. Negative `levels` below `-level` are excluded
  by a precondition, because the source never passes them.
- `__str__` of both classes, `get_artifact_score`, the `__main__` drivers,
  plotting, printing and `tqdm` are not part of this model. `Season` runs
  the traveler driver's steps but not its final `get_scores` call, whose
  slot-name-keyed free scores are the second finding below.
- `Simulate_Score.go_domain` returns no EXP (`exp = None`). `Harvest` takes
  all of the days' drops as one sequence, nine per day, and ignores the EXP.
- Traveler.Refine: when `_get_max_diff_artifact` returns `None`, the source
  crashes on `artifact.level`. The model stops the loop instead, and the
  contract states that no candidate was left.
- Player.Refine: when every bag is empty, `max(score_diff)` raises on an
  empty dict. The model stops the loop instead.
- Traveler.Refine: stated only for bags whose artifacts are at level 0, 4
  or 20. `LevelUp4Staged` and `Bootstrap` show these are the only levels a
  fresh traveler's bags reach (`Season`). The source's loop would spin
  forever on an artifact at any other level.
- The traveler's unused `best_set` is not modelled. In `Start`, the EXP
  budget is 0 until `spend_weeks` sets it, where the source has no
  attribute at all.
- `get_max_scores` and `levelup_until_exp` in `player.py`, and `main` in
  `Simulate_Score.py`, read a module-level desired sub-stat rather than the
  object's or the argument. The model passes the desired sub-stat
  explicitly; the drivers set both to the same value.
- `np.ceil(len * percentage / 100)` is a float computation. `UpgradeCount`
  is the exact integer ceiling, which is the same for every percentage the
  drivers use.
- Scores are exact reals; numpy floating point rounding is not modelled.
- The traveler swaps the free score in also when the gain is exactly 0
  (`diff >= 0`). The player swaps it in even when that lowers the total
  (`MaxScoresCanLower`).

## Findings

| source | as written | input that shows it | evidently intended | confidence | as-written member | corrected member |
|---|---|---|---|---|---|---|
| traveler.py:128-133 | `temp_artifacts` is assigned only for a non-empty bag, but read for every slot; an empty bag reuses the previous slot's sorted list, and an empty first bag raises `UnboundLocalError` | Flower bag non-empty, Plume bag empty: Plume scores the Flower top, so it is never counted missing | an empty bag scores `-1` and counts as missing | high, not executed | Traveler.StaleScoresHideEmptyBag | Traveler.MissingIsEmptyBags |
| traveler.py:146-150 | `free_type` is an integer position, used as the key of the slot-name-keyed `free_artifacts`, so the swap raises `KeyError` | all five bags non-empty, a free score of 0 and a slot scoring 0 (no CR, CD or desired sub-stat) | the free score replaces the slot at that position | high, not executed | Traveler.GetScoresAsWrittenFails | Traveler.GetScoresIsBestSwap |
