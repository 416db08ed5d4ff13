# Token Yahtzee: a verified model of the game core

This project models the game core of Token Yahtzee, a browser dice game in which a player
plays a computer opponent for twelve rounds on a twelve-category Yahtzee scorecard. It covers:

- **Scoring** (`Scoring`): the twelve categories in `CATS` order, `counts`, the straight tests,
  `scoreCategory`, the upper sum, the 35-point upper bonus and the total.
- **Turn and scorecard** (`Game`): the turn record of dice, holds, rolls left and has-rolled;
  rolling; toggling a hold; the open categories; committing a category; completeness.
- **Computer opponent** (`Cpu`): the five difficulty profiles of the `MODE` table, the target ladder,
  the hold strategies, the weighted final choice and the whole computer turn.
- **Stored statistics** (`Storage`): the per-mode record (games, wins, losses, best total, unlocked
  achievements) and the four win flags that open the secret mode. An in-memory `Store` object stands
  in for the browser's storage.
- **Achievements** (`Achievements`): the eleven unlock rules evaluated at the end of a game, the
  ascending list of new unlocks and the achievement list.
- **Match** (`App`): the match state (`mode`, `round`, both scorecards, `turn`, `phase`, `lastCpu`) as
  a class whose methods are the event handlers. It also covers the ordering of the category list
  offered to the player, the verdict and the recording done by `showResult`.

Randomness enters as parameters. A die draw is a real in [0, 1), as `Math.random()` returns, and a
face is `1 + floor(6 r)`. The player's roll takes one function from die index to draw. The computer's
turn takes a function `dd(n, i)`, the draw for die `i` in the roll made when `n` rolls are left, and a
function `sd(n)`, the draw compared with the stop threshold at that point. The CPU weights are
`real`s, and a JavaScript `null` or `undefined` result is `None`. A scorecard is a
`map<Category, int>`; a category missing from the map is an unfilled (`null`) slot.

## Model

| member | source | states |
|---|---|---|
| Scoring.CatIndex | src/scoring.js:1-14 | each category has a position in the `CATS` order and sits there |
| Scoring.CatIndexInjective | src/scoring.js:1-14 | two categories share a position in `CATS` only if they are the same |
| Scoring.Sum | src/scoring.js:47 | legal dice sum to between 1 and 6 per die |
| Scoring.Occurrences | src/scoring.js:49-53 | a face occurs at most as often as there are dice |
| Scoring.Counts | src/scoring.js:49-53 | the loop builds a map whose keys are the faces present, in first-appearance order, each mapped to its number of occurrences |
| Scoring.CountStep | src/scoring.js:51 | one pass of the loop turns the map of the first `i` dice into the map of the first `i + 1` |
| Scoring.OccurrencesPositive | src/scoring.js:49-53 | a face has a positive count exactly when it appears in the dice |
| Scoring.OccurrencesMultiset | src/scoring.js:49-53 | the count of a face is its multiplicity in the multiset of dice |
| Scoring.DistinctOrder | src/scoring.js:49-53 | the keys of `counts` come in the order of each face's first appearance |
| Scoring.IsSmallStraight | src/scoring.js:55-59 | a small straight has 3 and 4 among its faces, and 2 or 5 |
| Scoring.IsLargeStraight | src/scoring.js:61-65 | a large straight has 2, 3, 4 and 5 among its faces, and exactly one of 1 and 6 |
| Scoring.Score | src/scoring.js:67-107 | every category scores between 0 and 50 on legal dice |
| Scoring.SumPermutation | src/scoring.js:47 | `sum` depends only on the multiset of dice |
| Scoring.SumRemove | src/scoring.js:47 | taking a die out of the list takes its face off the sum |
| Scoring.MultisetRemove | src/scoring.js:47 | taking a die out of the list takes one copy of its face off the multiset |
| Scoring.UpperScore | src/scoring.js:72-77 | an upper category scores its face times the number of dice showing it (0 to 5 of them), and 0 exactly when no die shows the face |
| Scoring.ChoiceScore | src/scoring.js:79-80 | choice scores the sum of the dice, a value in [5, 30] for legal dice |
| Scoring.FourKindScore | src/scoring.js:82-85 | four-of-a-kind scores the sum of all five dice when some face occurs at least four times, else 0 |
| Scoring.FiveEqualIsFourKind | src/scoring.js:82-85 | five equal dice qualify as four-of-a-kind and score five times the face |
| Scoring.FullHouseScore | src/scoring.js:87-91 | full house scores 25 iff one face occurs three times and another twice, and otherwise 0 |
| Scoring.CountsAreTwoThreeIff | src/scoring.js:87-91 | the sorted count list is `[2, 3]` iff there are two faces, one occurring three times and the other twice |
| Scoring.FiveEqualIsNotFullHouse | src/scoring.js:87-91 | five equal dice score 0 as a full house |
| Scoring.SmallStraightScore | src/scoring.js:55-59 | small straight scores 15 iff {1,2,3,4}, {2,3,4,5} or {3,4,5,6} is among the faces, else 0 |
| Scoring.LargeStraightScore | src/scoring.js:61-65 | large straight scores 30 iff the faces are exactly {1..5} or {2..6}, else 0 |
| Scoring.LargeImpliesSmall | src/scoring.js:55-65 | every large straight is also a small straight |
| Scoring.YahtzeeScore | src/scoring.js:99-102 | Yahtzee scores 50 iff all five dice are equal, else 0 |
| Scoring.ScorePermutation | src/scoring.js:67-69 | every category score is unchanged when the dice are reordered |
| Scoring.TotalScore | src/scoring.js:122-126 | the loop over `CATS` plus the bonus yields the total: filled upper and lower slots plus `upperBonus` |
| Scoring.UpperSum | src/scoring.js:109-116 | the upper sum is never negative while no slot is |
| Scoring.UpperBonus | src/scoring.js:118-120 | the bonus is 0 or 35, and 35 exactly when the upper sum reaches 63 |
| Scoring.Total | src/scoring.js:122-126 | the total is the sum of the filled slots plus the upper bonus |
| Scoring.SumFilledCats | src/scoring.js:109-126 | summing the filled slots in `CATS` order gives the upper sum plus the lower sum |
| Scoring.UpperBonusThreshold | src/scoring.js:118-120 | an upper sum of exactly 63 earns the bonus, 62 does not; unfilled slots count 0 in the total |
| Scoring.UpperRuleExamples | src/app.js:141-143 | the rule-page examples for A, 2 and 3 score 2, 4 and 9 |
| Scoring.HighUpperRuleExamples | src/app.js:144-146 | the rule-page examples for 4, 5 and 6 score 8, 15 and 18 |
| Scoring.ChoiceExample | src/app.js:147 | the choice example scores 19 |
| Scoring.FourKindExample | src/app.js:148 | `[2,2,2,2,5]` scores 13 as four-of-a-kind |
| Scoring.FullHouseExample | src/app.js:149 | the full-house example scores 25 |
| Scoring.StraightExamples | src/app.js:150-151 | `[1,2,3,4,6]` is a small straight (15) and not a large one; `[2,3,4,5,6]` scores 30 |
| Scoring.YahtzeeExample | src/app.js:152 | five sixes score 50 as Yahtzee |
| Game.NewScorecard | src/game.js:3-18 | the new scorecard has every category unfilled and a total of 0 |
| Game.NewScorecardOffersAll | src/game.js:3-18 | a new scorecard offers all twelve categories in `CATS` order |
| Game.NewTurnState | src/game.js:20-27 | the fresh turn is valid, with three rolls left and no roll made |
| Game.DrawFace | src/game.js:33 | a draw in [0, 1) gives a face in 1..6 |
| Game.Rolled | src/game.js:29-38 | the rolled turn keeps the holds; with no rolls left it is the turn as it was; otherwise each held die keeps its face and each unheld die gets the face of its draw, one roll fewer, has-rolled set |
| Game.RollDice | src/game.js:29-38 | the roll loop yields the rolled turn: unchanged with no rolls left; otherwise unheld dice redrawn, one roll fewer, has-rolled set |
| Game.RollPreservesValid | src/game.js:29-38 | a roll keeps the turn valid, keeps the holds and the held dice, takes exactly one roll and sets has-rolled; with no rolls left nothing changes |
| Game.ThreeRolls | src/game.js:29-38 | after three rolls none are left and a fourth roll changes nothing |
| Game.ToggleHold | src/game.js:40-45 | before the first roll nothing changes; afterwards exactly `held[idx]` flips, with dice and counters unchanged |
| Game.ToggleTwice | src/game.js:40-45 | toggling the same die twice restores the turn |
| Game.TogglePreservesValid | src/game.js:40-45 | toggling keeps the turn valid (rolls left in 0..3, no holds before the first roll) |
| Game.Unfilled | src/game.js:47-49 | the filter keeps exactly the listed categories that are unfilled |
| Game.UnfilledOrdered | src/game.js:47-49 | the filter keeps the order of its input |
| Game.AvailableCats | src/game.js:47-49 | the open categories are exactly the unfilled ones, in `CATS` order |
| Game.AvailableCount | src/game.js:47-49 | open plus filled categories always number twelve |
| Game.CommitCategory | src/game.js:51-56 | the category ends up filled, with its score if it was open and its old value otherwise; every other slot is unchanged |
| Game.CommitIdempotent | src/game.js:51-56 | committing a category a second time, with any dice, changes nothing |
| Game.CommitClosesOne | src/game.js:51-56 | committing an open category closes that one and no other |
| Game.CommitRaisesTotal | src/game.js:51-56 | committing an open lower category adds exactly its score to the total; an upper one adds its score to the upper sum and at least that to the total |
| Game.FillSplits | src/scoring.js:109-116 | filling an open slot adds its value to the upper sum or to the lower sum, by section |
| Game.IsComplete | src/game.js:58-60 | the card is complete iff no category is open, that is iff all twelve are filled |
| Cpu.Cfg | src/cpu.js:5-18 | `easy`, `hard`, `expert` and `secret` each get their own profile of the table and no other name does; every other name, `normal` included, gets `normal` |
| Cpu.Best | src/cpu.js:45-50 | the `if (v > best)` scan: the result bounds every entry and is the first entry achieving it, or stays at the floor |
| Cpu.BestStep | src/cpu.js:45-50 | one more entry of the scan is taken exactly when it beats the best so far |
| Cpu.FirstIn | src/cpu.js:39 | `pickFrom` finds the first preference that is open, or nothing when none is |
| Cpu.Target | src/cpu.js:24-51 | the target is an open category, and there is one iff some category is open |
| Cpu.ChooseTargetCategory | src/cpu.js:24-51 | the method's early returns and scan compute the target ladder |
| Cpu.TargetKeepsYahtzee | src/cpu.js:26 | a made Yahtzee with Yahtzee open is always the target |
| Cpu.TargetKeepsStraight | src/cpu.js:27-28 | failing that, a made large straight, then a made small straight, is the target when open |
| Cpu.HardChasesStraights | src/cpu.js:31-34 | the hard profile with no made hand targets the large straight when open, else the small straight |
| Cpu.ExpertChasesHighHands | src/cpu.js:36-41 | expert and secret pick the first open high hand, else the first open category |
| Cpu.EasyChasesUpper | src/cpu.js:37-42 | easy with no made hand targets sixes when open, else fives |
| Cpu.NormalTargetsBestNow | src/cpu.js:44-50 | normal with no made hand targets the first open category of highest current score |
| Cpu.MostIsMostFrequent | src/cpu.js:57-59 | `entries[0]` is a most frequent face, the first to appear among equals |
| Cpu.SecondIsNextMostFrequent | src/cpu.js:58-66 | `entries[1]` is the most frequent of the other faces, the first to appear among equals |
| Cpu.BestNeedIndex | src/cpu.js:79-83 | the chosen straight pattern covers most of the faces present, the first such pattern on ties |
| Cpu.HitReals | src/cpu.js:79-83 | entry `k` is the number of faces present that pattern `k` covers |
| Cpu.ScanHits | src/cpu.js:79-83 | the pattern loop ends on the pattern of most hits, the first on ties |
| Cpu.ApplyHoldStrategy | src/cpu.js:53-102 | only the hold mask changes, replaced by the mask of the target |
| Cpu.HoldMask | src/cpu.js:53-102 | five flags; nothing held without a target; for an upper target die i is held iff it shows that face; for choice iff it shows at least 4 |
| Cpu.HoldSameKindLoops | src/cpu.js:62-70 | the two `for` loops hold the dice of the most frequent face, plus those of the second for a full house |
| Cpu.HoldFace | src/cpu.js:62-70 | one of those loops additionally holds exactly the dice showing the given face |
| Cpu.HoldStraightLoops | src/cpu.js:73-86 | the loop holds the dice that belong to the chosen straight pattern |
| Cpu.ChooseNeed | src/cpu.js:79-83 | the pattern loop picks the pattern of most hits, the first on ties |
| Cpu.HoldUpperLoop | src/cpu.js:89-93 | the loop holds the dice showing the target's face |
| Cpu.HoldChoiceLoop | src/cpu.js:96-99 | the loop holds the dice showing 4 or more |
| Cpu.HoldPreservesValid | src/cpu.js:53-102 | after a roll the new holds still give a valid turn |
| Cpu.HoldSameKind | src/cpu.js:62-63 | for Yahtzee or four-of-a-kind exactly the dice of the most frequent face are held, and at least one is |
| Cpu.HoldFullHouse | src/cpu.js:62-68 | for a full house the dice of the two most frequent faces are held, or all five when there is only one face |
| Cpu.HoldMadeLargeStraight | src/cpu.js:73-86 | a made large straight keeps all five dice |
| Cpu.LargeStraightOnRun | src/cpu.js:73-86 | every die of a made large straight lies on the run chosen for it |
| Cpu.NeedUpper | src/cpu.js:107-108 | the points missing to the bonus are `max(0, 63 - upperSum)` |
| Cpu.Adjusted | src/cpu.js:114-137 | outside the upper section, with positive weights, a positive score is valued above 0 and a zero below 0 |
| Cpu.AdjustedBounds | src/cpu.js:114-137 | under every profile a zero is valued strictly between -100 and -15, and a positive score above -7 |
| Cpu.ZeroBounds | src/cpu.js:114-137 | a zero is valued strictly between -100 and -15 under every profile |
| Cpu.PositiveBounds | src/cpu.js:114-137 | a positive score is valued above -7 under every profile |
| Cpu.Weigh | src/cpu.js:114-137 | the loop body's in-place weighting gives the adjusted value of the category |
| Cpu.Values | src/cpu.js:113-137 | the value list holds the adjusted value of each open category |
| Cpu.FinalChoice | src/cpu.js:104-145 | no choice (`undefined`) iff the card is complete; otherwise an open category |
| Cpu.PickFinalCategory | src/cpu.js:104-145 | the method computes the final choice |
| Cpu.ScanValues | src/cpu.js:110-143 | the loop ends on the first category of greatest value |
| Cpu.ScanStep | src/cpu.js:139-142 | one pass keeps the running best of the values seen so far |
| Cpu.FinalChoiceIsBest | src/cpu.js:104-145 | on an incomplete card the choice is an open category of maximal value, the first among equals |
| Cpu.FinalChoiceAvoidsZero | src/cpu.js:117-118 | the computer fills a category with 0 only when every open category would score 0 |
| Cpu.OutweighsScoring | src/cpu.js:114-142 | a category valued at least as high as one that scores also scores |
| Cpu.ThresholdByRisk | src/cpu.js:158 | the stop threshold falls as risk rises: 0.48 for easy, 0.345 for normal, 0.12 for expert |
| Cpu.RollLoop | src/cpu.js:156-167 | the roll-hold-roll loop, recursing on the rolls left; every turn it returns has five dice and five holds |
| Cpu.RollLoopValid | src/cpu.js:156-167 | the loop keeps the turn valid and rolled and never increases rolls left, so a computer turn makes one to three rolls |
| Cpu.CpuPlay | src/cpu.js:147-173 | no category is chosen iff the card is complete, and then the card is returned as it was with 0 points; otherwise an open category is chosen, its points are what the final dice score in it, and exactly that slot is added |
| Cpu.CpuPlayTurn | src/cpu.js:147-173 | the method computes the computer's turn as specified |
| Cpu.CpuPlayFillsOne | src/cpu.js:147-173 | legal dice; a choice iff the card was incomplete, and the chosen category was open; `points` is its score; exactly that slot is added; no zero is written while a scoring category is open |
| Storage.WithWin | src/storage.js:22-26 | a win raises only the flag named by the mode; any other name, `secret` included, changes nothing |
| Storage.SecretStaysUnlocked | src/storage.js:27-30 | once all four flags are up, further wins keep them up |
| Storage.FourWinsUnlock | src/storage.js:22-30 | beating the four ordinary opponents in any order opens the secret mode |
| Storage.WinsMonotone | src/storage.js:22-26 | after a series of wins a flag is up iff it was up or its mode was among them |
| Storage.Recorded | src/storage.js:61-68 | one more game; one more win on a win, otherwise one more loss; unlocked achievements kept |
| Storage.BestScoreIsMax | src/storage.js:65 | the best total is the game's total on a fresh record, else the larger of the old best and the game's total |
| Storage.RecordedKeepsBalance | src/storage.js:61-68 | when games equal wins plus losses, they still do afterwards |
| Storage.Store.constructor | src/storage.js:19-21 | empty storage: no record and no flag raised |
| Storage.Store.GetModeData | src/storage.js:33-41 | the stored record, or the default record (0/0/0, no best, nothing unlocked) |
| Storage.Store.SaveModeData | src/storage.js:42-44 | stores the record of one mode and nothing else |
| Storage.Store.RecordResult | src/storage.js:61-68 | stores and returns the recorded update of the mode's record |
| Storage.Store.SetWinFlag | src/storage.js:22-26 | the flags become those after a win in that mode; records untouched |
| Storage.Store.IsSecretUnlocked | src/storage.js:27-30 | true iff all four ordinary flags are up |
| Storage.Store.ClearMode | src/storage.js:47-55 | achievements only: the mode's unlocked set is emptied and its counters kept; otherwise its record returns to the default; flags and other modes untouched |
| Achievements.ZeroCountPositive | src/achievements.js:37-39 | some zero was written iff the zero count is at least 1 |
| Achievements.FactsOf | src/achievements.js:33-46 | the facts carry the summary's completion and win, the stored wins and the total; the bonus is had iff the upper sum reaches 63; the zero count is positive iff some slot holds 0 |
| Achievements.RuleNeedsCompletion | src/achievements.js:58-71 | only 1 to 11 have a rule, and every rule but 11's needs a completed game |
| Achievements.Newly | src/achievements.js:50-71 | at most one unlock per rule among the first `k`, each numbered 1 to `k` and none unlocked before |
| Achievements.NewlyMembers | src/achievements.js:50-71 | an achievement is newly unlocked iff its rule holds and it was not unlocked before |
| Achievements.NewlyAscending | src/achievements.js:50-76 | the newly unlocked list is strictly ascending, so it has no duplicates |
| Achievements.IncompleteUnlocksOnlyWins | src/achievements.js:58-71 | an unfinished game can unlock only achievement 11 |
| Achievements.ComplementaryPairs | src/achievements.js:38-39 | a finished game qualifies for exactly one of 7 and 8 (a zero or none) and exactly one of 9 and 10 (a win or not) |
| Achievements.BonusAndTotalRules | src/achievements.js:44-63 | a finished game qualifies for 5 iff the upper sum reaches 63, and for 6 iff the total reaches 250 |
| Achievements.SecondEvaluationUnlocksNothing | src/achievements.js:50-56 | evaluating the same game again unlocks nothing new |
| Achievements.Unlock | src/achievements.js:50-56 | `unlock(n)` adds `n` to the set and to the list unless it was already unlocked |
| Achievements.GameFacts | src/achievements.js:33-46 | the facts read off the summary and the scorecard |
| Achievements.UnlockIf | src/achievements.js:58-71 | one rule line keeps the list equal to the new unlocks among rules 1..n |
| Achievements.UnlockStep | src/achievements.js:58-71 | one rule line keeps the list and the unlocked set in step with the rules seen so far |
| Achievements.CheckRules | src/achievements.js:58-71 | the eleven rule lines produce the new unlocks in order and add exactly them to the unlocked set |
| Achievements.CheckRulesOneToFour | src/achievements.js:58-61 | the lines for 1 to 4 bring the list and the set up to date with the first four rules |
| Achievements.CheckRulesFiveToEight | src/achievements.js:62-65 | the lines for 5 to 8 do the same for rules 5 to 8 |
| Achievements.CheckRulesNineToEleven | src/achievements.js:67-71 | the lines for 9 to 11 do the same for the last three rules |
| Achievements.EvaluateAndUnlock | src/achievements.js:29-83 | returns the set before, the ascending new unlocks (counting the record's updated wins) and the set after (the set before plus the new unlocks); stores the set after and changes nothing else |
| Achievements.AchievementList | src/achievements.js:85-91 | eleven entries in order 1..11, each flagged unlocked iff recorded so |
| Achievements.ListAfterUnlock | src/achievements.js:85-91 | after an evaluation an achievement is listed unlocked iff it was before or its rule held |
| Achievements.ListAfterRules | src/achievements.js:85-91 | the same for any facts the rules are given |
| App.WrittenPriorityCollides | src/app.js:53-66 | as written, categories 2 to 6 get priority 0, so two categories share a priority |
| App.WrittenPriority | src/app.js:53-66 | as written, every category gets its intended priority except 2 to 6, which get 0 |
| App.TableLookup | src/app.js:53-66 | the table has a key for the value of every category except 2 to 6, and under it the intended priority |
| App.Priority | src/app.js:53-66 | the intended priority of each category lies in 1..120 |
| App.PriorityInjective | src/app.js:53-66 | the intended priorities are distinct |
| App.WrittenOrderAgrees | src/app.js:330-338 | for categories in `CATS` order, the written and intended priorities rank every pair the same way |
| App.ItemsOf | src/app.js:325-328 | one item per open category, in order, with 0 points before the first roll and the category's score of the dice after it |
| App.SortItems | src/app.js:333-338 | the in-place sort leaves a permutation ordered by points, then priority, descending |
| App.InsertAt | src/app.js:333-338 | one insertion pass leaves the first `i + 1` entries in order and the multiset unchanged |
| App.OfferedItems | src/app.js:322-338 | the offered list is a sorted permutation of the items of the open categories |
| App.OfferedIsBest | src/app.js:322-340 | the list holds each open category once with its current points, and its first entry is strictly ahead of every other |
| App.OfferedEntries | src/app.js:322-338 | the sorted list has as many entries as there are open categories, each one of the unsorted entries |
| App.OfferedCoversOpen | src/app.js:322-338 | every open category has an entry in the sorted list |
| App.VerdictOf | src/app.js:603-605 | a win iff the player's total is higher, a loss iff lower, otherwise a draw |
| App.DrawCountsAsLoss | src/app.js:607-611 | a draw is recorded as a loss |
| App.Match.constructor | src/app.js:158-169 | the initial state: mode `normal`, round 1, two empty cards, a fresh turn, the player's phase, no computer turn |
| App.Match.ResetMatch | src/app.js:242-249 | round 1, two empty cards, a fresh turn, the player's phase and no computer turn; mode kept |
| App.Match.Resign | src/app.js:251-261 | a confirmed resignation resets and shows the title without touching the stored records; a declined one changes nothing |
| App.Match.SelectMode | src/app.js:755-762 | picks the mode, resets and shows the battle |
| App.Match.Retry | src/app.js:764-768 | resets in the same mode and shows the battle |
| App.Match.ToTitle | src/app.js:770-773 | resets and shows the title |
| App.Match.Roll | src/app.js:741-745 | ignored outside the player's phase, otherwise rolls the turn; the match stays valid |
| App.Match.ToggleDie | src/app.js:386-401 | in the player's phase toggles the die, otherwise nothing; the match stays valid |
| App.Match.ClickCategory | src/app.js:355-368 | accepted only in the player's phase after a roll and once confirmed: fills the category with its score, and the computer plays at once |
| App.Match.CommitPlayer | src/app.js:365 | the rolled dice are written into the category, exactly one more category filled, nothing else changes |
| App.Match.DoCpuTurn | src/app.js:475-480 | the computer's turn is stored, its scorecard replaces the computer's card and the phase becomes the computer's |
| App.Match.Install | src/app.js:476-478 | the given computer turn is stored, its scorecard becomes the computer's and the phase the computer's; nothing else changes |
| App.Match.NextRound | src/app.js:747-750 | ignored outside the computer's phase; otherwise, when both cards are complete, the verdict of the two totals, the game recorded and the result screen with the match state kept, else the next round |
| App.Match.NextRoundOrResult | src/app.js:482-494 | when both cards are complete: the verdict of the two totals, the game recorded, the result screen, the match state kept; otherwise round + 1, a fresh turn, the player's phase, no computer turn |
| App.Match.BeginNextRound | src/app.js:489-492 | round + 1, a fresh turn, the player's phase, no computer turn; nothing else changes |
| App.Match.ShowResult | src/app.js:599-658 | the verdict of the two totals; the game recorded, the win flag raised on a win and the achievements evaluated on the updated record; whether the secret mode just opened |
| App.Match.Show | src/app.js:77-94 | the given screen is shown; the match and the storage are left as they are |
| App.Match.ClearModeData | src/app.js:719-728 | once confirmed the mode's whole record is removed and the flags kept |
| App.Judge | src/app.js:600-608 | both totals, the verdict, and the summary (the player's card, a win flag, both cards complete) |
| App.RecordGame | src/app.js:610-637 | `recordResult`, `setWinFlag` on a win, then `evaluateAndUnlock`, with the secret mode's state before and after |
| App.Finish | src/app.js:599-637 | the verdict of the two totals, and the game recorded in the storage |
| App.LastRoundCompletes | src/app.js:482-494 | in the computer's phase the match is over exactly in round 12 |

`App.Match.Valid` holds in every reachable state and is kept by every handler. In the player's phase
both cards have `round - 1` categories filled; in the computer's phase both have `round` filled and
`lastCpu` holds the computer's turn. So `round` stays within 1..12.

## Left out

- Rendering, modals, popups, the rule and achievement pages and the dialogue lines (`src/dialogues.js`)
  are user interface. Confirmations are modelled as a `confirmed` flag passed to the handler.
- The service worker (`service-worker.js`) is network and cache I/O.
- `localStorage`, JSON and the key strings of `src/storage.js` are replaced by the `Store` object: a
  map from mode to record, plus the win flags.
- The shown-once flag of the secret toast (`src/app.js:68-75`) only suppresses a popup. `ShowResult`
  reports whether the secret mode has just opened.
- `lastPlayer` and `returnFromInfo` only feed messages and navigation.
- The `screen` field records which screen the handlers show. Which buttons are visible on which screen
  is not modelled. The roll and next-round handlers guard on `phase` as the source does, and the
  category handler also on `turn.hasRolled`. The die handler of the source has no guard: it exists only
  while the player's view is rendered. App.Match.ToggleDie stands in for that rendering with a guard
  on the player's phase.
- App.Match.ClickCategory: requires that the category is open, because the click handler is attached
  only to the items of the open categories.
- Cpu.Cfg: `MODE[mode] ?? MODE.normal` also finds inherited property names such as `toString` or
  `__proto__`, and returns something that is not a profile for them. The model gives `normal` to every
  name outside the table.
- Cpu.CpuPlayTurn: the dice and stop draws are indexed by the number of rolls left, not drawn from one
  stream. Nothing is proved about their distribution.
- The CPU weights and values are `real`s. Ties that IEEE doubles would break differently are not
  represented.
- `structuredClone` and the spread copies are value semantics in the model.
- The `default: return 0` branch of `scoreCategory` cannot be reached: categories are a closed datatype.
- Storage.WithWin: `mode in w` in `setWinFlag` would also accept inherited property names of a
  JavaScript object, such as `toString`. The model raises a flag only for the four mode names.
- Storage.Store.GetModeData: a stored record that fails to parse, which falls back to the default in
  the source, is not modelled.
- App.SortItems: it sorts with the intended priority, `App.Priority` (see Findings), rather than with
  the table as written. `App.WrittenOrderAgrees` shows that, on the list in `CATS` order, the two
  priorities order every pair the same way.
- The rule-page example table of `src/app.js:140-153` is keyed the same way as `CAT_PRIORITY`, so the
  pages for 2 to 6 would show no example. Only its dice are used, as scoring examples.

## Findings

| source | as written | input that shows it | evidently intended | confidence | as-written member | corrected member |
|---|---|---|---|---|---|---|
| src/app.js:53-66, src/app.js:335-336 | `CAT_PRIORITY` is keyed `TWO` … `SIX` but looked up with category values, which are `"2"` … `"6"`, so these five categories get priority 0 | a roll after which categories 2 and 3 both score 0: the comparator returns 0 for them | distinct priorities `A: 6, TWO: 5, …, SIX: 1`, giving a total order over categories of equal points | not executed; the displayed order is unaffected because the input is in `CATS` order and `Array.prototype.sort` is stable | App.WrittenPriorityCollides | App.PriorityInjective |
