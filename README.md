# Sports-betting arbitrage and DFS analysis, modelled in Dafny

This project models the sports-betting arbitrage bot and its DFS (daily fantasy sports) helpers.

**The arbitrage engine** is the core:
- it folds every bookmaker's quotes into a best-price table per market and outcome;
- it computes each market's arbitrage index Σ 1/price, the stake split that pays the same on every leg, and the guaranteed profit of that split;
- it reports the markets whose index is below 1.0 and whose margin meets the configured minimum.

The secondary parts reuse the same fold or the same style of greedy rule:
- the player-props analyzer: prop extraction, projected points, salary and confidence rules, per-player value analysis, and over/under prop arbitrage;
- the greedy lineup optimizer, with its risk score and near-duplicate check;
- the NBA demo tool and the WNBA analyzer: the simulated slate rules, DFS point weighting, salary tiers, pace-adjusted projections, their arbitrage scans and their eight-slot greedy lineups;
- the real-data WNBA value and prop-confidence rules;
- the historical backtest, which runs the finder over a range of instants and folds the results into a summary.

**How the source is represented**
- Prices, stakes and scores are Dafny `real`.
- `round(x, n)` is a concrete half-up rounding. Its results are proved to lie within half a unit of the last place.
- Random draws and Python's `hash()` are parameters.
- The decoded odds feed is an input value: `None` stands for a failed request.
- Loops of the source are methods proved equal to a specification function. The properties are lemmas about that function.

**Modules**

| module | models |
|---|---|
| `Numeric` | rounding, clamping, sums and the value score |
| `Seqs`, `Text`, `Grouping`, `Sorting` | Python idioms the source relies on: `max(key=)`, `str.split()`, dict-of-lists grouping, and stable `sort(reverse=True)` |
| `Odds` | the feed |
| `BestPrice` | the best-price fold |
| `ArbitrageCalculator`, `ArbitrageFinder` | the engine |
| `SimpleArbitrage` | the scan shared by the demo tool and the WNBA analyzer |
| `PropsAnalyzer` | the props analyzer |
| `LineupOptimizer` | the lineup optimizer |
| `Scoring` | DFS point weighting |
| `FlexLineup` | the shared eight-slot lineup |
| `DemoTool` | the NBA demo tool |
| `WnbaAnalyzer` | the WNBA analyzer |
| `RealWnba` | the real-data WNBA analyzer |
| `Backtest` | the backtest |

## Model

| member | source | states |
|---|---|---|
| Numeric.Round | arbitrage_bot.py:197 | `round(x, places)`, within half a unit of the last place: -0.5/10^p < r - x <= 0.5/10^p |
| Numeric.RoundMonotone | arbitrage_bot.py:197 | rounding preserves order: x <= y implies Round(x) <= Round(y) |
| Numeric.ValueScore | dfs_props_analyzer.py:280 | the value score is 0 when salary <= 0; otherwise value · (salary/1000) equals the projection; a non-negative projection gives a non-negative value |
| Numeric.Clamp | dfs_props_analyzer.py:286 | `min(hi, max(lo, x))` lies in [lo, hi], is x inside the range, lo below it and hi above it |
| Seqs.FirstMax | dfs_props_analyzer.py:359-360 | `max(s, key=)`: an index whose key is the largest and strictly larger than every earlier key, so the first maximum wins ties |
| Seqs.IndexOf | arbitrage_bot.py:302 | position of the first occurrence, -1 exactly when absent |
| Text.Tokens | dfs_props_analyzer.py:183 | `str.split()`: non-empty tokens without separators |
| Text.TokensOfPair | dfs_props_analyzer.py:183-185 | two words joined by one space split back into those two words |
| Text.ContainsAt | dfs_props_analyzer.py:144 | substring search holds exactly when the pattern occurs at some position |
| Grouping.GroupInOrder | dfs_props_analyzer.py:259-264 | the grouping loop computes GroupBy |
| Grouping.GroupByFaithful | dfs_props_analyzer.py:259-264 | one group per distinct key in first-appearance order, each non-empty and holding exactly the elements with that key in input order |
| Grouping.ElementInItsGroup | dfs_props_analyzer.py:347-352 | every element lands in the group of its own key |
| Sorting.SortDescCorrect | dfs_props_analyzer.py:310 | `sort(key, reverse=True)` gives a descending permutation of its input |
| Sorting.SortDescStable | dfs_props_analyzer.py:310 | the sort is stable: elements with equal keys keep their relative order |
| ArbitrageCalculator.ArbitrageIndex | arbitrage_bot.py:167-178 | the index is the sum of reciprocals: 0 for no prices, positive for positive prices |
| ArbitrageCalculator.ArbitrageIndexAppend | arbitrage_bot.py:178 | adding a price adds its reciprocal to the index |
| ArbitrageCalculator.Stakes | arbitrage_bot.py:192-199 | one stake per price in the same order, each within half a cent of (total/I)·(1/p) |
| ArbitrageCalculator.CalculateStakes | arbitrage_bot.py:193-199 | the append loop computes Stakes |
| ArbitrageCalculator.GuaranteedProfit | arbitrage_bot.py:213-222 | 0.0 when I >= 1; otherwise the first leg's profit, rounded, within 0.005 + 0.005·p0 of the exact profit total/I - total |
| ArbitrageCalculator.ExactPayoutEqual | arbitrage_bot.py:196 | before rounding every leg pays total/I |
| ArbitrageCalculator.ExactStakesSum | arbitrage_bot.py:195-196 | the unrounded stakes add up to the total |
| ArbitrageCalculator.ExactProfitPositiveIff | arbitrage_bot.py:215-222 | with positive prices and total, the exact profit is positive exactly when I < 1 |
| ArbitrageCalculator.RoundedPayoutSpread | arbitrage_bot.py:197-221 | after rounding, two legs' payouts differ by at most 0.005·(p_i + p_j) |
| ArbitrageCalculator.ScenarioArbitrage | test_setup.py:110-125 | [2.10, 2.05] with 100: index 830/861, stakes [49.40, 50.60], profit 3.74, payouts 103.74 and 103.73 |
| ArbitrageCalculator.ScenarioNoArbitrage | test_setup.py:128-130 | [1.90, 1.90]: index 20/19, profit 0.0 |
| BestPrice.BuildTable | arbitrage_bot.py:285-313 | the nested bookmaker/market/outcome loop computes the Aggregate fold |
| BestPrice.AddBookmaker | arbitrage_bot.py:287-313 | one bookmaker's markets folded in order |
| BestPrice.AddMarket | arbitrage_bot.py:291-313 | a market key is registered, then each outcome is folded |
| BestPrice.ApplyIsBest | arbitrage_bot.py:294-313 | an outcome has an entry exactly when some bookmaker quoted it; the entry is the first quote of the highest price |
| BestPrice.LowerQuoteChangesNothing | arbitrage_bot.py:308 | a quote no higher than the recorded best leaves the table unchanged (strict improvement only) |
| BestPrice.ApplyWellFormed | arbitrage_bot.py:294-303 | market keys are unique in the table and outcome names unique per market |
| BestPrice.AggregateShape | arbitrage_bot.py:285-313 | an event's table is well formed and holds only positive prices when the feed's are |
| BestPrice.AggregateEntryIsBest | arbitrage_bot.py:294-313 | end to end: every table entry is the first quote of the highest price for its market and outcome |
| ArbitrageFinder.AnalyzeEvent | arbitrage_bot.py:268-359 | the event loop computes EventOpportunities: the table, then the evaluation pass |
| ArbitrageFinder.EvaluateMarket | arbitrage_bot.py:316-357 | one market's evaluation computes MarketResult |
| ArbitrageFinder.FindOpportunities | arbitrage_bot.py:248-266 | a failed fetch gives nothing; otherwise the per-event results concatenated in event order |
| ArbitrageFinder.MarketResultIff | arbitrage_bot.py:316-329 | a market yields at most one opportunity, and one exactly when it has >= 2 outcomes, I < 1 and (1 - I)·100 >= the minimum |
| ArbitrageFinder.ReportedOpportunity | arbitrage_bot.py:321-355 | a report carries the event's fields; one leg per outcome in first-seen order with best odds, bookmaker and a stake within half a cent of the exact split; total stake = bet size; 0 < I < 1; margin = (1 - I)·100 >= minimum; guaranteed profit = the rounded first-leg profit; exact profit > 0 |
| ArbitrageFinder.DefaultMarginBound | config.py:25 | at the configured 0.5% minimum, a reported index is at most 0.995 |
| ArbitrageFinder.EvaluateAtMostOnePerMarket | arbitrage_bot.py:316-357 | at most one opportunity per market of the table |
| ArbitrageFinder.OpportunityLegsAreBest | arbitrage_bot.py:321-342 | each leg's odds and bookmaker are the best quote for that outcome across the event's bookmakers |
| ArbitrageFinder.NoBookmakersNoOpportunities | arbitrage_bot.py:281-282 | an event without bookmakers yields nothing |
| ArbitrageFinder.AllOpportunitiesOrigin | arbitrage_bot.py:262-264 | every opportunity found comes from one of the fetched events |
| ArbitrageFinder.EventOpportunitiesCarryId | arbitrage_bot.py:345 | each event's opportunities carry that event's id |
| SimpleArbitrage.ScanEvents | dfs_demo_tool.py:203-245 | the event loop computes ScanAll; `None` once a zero price raises |
| SimpleArbitrage.ScanTable | dfs_demo_tool.py:233-245 | the market loop computes TableScan |
| SimpleArbitrage.MarketScanIff | dfs_demo_tool.py:233-245 | a market is reported exactly when it has >= 2 outcomes, no zero best price and I < 1, with its entries in first-seen order and a positive margin; there is no margin threshold |
| SimpleArbitrage.AgreesWithFinder | wnba_dfs_analyzer.py:436-449 | with positive prices the scan reports a market exactly when the finder at minimum margin 0 does |
| SimpleArbitrage.ScanAllSucceeds | dfs_demo_tool.py:236 | with positive prices the scan never raises |
| SimpleArbitrage.ScanAllNoneSticks | dfs_demo_tool.py:203-245 | an exception on any event ends the whole scan |
| PropsAnalyzer.ExtractPlayerName | dfs_props_analyzer.py:179-186 | the input itself with fewer than two tokens; otherwise a string whose tokens are the first two tokens |
| PropsAnalyzer.ExtractIdempotent | dfs_props_analyzer.py:183-186 | extracting twice changes nothing |
| PropsAnalyzer.OrTwo | dfs_props_analyzer.py:169-170 | `x or 2.0`: never zero, and x itself when x is non-zero |
| PropsAnalyzer.GetPlayerProps | dfs_props_analyzer.py:119-177 | the nested loop computes AllProps |
| PropsAnalyzer.PropOf | dfs_props_analyzer.py:143-171 | a prop is built exactly when the lower-cased outcome name contains "point"; it carries the extracted name, the market key, the sport, the bookmaker title and the game time, with team and opponent the two teams; an "over" name prices the over side with `price or 2.0` and the under side 2.0, any other name the reverse |
| PropsAnalyzer.PropsFromFeed | dfs_props_analyzer.py:125-173 | every prop read is the prop of one outcome whose name contains "point", in a `player_` market of a bookmaker of a fetched event that has bookmakers |
| PropsAnalyzer.PropsWellFormed | dfs_props_analyzer.py:139-173 | every prop has a `player_` market key; both prices are non-zero; at most one side is quoted, the other being the 2.0 default |
| PropsAnalyzer.FeedPropsSafe | dfs_props_analyzer.py:169-170 | props read from the feed never have a zero price, so the arbitrage search never divides by zero |
| PropsAnalyzer.WeightedLines | dfs_props_analyzer.py:216-235 | the accumulator loop computes Projected for a given scoring table |
| PropsAnalyzer.ProjectedSameWeights | dfs_props_analyzer.py:220-235 | two scoring tables that agree on every market give the same projection |
| PropsAnalyzer.DefaultProjectedNonNegative | dfs_props_analyzer.py:216-235 | with the default multipliers, non-negative lines give a non-negative projection |
| PropsAnalyzer.CalculateProjectedPoints | dfs_props_analyzer.py:200-237 | the accumulator loop computes ProjectedFor |
| PropsAnalyzer.WeightIndependentOfSport | dfs_props_analyzer.py:71-90 | every scoring table gives the four prop markets the default multipliers |
| PropsAnalyzer.ProjectedIndependentOfSport | dfs_props_analyzer.py:213-235 | so the projection does not depend on the sport |
| PropsAnalyzer.ProjectedNonNegative | dfs_props_analyzer.py:216-235 | non-negative lines give a non-negative projection |
| PropsAnalyzer.OtherMarketAddsNothing | dfs_props_analyzer.py:232-233 | props of markets other than points, rebounds, assists and threes add nothing |
| PropsAnalyzer.ConfidenceScore | dfs_props_analyzer.py:314-321 | 50 below two props; otherwise min(90, 30 + 15n), in [60, 90], and 90 from four props on |
| PropsAnalyzer.SimulatedSalary | dfs_props_analyzer.py:188-198 | base + hash % 3000 lies in [base, base + 2999] (Python's `%` is non-negative) |
| PropsAnalyzer.Position | dfs_props_analyzer.py:323-332 | the position is always one of the sport's positions |
| PropsAnalyzer.Exposure | dfs_props_analyzer.py:286 | clamp((value - 2.5)·20, 0, 100): 0 up to 2.5, 100 from 7.5, linear between |
| PropsAnalyzer.PropAnalysisLast | dfs_props_analyzer.py:289-291 | a market's `prop_analysis` entry is the last prop of that market |
| PropsAnalyzer.PropAnalysisOnlyMarkets | dfs_props_analyzer.py:289-291 | every entry is the market of some prop |
| PropsAnalyzer.AnalyzeDfsValue | dfs_props_analyzer.py:239-312 | the analysis computes DfsValues on the fetched props |
| PropsAnalyzer.GroupedValues | dfs_props_analyzer.py:265-306 | the loop over the groups computes GroupValues, one value per group in group order |
| PropsAnalyzer.PlayerValue | dfs_props_analyzer.py:271-304 | one player's value computes ValueOf from the group's first prop and all its props |
| PropsAnalyzer.GroupValuesWithinRanges | dfs_props_analyzer.py:277-286 | every per-player value has its salary in the sport's range, confidence in [50, 90] and exposure in [0, 100] |
| PropsAnalyzer.DfsValuesProperties | dfs_props_analyzer.py:259-310 | one entry per (name, team) key, sorted by value score descending (a permutation of the per-player values, by Sorting.SortDescCorrect); salary in range, confidence in [50, 90], exposure in [0, 100] |
| PropsAnalyzer.FindPropArbitrage | dfs_props_analyzer.py:334-382 | the group loop computes PropArbitrages |
| PropsAnalyzer.GroupArbitrageIff | dfs_props_analyzer.py:354-380 | a group is reported exactly when it has >= 2 props and 1/over + 1/under < 1 for the first-maximum over and under; the margin is (1 - index)·100 > 0 |
| LineupOptimizer.RequirementsFor | dfs_lineup_optimizer.py:41-68 | only NBA and NFL are supported; both tables have cap 50000 and slot counts adding up to the roster size |
| LineupOptimizer.TablesConsistent | dfs_lineup_optimizer.py:44-66 | the NBA slots add up to 8 and the NFL slots to 9 |
| LineupOptimizer.OpenSlot | dfs_lineup_optimizer.py:166-174 | the first slot in dict order that is open and accepts the position (its own, G for PG/SG, F for SF/PF, UTIL), or -1 when none does |
| LineupOptimizer.FindSlot | dfs_lineup_optimizer.py:166-174 | the inner loop computes OpenSlot |
| LineupOptimizer.GreedyWithin | dfs_lineup_optimizer.py:150-178 | the greedy pass keeps roster size <= total_players, salary <= cap, each count <= its requirement, counts adding up to the roster, and salary = the roster's salaries |
| LineupOptimizer.GreedyDrawsFromInput | dfs_lineup_optimizer.py:154-177 | every selected player comes from the input |
| LineupOptimizer.FullRosterFillsEverySlot | dfs_lineup_optimizer.py:172-180 | a full roster fills every slot exactly |
| LineupOptimizer.SelectGreedily | dfs_lineup_optimizer.py:150-178 | the selection loop computes Greedy |
| LineupOptimizer.GenerateLineup | dfs_lineup_optimizer.py:130-194 | `_generate_lineup` computes Lineup: composite sort, then the greedy pass |
| LineupOptimizer.LineupProperties | dfs_lineup_optimizer.py:180-192 | a lineup has exactly total_players players from the input, keeps to the cap, and carries the sums of salaries and projections |
| LineupOptimizer.LineupScores | dfs_lineup_optimizer.py:181-183 | value · (salary/1000) = projection, and risk in [0, 100] |
| LineupOptimizer.LineupSlots | dfs_lineup_optimizer.py:172-194 | a returned lineup fills every slot exactly; `None` means the greedy pass chose fewer than total_players |
| LineupOptimizer.RiskScore | dfs_lineup_optimizer.py:196-205 | 50 for no players; always in [0, 100] |
| LineupOptimizer.RiskFollowsConfidence | dfs_lineup_optimizer.py:202-205 | confidences in [lo, hi] give a risk in [100 - hi, 100 - lo] |
| LineupOptimizer.IsDuplicate | dfs_lineup_optimizer.py:207-222 | false with no existing lineups; otherwise true exactly when some existing lineup shares >= 75% of the new lineup's distinct names |
| LineupOptimizer.Viable | dfs_lineup_optimizer.py:94 | the players with value score >= 2.0 |
| LineupOptimizer.Optimized | dfs_lineup_optimizer.py:83-128 | nothing for an unsupported sport or too few viable players; never more than lineup_count lineups |
| LineupOptimizer.OptimizeLineups | dfs_lineup_optimizer.py:70-128 | the nested attempt loops, the sort and the slice compute Optimized |
| LineupOptimizer.AttemptType | dfs_lineup_optimizer.py:110-120 | one lineup type's attempts, stopping once the list reaches lineup_count |
| LineupOptimizer.OptimizedProperties | dfs_lineup_optimizer.py:100-128 | sorted by projection descending, each lineup generated by one of the three types, so at most three lineups |
| LineupOptimizer.AcceptedNotNearDuplicates | dfs_lineup_optimizer.py:116-117 | no accepted lineup is a near-duplicate of an earlier one |
| Scoring.Multiplier | dfs_demo_tool.py:182 | a stat missing from the table weighs 0 |
| Scoring.DfsPoints | dfs_demo_tool.py:177-185 | the rounded total is within half a cent of Σ value × weight |
| Scoring.CalculateDfsPoints | wnba_dfs_analyzer.py:351-358 | the accumulator loop computes DfsPoints |
| Scoring.WeightedAppend | dfs_demo_tool.py:180-183 | the total splits over concatenated stats |
| Scoring.WeightedOrderFree | dfs_demo_tool.py:180-183 | the order of the stats does not matter |
| Scoring.UnknownStatsIgnored | wnba_dfs_analyzer.py:354 | stats the table lacks add nothing |
| Scoring.ThreePointersOnlyInDemo | wnba_dfs_analyzer.py:214-221 | three-pointers weigh 0 in the WNBA table and 0.5 in the demo table |
| FlexLineup.Place | dfs_demo_tool.py:278-294 | the slot taken is open and is the position itself, G for PG/SG, F for SF/PF, or UTIL; an unknown position raises in the demo tool and can only take UTIL in the WNBA analyzer |
| FlexLineup.ConsiderValid | dfs_demo_tool.py:268-298 | one player keeps the loop invariant |
| FlexLineup.GreedyValid | dfs_demo_tool.py:264-298 | the loop keeps <= 8 players, the cap once a player is in, each slot filled at most once, slot counts adding up to the roster, and total = the roster's salaries |
| FlexLineup.WnbaNeverRaises | wnba_dfs_analyzer.py:491-507 | the WNBA rules never raise |
| FlexLineup.KnownPositionsNeverRaise | dfs_demo_tool.py:280 | the demo rules raise only for a position that is not a slot name |
| FlexLineup.SelectPlayers | dfs_demo_tool.py:264-298 | the loop computes Greedy |
| FlexLineup.FillLineup | dfs_demo_tool.py:264-312 | the loop and the result dict compute Build |
| FlexLineup.BuiltProperties | dfs_demo_tool.py:300-312 | a lineup has 8 players from the input, total <= cap, remaining = cap - total >= 0, value · (total/1000) = projection, and every slot filled exactly once |
| FlexLineup.FullOrNothing | wnba_dfs_analyzer.py:511-523 | without a raise, a lineup is returned exactly when 8 players were chosen with a non-zero total; otherwise fewer were chosen |
| DemoTool.PairTeams | dfs_demo_tool.py:94-102 | the team loop computes Schedule |
| DemoTool.Pair | dfs_demo_tool.py:100 | `random.sample(available, 2)` gives two teams of the available list |
| DemoTool.PairDistinct | dfs_demo_tool.py:100 | from distinct available names the sample is two different teams |
| DemoTool.Available | dfs_demo_tool.py:96 | a team is available exactly when it is listed and not used |
| DemoTool.ScheduleFresh | dfs_demo_tool.py:94-102 | at most the remaining number of games, each pairing two different listed teams not used before it |
| DemoTool.ScheduleStops | dfs_demo_tool.py:96-98 | the schedule stops short of num_games only when fewer than two unused teams remain |
| DemoTool.ScheduleDisjoint | dfs_demo_tool.py:94-102 | no team appears in two games |
| DemoTool.NoTeamPlaysTwice | dfs_demo_tool.py:94-102 | at most num_games games, two different listed teams each, no team in two games; fewer games only when < 2 unused teams remained |
| DemoTool.BaseSalary | dfs_demo_tool.py:112-114 | the base salary by position lies in [7500, 8500] |
| DemoTool.StarMultiplier | dfs_demo_tool.py:117-121 | the multiplier is 1.0, 1.2 or 1.3 |
| DemoTool.Truncate | dfs_demo_tool.py:123 | `int()` truncates toward zero |
| DemoTool.SimulatedSalary | dfs_demo_tool.py:123-124 | the salary lies in [4000, 12000] and is the raw salary whenever that is in range |
| DemoTool.SalaryMonotone | dfs_demo_tool.py:123-124 | a larger draw never gives a smaller salary |
| DemoTool.RegularSalaryUnclamped | dfs_demo_tool.py:112-124 | without star power the clamp never binds on a draw in [0.8, 1.2] |
| DemoTool.SimulatedConfidence | dfs_demo_tool.py:136-137 | at most 95, the raw value when that is <= 95, and >= 54 for draws >= 60 |
| DemoTool.MakePlayer | dfs_demo_tool.py:123-150 | salary in [4000, 12000], confidence <= 95, points = DfsPoints(stats), value · (salary/1000) = points |
| DemoTool.RealArbitrage | dfs_demo_tool.py:196-199 | nothing when the fetch gave nothing |
| DemoTool.AnalyzeRealArbitrage | dfs_demo_tool.py:187-247 | the method computes RealArbitrage |
| DemoTool.RealArbitrageSucceeds | dfs_demo_tool.py:236 | with positive prices it never raises |
| DemoTool.CreateOptimalLineup | dfs_demo_tool.py:249-312 | the method computes OptimalLineup: sort by value descending, then the greedy pass |
| DemoTool.OptimalLineupProperties | dfs_demo_tool.py:256-312 | known positions with positive salaries never raise; a lineup has 8 input players, total <= cap, remaining >= 0 |
| WnbaAnalyzer.RandInt | wnba_dfs_analyzer.py:339 | `randint(lo, hi)` lies in [lo, hi) |
| WnbaAnalyzer.TierSalary | wnba_dfs_analyzer.py:338-347 | the five tiers: >= 35 in [9500, 10999], >= 30 in [8000, 9499], >= 25 in [6500, 7999], >= 20 in [5000, 6499], else [4000, 4999] |
| WnbaAnalyzer.TiersOrdered | wnba_dfs_analyzer.py:338-347 | a higher average never falls into a lower tier, and a higher tier always pays more |
| WnbaAnalyzer.BaseSalary | wnba_dfs_analyzer.py:332-349 | the salary lies in [4000, 10999] |
| WnbaAnalyzer.PaceMultiplier | wnba_dfs_analyzer.py:289 | defined exactly for Fast, Average and Slow, with a value in [0.9, 1.1] |
| WnbaAnalyzer.Factor | wnba_dfs_analyzer.py:295-299 | pace multiplies only pace stats; a pace of 1.0 leaves only the variance |
| WnbaAnalyzer.ProjectStatsLoop | wnba_dfs_analyzer.py:292-299 | the stats loop computes ProjectStats |
| WnbaAnalyzer.PaceOnlyForPaceStats | wnba_dfs_analyzer.py:296-299 | stats other than points, assists and steals project the same at any pace |
| WnbaAnalyzer.FirstGame | wnba_dfs_analyzer.py:278-282 | the first listed game of the team; none exactly when the team plays in no game |
| WnbaAnalyzer.PlayingTeams | wnba_dfs_analyzer.py:268-272 | exactly the home and away teams of the games |
| WnbaAnalyzer.CollectPlayingTeams | wnba_dfs_analyzer.py:269-272 | the loop computes PlayingTeams |
| WnbaAnalyzer.FindGame | wnba_dfs_analyzer.py:278-282 | the loop with `break` computes FirstGame |
| WnbaAnalyzer.Project | wnba_dfs_analyzer.py:284-326 | a player is built exactly when the pace rating and the team abbreviation are known; name and team from the star, salary in the tier range, value = ValueScore(projection, salary) |
| WnbaAnalyzer.GenerateProjections | wnba_dfs_analyzer.py:264-330 | the loop computes Projections |
| WnbaAnalyzer.ProjectionsOfPlayingTeams | wnba_dfs_analyzer.py:275-276 | no more projections than stars, each from a star whose team plays, with a tier salary and a consistent value score |
| WnbaAnalyzer.PlayingIndicesExact | wnba_dfs_analyzer.py:275-276 | the indices of the playing stars: increasing, each a star whose team plays, none missed |
| WnbaAnalyzer.ProjectionsOnePerStar | wnba_dfs_analyzer.py:275-328 | exactly one projection per playing star, in table order: the k-th carries the name and team of the k-th playing star |
| WnbaAnalyzer.ProjectionsGrow | wnba_dfs_analyzer.py:275-328 | a successful projection extends the projection of all stars but the last |
| WnbaAnalyzer.PlayingStarProjected | wnba_dfs_analyzer.py:275-328 | every star whose team plays is projected |
| WnbaAnalyzer.WnbaArbitrage | wnba_dfs_analyzer.py:392-455 | nothing for no events or when an error escapes, otherwise the scan's result |
| WnbaAnalyzer.GetWnbaArbitrageOpportunities | wnba_dfs_analyzer.py:392-455 | the method computes WnbaArbitrage |
| WnbaAnalyzer.Healthy | wnba_dfs_analyzer.py:473 | exactly the players whose status is Healthy |
| WnbaAnalyzer.CreateOptimalLineup | wnba_dfs_analyzer.py:457-523 | the method computes OptimalLineup: sort, healthy filter, greedy pass |
| WnbaAnalyzer.OptimalLineupProperties | wnba_dfs_analyzer.py:470-523 | positive salaries never raise; a lineup has 8 healthy input players, total <= cap, remaining = cap - total >= 0 |
| RealWnba.StatusMultiplier | real_wnba_analyzer.py:153-160 | in [0, 1]; 0 exactly for Out; 1 for an unknown status |
| RealWnba.PaceFactor | real_wnba_analyzer.py:167-169 | 1 without matchup info or with an empty dict; otherwise the dict's pace_factor when present |
| RealWnba.RawProjection | real_wnba_analyzer.py:148-169 | status Out gives 0 |
| RealWnba.FormAdjustment | real_wnba_analyzer.py:202 | the form is clamped to [0.7, 1.3] |
| RealWnba.Confidence | real_wnba_analyzer.py:207-211 | the rounded percentage is <= 95, and >= 0 for non-negative factors |
| RealWnba.CalculatePropConfidence | real_wnba_analyzer.py:185-213 | the loop computes PropConfidences |
| RealWnba.PropConfidenceBounds | real_wnba_analyzer.py:189-211 | six scores in table order, each <= 95, and in [0, 100] for a non-negative consistency |
| RealWnba.CapBinds | real_wnba_analyzer.py:210 | the cap binds within the draw ranges: points at consistency 1.2 and form 1.3 score exactly 95 |
| RealWnba.FormClamped | real_wnba_analyzer.py:202 | any form above 1.3 scores like 1.3, any below 0.7 like 0.7 |
| RealWnba.AnalyzePlayerValue | real_wnba_analyzer.py:146-183 | projection and value rounded within half a unit of the raw ones; Out gives 0 and 0; salary <= 0 gives value 0; the confidence scores |
| Backtest.HistoricalOpportunities | backtest_strategy.py:53-71 | a failed or empty fetch gives nothing |
| Backtest.FindHistoricalOpportunities | backtest_strategy.py:34-71 | the loop concatenates the per-event results in order |
| Backtest.HistoricalOrigin | backtest_strategy.py:67-69 | every opportunity of a date belongs to one of its fetched events |
| Backtest.DayOutcome | backtest_strategy.py:111-142 | a date yields opportunities exactly when its processing does not raise |
| Backtest.InstantsChronological | backtest_strategy.py:106-144 | the instants are start + i·interval, all <= end, and the next one would be past end |
| Backtest.Better | backtest_strategy.py:133-137 | the record changes only on a date with opportunities, and then only to that date's first maximum |
| Backtest.DailyProfit | backtest_strategy.py:116 | the sum loop computes Profits |
| Backtest.VisitInstant | backtest_strategy.py:111-142 | one date's processing computes Visit: a date that raises leaves the results as they were, any other date is recorded |
| Backtest.BacktestDateRange | backtest_strategy.py:73-146 | the while loop computes the Summary fold over the instants |
| Backtest.Processed | backtest_strategy.py:111-142 | the dates that did not raise |
| Backtest.SummaryTallied | backtest_strategy.py:116-131 | dates_checked = number of daily entries; total_opportunities and total_profit are their sums; dates_with_opportunities counts the non-empty ones and is <= dates_checked |
| Backtest.SummaryDates | backtest_strategy.py:111-144 | one daily entry per date that did not raise, in visiting order, holding its opportunities |
| Backtest.AllRaisedNothingCounted | backtest_strategy.py:141-144 | if every date raises, the summary stays as initialised |
| Backtest.BestIsFirstMaximum | backtest_strategy.py:130-137 | best is `None` exactly when no date had an opportunity; otherwise it has the largest margin seen, and every earlier opportunity has a strictly smaller one |

## Left out

- The HTTP client: session, retries, sleeping, rate-limit headers and JSON decoding. The decoded event list is an input, and `None` stands for a failed request.
- The shape of the historical endpoint's response is not modelled: each instant's decoded events are a parameter.
- Printing, colours, `display_*`, CSV export, `input()` prompts, argument parsing and every `main()`.
- IEEE floating point:
  - prices and scores are exact reals;
  - `round` is round-half-up on exact reals, not Python's round-half-even on binary floats, so results can differ on exact ties;
  - NaN and infinities do not exist.
- Randomness and `hash()` are parameters: uniform and normal draws, `random.sample`, `np.random.choice` and `randint` draws, and name hashes. Their distributions are not modelled.
- `_generate_projected_stats` in the demo tool and the WNBA categorical picks (matchup, form, injury) arrive as inputs. `generate_game_bets` and `generate_player_prop_recommendations` are random picks for display and are not modelled.
- Unicode: strings are sequences of characters. `lower()` folds ASCII letters only, and `split()` uses the ASCII whitespace set.
- Date parsing and formatting (`parse_date`, `strptime`, `fromisoformat`, `strftime`). Backtest instants are whole hours.
- ArbitrageFinder.AnalyzeEvent and the other finder and backtest members require positive prices, while the source divides by any price. A zero price raises `ZeroDivisionError` in the source. That exception is modelled only in the demo and WNBA scans, where it is caught or ends the scan.
- Backtest.BacktestDateRange: requires positive prices. A zero price in a snapshot would raise inside the `try` and skip the date; the model does not cover it.
- LineupOptimizer.GenerateLineup, LineupOptimizer.OptimizeLineups and LineupOptimizer.Optimized require positive salaries. The source divides by the lineup's salary total, which would raise for a lineup whose salaries total 0. The salaries produced by `_simulate_player_salary` are always at least 6000.
- The web application, the management and deployment scripts, the CLI configuration glue and the test scripts. The test scripts serve only as the source of the two numeric scenarios.

Points of the code's behaviour worth knowing:
- For the two-outcome example with prices 2.10 and 2.05, the code gives index 830/861 ≈ 0.9640, stakes [49.40, 50.60] and profit 3.74.
- The guaranteed profit is taken from the first leg only. After rounding, the legs' payouts differ by up to half a cent per unit of price (103.74 and 103.73 in that example).
- `create_optimal_lineup` in the demo tool raises `KeyError` for a position that is not a slot name. The WNBA version lets such a player take UTIL.
- A full lineup whose salaries total 0 would divide by zero; the model reports it as raised.
