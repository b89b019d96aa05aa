# Cycle predictions and the profile store, in Dafny

This project models the computational core of a menstrual-cycle tracking app. The core has three parts.

- **The Bayesian cycle engine** (`utils/cycle_engine.ts`) works as follows.
  - It keeps a prior over the cycle length K (26..32) and the bleed length L (2..7).
  - It holds a 28-day receptivity template. The head of the template is a table; its tail (days 18..28) is filled by a loop at load time.
  - `interpCurve` rescales the template to K days.
  - A likelihood multiplies 0.95 or 0.05 per observed bleeding day.
  - `buildPosterior` builds the 189 rows of the (K, L, r) grid and normalises their weights in place.
  - `scoreForTarget` sums the normalised weights per category (regla, perrisima, horny, nifunifa) for a target day, then rounds each score to four decimals.
- **The older predictor** (`utils/predictions.ts`) works as follows.
  - It uses truncated-normal distributions over cycle lengths 24..35 and bleed lengths 2..8.
  - The cycle distribution depends on the observations. With zero or one observation it is the base curve. With two, the base curve is reweighted by the gap between them. With three or more, it is a normal fitted to the mean and spread of the gaps.
  - `predictForDate` takes a double sum over both distributions. The reference is the most recent observation on or before the target.
  - `getMainCategory` and `getConfidence` read the result.
- **The profile store** (`store/useProfileStore.ts`) holds a list of profiles, each with its observations. Its actions add, update and delete profiles, add and delete observations, reorder the profiles and clear the store.

Modelling conventions:

- Dates are integer day numbers, and an observation's `fecha` is its day.
- Arithmetic is exact: `real` for probabilities, `int` for days.
- JavaScript's `%` truncates toward zero. It is modelled as `Numeric.TruncRem` and kept as written, negative operands included.
- `Math.round` is floor(x + 1/2). `Math.round(x * 10000) / 10000` is `Numeric.Round4`.
- `Math.exp` and `Math.sqrt` are function parameters. `exp` is assumed positive.
- Where the source fills a `Map` or a list in a loop, the model has a method with the loop. That method is proved equal to a specification function, and the properties are proved about the function.
- The store is the class `ProfileStore.Store` with a `profiles` field. Each action is a method whose new state is a pure transition function of the old one.

Proved properties include:

- Every distribution sums to 1 over exactly its key range.
- The posterior weights are positive and sum to 1, so the uniform fallback in `buildPosterior` is unreachable.
- The scores of both predictors lie in [0, 1] and add up to 1. The engine's sum is within 2·10⁻⁴ of 1 after rounding.
- A target on the reference day scores all regla.
- `perrisima` is always 0 in `scoreForTarget`. The template's maximum is 0.70, below the 0.75 threshold.
- The cycle distribution does not depend on the order of the observations.
- `getMainCategory` is the first category holding the maximum.
- `addObservation` keeps each observation list sorted and free of duplicate days, and `deleteObservation` undoes it.
- After `reorderProfiles` the orders are exactly 0..n−1, and the next added profile gets order n.

## Model

| member | source | states |
|---|---|---|
| Numeric.TruncRem | utils/cycle_engine.ts:87 | JavaScript's `%`: the remainder has the sign of the dividend and magnitude below the divisor |
| Numeric.TruncRemEuclid | utils/predictions.ts:191-194 | the truncated remainder equals the Euclidean one for non-negative or divisible dividends, and is b less otherwise |
| Numeric.Round | utils/predictions.ts:224 | `Math.round` gives the integer within one half of x |
| Numeric.Round4 | utils/cycle_engine.ts:217-220 | rounding to four decimals moves x by at most 0.00005 and keeps [0, 1] values in [0, 1] |
| Numeric.Max | utils/predictions.ts:84 | `Math.max` of two values is one of them and no smaller than either |
| Types.AddTo | utils/cycle_engine.ts:204-212 | adding weight to one category adds exactly that weight to the total |
| Types.AddToValue | utils/predictions.ts:203-211 | the chosen category's mass grows by the weight |
| Types.AddToOthers | utils/predictions.ts:203-211 | every other category's mass is unchanged |
| Types.Value | utils/predictions.ts:233-238 | defines the score a record holds for one category key |
| Types.Rank | utils/predictions.ts:239-242 | defines the position of each category among the record's keys, the order `Object.entries` visits them in |
| Types.Total | utils/cycle_engine.ts:215 | defines the sum of the four masses, `regla + perrisima + horny + nifunifa` |
| Sorting.Insert | store/useProfileStore.ts:98-100 | insertion adds exactly one element, keeping the rest (multiset) |
| Sorting.InsertSorted | store/useProfileStore.ts:98-100 | inserting into a sorted list keeps it sorted |
| Sorting.SortBy | store/useProfileStore.ts:98-100 | the stable sort returns a sorted permutation of its input |
| Sorting.InsertLargest | store/useProfileStore.ts:98-100 | an element no smaller than all others goes at the end |
| Sorting.SortSorted | store/useProfileStore.ts:98-100 | sorting a sorted list changes nothing |
| Sorting.InsertStrict | store/useProfileStore.ts:94-100 | inserting a new key into a strictly sorted list keeps it strictly sorted |
| CycleEngine.PriorTablesAreDistributions | utils/cycle_engine.ts:5-11 | P_K and P_L have keys exactly 26..32 and 2..7, positive values, each summing to 1 |
| CycleEngine.FillBase28 | utils/cycle_engine.ts:14-25 | the load-time loop fills days 1..28 with the template |
| CycleEngine.Base28Range | utils/cycle_engine.ts:14-25 | every template value lies in [0.05, 0.70] |
| CycleEngine.Base28Tail | utils/cycle_engine.ts:20-25 | the tail runs from 0.22 on day 18 to 0.12 on day 28, falling by 0.01 a day |
| CycleEngine.SegmentValue | utils/cycle_engine.ts:55-60 | on the segment containing x, the linear interpolation is the template's value at x |
| CycleEngine.InterpAt | utils/cycle_engine.ts:48-62 | one interpolated point equals the piecewise-linear template at that position |
| CycleEngine.InterpCurve | utils/cycle_engine.ts:37-66 | the loop builds exactly the rescaled curve for K |
| CycleEngine.TemplateAtRange | utils/cycle_engine.ts:37-41 | interpolated values stay within [0.05, 0.70] |
| CycleEngine.CurveShape | utils/cycle_engine.ts:37-66 | the curve has K points, starts at 0.05, ends at 0.12 and stays in [0.05, 0.70] |
| CycleEngine.Hits | utils/cycle_engine.ts:84-93 | the number of observations inside the bleed window is at most the number of observations |
| CycleEngine.ComputeLikelihood | utils/cycle_engine.ts:68-95 | the product loop computes 0.95^hits · 0.05^misses |
| CycleEngine.LikelihoodPush | utils/cycle_engine.ts:88-92 | each observation multiplies by 0.95 in the window and 0.05 outside |
| CycleEngine.LikelihoodPositive | utils/cycle_engine.ts:83-94 | the likelihood is always positive |
| CycleEngine.ReferenceInBleed | utils/cycle_engine.ts:85-89 | the reference day itself is day r of the cycle, inside the bleed window |
| CycleEngine.EarlierDays | utils/cycle_engine.ts:87 | before the reference, the truncated `%` gives day ≤ 0 unless the offset divides K |
| CycleEngine.GridShape | utils/cycle_engine.ts:120-132 | the grid has 189 cells, exactly the valid (K, L, r), in loop order |
| CycleEngine.CellAtIndex | utils/cycle_engine.ts:120-131 | every valid cell has a position in the grid |
| CycleEngine.IndexCellAt | utils/cycle_engine.ts:120-131 | every grid position holds a valid cell |
| CycleEngine.IndexOrder | utils/cycle_engine.ts:120-131 | the loop order of cells is their position order |
| CycleEngine.MakeRow | utils/cycle_engine.ts:126-129 | one pushed row carries prior · likelihood as its weight |
| CycleEngine.PushPhases | utils/cycle_engine.ts:125-130 | the r loop extends the rows by one row per phase |
| CycleEngine.RawRows | utils/cycle_engine.ts:120-132 | the nested loops push all 189 rows in grid order |
| CycleEngine.Normalise | utils/cycle_engine.ts:134-145 | the in-place pass sets each w_norm to w / total (or 1/n) |
| CycleEngine.BuildPosterior | utils/cycle_engine.ts:106-148 | buildPosterior returns the posterior of the observations |
| CycleEngine.PosteriorShape | utils/cycle_engine.ts:113-147 | no observations: no rows and no t0; otherwise t0 is the last date and the rows are the grid with their curves |
| CycleEngine.RawWeightsPositive | utils/cycle_engine.ts:126-128 | every raw weight is positive |
| CycleEngine.FallbackUnreachable | utils/cycle_engine.ts:134-140 | the total weight is positive, so the uniform fallback never runs |
| CycleEngine.NormalisedSumsToOne | utils/cycle_engine.ts:134-145 | the normalised weights sum to 1, on both branches |
| CycleEngine.NormalisedWeights | utils/cycle_engine.ts:141-145 | with positive raw weights each w_norm is positive and equals w / total |
| CycleEngine.PosteriorWeights | utils/cycle_engine.ts:106-148 | the posterior's weights are positive and sum to 1 |
| CycleEngine.ValidDates | utils/cycle_engine.ts:172-185 | filtering keeps at most the input's dates |
| CycleEngine.ValidDatesEmpty | utils/cycle_engine.ts:172-189 | nothing survives the filter exactly when every date is invalid |
| CycleEngine.PosteriorCycles | utils/cycle_engine.ts:120-132 | every posterior row has a valid cell and a positive K |
| CycleEngine.FilterDates | utils/cycle_engine.ts:172-185 | the map/filter pass keeps exactly the valid dates |
| CycleEngine.AddRow | utils/cycle_engine.ts:200-212 | one row adds its w_norm to the category of its cycle day |
| CycleEngine.Tally | utils/cycle_engine.ts:199-213 | the loop accumulates every row's weight into its category |
| CycleEngine.ScoreForTarget | utils/cycle_engine.ts:157-224 | scoreForTarget returns the score of the dates for the target, null when none is valid |
| CycleEngine.ScoreObservations | utils/cycle_engine.ts:191-223 | on valid dates, the score is the rounded category masses |
| CycleEngine.NormaliseInPlace | utils/cycle_engine.ts:215-221 | the final pass divides by the sum when positive and rounds to four decimals |
| CycleEngine.ScoreNull | utils/cycle_engine.ts:167-189 | the result is null exactly when no date is valid |
| CycleEngine.CategoryRegla | utils/cycle_engine.ts:204-205 | a row votes regla exactly when the target is inside its bleed window |
| CycleEngine.EarlierDayNifunifa | utils/cycle_engine.ts:201-211 | a day ≤ 0 reads no template value and votes nifunifa |
| CycleEngine.AccumulateTotal | utils/cycle_engine.ts:199-213 | the four masses add up to the sum of the normalised weights |
| CycleEngine.AccumulateMasses | utils/cycle_engine.ts:199-213 | with template values below 0.75, masses are non-negative and perrisima stays 0 |
| CycleEngine.NotPerrisima | utils/cycle_engine.ts:206 | no row whose curve stays below 0.75 votes perrisima |
| CycleEngine.Normalise4Bounds | utils/cycle_engine.ts:215-221 | from masses summing to 1, each score lies in [0, 1] and they sum to within 2·10⁻⁴ of 1 |
| CycleEngine.DivOne | utils/cycle_engine.ts:215-221 | dividing masses that sum to 1 by their sum leaves them as they are |
| CycleEngine.RoundedSum | utils/cycle_engine.ts:217-220 | four rounded shares of 1 stay in [0, 1] and sum to within 2·10⁻⁴ of 1 |
| CycleEngine.ScoreBounds | utils/cycle_engine.ts:157-224 | every score lies in [0, 1], they sum to within 2·10⁻⁴ of 1, and perrisima is 0 |
| CycleEngine.AccumulateAllRegla | utils/cycle_engine.ts:199-213 | if every row votes regla, all the mass is regla |
| CycleEngine.ReferenceDayRows | utils/cycle_engine.ts:201-205 | on the reference day every valid row votes regla |
| CycleEngine.ScoreOnReferenceDay | utils/cycle_engine.ts:191-223 | the score of the last observed day is regla 1, everything else 0 |
| CycleEngine.CycleDay | utils/cycle_engine.ts:87 | defines the cycle day `((r + d - 1) % K) + 1` of a day d days after the reference, with the truncating `%` |
| CycleEngine.Likelihood | utils/cycle_engine.ts:68-95 | defines the likelihood of the observations under (K, L, r) as 0.95 per observation inside a bleed window times 0.05 per one outside |
| CycleEngine.PosteriorOf | utils/cycle_engine.ts:106-148 | defines the value buildPosterior returns: the grid rows with their weights and normalised weights, referenced at the last observation, or no rows and no reference for an empty list |
| CycleEngine.CategoryOf | utils/cycle_engine.ts:200-212 | defines the category a row's weight goes to for the target day: regla inside the bleed window, otherwise by the desire thresholds, nifunifa when the desire is undefined |
| CycleEngine.Score | utils/cycle_engine.ts:157-224 | defines the value scoreForTarget returns: null when no date parses, otherwise the normalised, rounded masses of the posterior at the target day |
| CycleEngine.ScoreOf | utils/cycle_engine.ts:191-223 | defines scoreForTarget once some date has parsed: the masses of the posterior rows at the target's offset from the last observation, normalised and rounded |
| CycleEngine.Base28 | utils/cycle_engine.ts:14-25 | defines BASE_28 once the load-time loop has run: the table for days 1..17, then the straight line from 0.22 on day 18 to 0.12 on day 28 |
| CycleEngine.OldY | utils/cycle_engine.ts:43 | defines `old_y[j]`, the template value of day j + 1 |
| CycleEngine.Knot | utils/cycle_engine.ts:42 | defines `old_x[j]` = j / 27 |
| CycleEngine.Position | utils/cycle_engine.ts:44 | defines `new_x[i]`: i / (K - 1), or 0 when K is 1 |
| CycleEngine.InSegment | utils/cycle_engine.ts:56 | defines the search loop's test `old_x[j] <= nx <= old_x[j + 1]` |
| CycleEngine.Lerp | utils/cycle_engine.ts:57-58 | defines the linear interpolation `old_y[j] + t * (old_y[j + 1] - old_y[j])` |
| CycleEngine.TemplateAt | utils/cycle_engine.ts:47-62 | defines the value interpCurve computes for one point: the first template value at or below 0, the last at or above 1, and the interpolation on the segment holding the point in between |
| CycleEngine.Curve | utils/cycle_engine.ts:37-66 | defines the array interpCurve(K) returns: the template read at each of the K points |
| CycleEngine.InBleed | utils/cycle_engine.ts:88 | defines the window test `1 <= cd <= L` on the cycle day |
| CycleEngine.Factor | utils/cycle_engine.ts:88-92 | defines one observation's factor: 0.95 inside a bleed window, 0.05 outside |
| CycleEngine.Grid | utils/cycle_engine.ts:120-125 | defines the enumeration of the (K, L, r) cells: K ascending outermost, then L, then r from 1 to L |
| CycleEngine.Prior | utils/cycle_engine.ts:126 | defines the prior `pk * pl * (1.0 / L)` of a cell |
| CycleEngine.Weight | utils/cycle_engine.ts:126-128 | defines a row's weight `w`, prior times likelihood |
| CycleEngine.RawRow | utils/cycle_engine.ts:129 | defines the row pushed for a cell: K, L, r, its weight, `w_norm` 0 and the curve interpCurve(K) |
| CycleEngine.TotalWeight | utils/cycle_engine.ts:134 | defines `total`, the sum of the rows' weights in row order |
| CycleEngine.NormWeight | utils/cycle_engine.ts:135-145 | defines one row's `w_norm`: 1/n when the total is not positive, otherwise w / total |
| CycleEngine.Normalised | utils/cycle_engine.ts:134-145 | defines the rows after the normalisation pass, each with its `w_norm` set |
| CycleEngine.Desire | utils/cycle_engine.ts:202 | defines `sK[cd - 1]`, which is undefined when cd - 1 is not an index of the curve |
| CycleEngine.Accumulate | utils/cycle_engine.ts:199-213 | defines the row loop: each row's `w_norm` added, in row order, to the category of its cycle day |
| CycleEngine.Normalise4 | utils/cycle_engine.ts:215-221 | defines the final pass: each mass divided by the total and rounded to four decimals when the total is positive, left as it is otherwise |
| Predictions.GaussWeights | utils/predictions.ts:15-20 | the unnormalised weights have keys exactly lo..hi, each the Gaussian kernel at x |
| Predictions.RescaledDistribution | utils/predictions.ts:22-25 | dividing positive weights by their sum gives a distribution |
| Predictions.RescaledPositive | utils/predictions.ts:22-25 | rescaling by a positive sum keeps weights positive |
| Predictions.TruncatedNormal | utils/predictions.ts:5-28 | normalTruncated is a distribution over lo..hi (empty when hi < lo) |
| Predictions.Renormalise | utils/predictions.ts:23-25 | the in-place pass divides each weight by the sum |
| Predictions.FillGauss | utils/predictions.ts:15-20 | the first loop fills the weights and their sum |
| Predictions.NormalTruncated | utils/predictions.ts:5-28 | both loops together compute the truncated normal |
| Predictions.BaseCycle | utils/predictions.ts:33 | the base cycle curve is a distribution over 24..35 |
| Predictions.RuleDistribution | utils/predictions.ts:88-90 | the bleed-length curve is a distribution over 2..8 |
| Predictions.GapWeights | utils/predictions.ts:53-60 | the reweighted values have keys 24..35, each base · kernel of the gap |
| Predictions.GapDistribution | utils/predictions.ts:44-68 | the reweighted base curve is a distribution over 24..35 |
| Predictions.GapWeightsPositive | utils/predictions.ts:53-65 | the reweighted values are positive, so their sum is too and normalising gives a distribution |
| Predictions.CycleDistribution | utils/predictions.ts:31-85 | for any observations the cycle curve is a distribution over 24..35 |
| Predictions.SpreadDistribution | utils/predictions.ts:71-84 | the curve fitted to three or more dates is a distribution over 24..35 |
| Predictions.DeltasTelescope | utils/predictions.ts:72-77 | the gaps between sorted dates add up to last − first |
| Predictions.DeltasNonNegative | utils/predictions.ts:72-77 | gaps between sorted dates are non-negative |
| Predictions.MeanGap | utils/predictions.ts:79 | the mean gap is (last − first) / (n − 1) |
| Predictions.SortedUnique | utils/predictions.ts:36-38 | two sorted lists with the same elements are equal |
| Predictions.CycleDistributionOrderFree | utils/predictions.ts:36-38 | the cycle curve depends only on the multiset of dates, not their order |
| Predictions.FillGap | utils/predictions.ts:53-60 | the loop over c fills the reweighted values and their sum |
| Predictions.GapsOf | utils/predictions.ts:71-77 | the loop pushes the consecutive gaps |
| Predictions.GetCycleDistribution | utils/predictions.ts:31-85 | getCycleDistribution computes the cycle curve on each branch |
| Predictions.FromGap | utils/predictions.ts:44-68 | the two-date branch computes the reweighted base curve |
| Predictions.FromSpread | utils/predictions.ts:70-84 | the three-or-more branch computes the fitted curve |
| Predictions.GetRuleDistribution | utils/predictions.ts:88-90 | getRuleDistribution computes the bleed-length curve |
| Predictions.BaseDesire | utils/predictions.ts:93-129 | the desire curve always lies in [0.05, 0.70] |
| Predictions.BaseDesireIsTemplate | utils/predictions.ts:93-129 | on days 1..28 the curve is the cycle engine's 28-day template |
| Predictions.DesireBands | utils/predictions.ts:205-209 | desire ≥ 0.60 exactly on days 13..15; in [0.30, 0.60) exactly on 10..12 and 16..17 |
| Predictions.OnOrBefore | utils/predictions.ts:136-138 | the filter keeps exactly the dates on or before the target |
| Predictions.MostRecentIsLatest | utils/predictions.ts:132-142 | null exactly when every date is after the target; otherwise the latest date on or before it |
| Predictions.DayInCycle | utils/predictions.ts:191-194 | the day in the cycle always lies in 1..c |
| Predictions.DayInCycleMod | utils/predictions.ts:191-194 | it equals the Euclidean dd mod c + 1, so it repeats every c days |
| Predictions.PairCategoryBands | utils/predictions.ts:203-211 | regla iff k ≤ r; otherwise perrisima iff 13 ≤ k ≤ 15, horny iff k in 10..12 or 16..17, nifunifa otherwise |
| Predictions.RowWeights | utils/predictions.ts:189-197 | one cycle length gives one weight per bleed length 2..8 |
| Predictions.Grid | utils/predictions.ts:188-197 | the weight grid has one row per cycle length 24..35 |
| Predictions.Fechas | utils/predictions.ts:137 | the days of the observations, in order |
| Predictions.TallyPair | utils/predictions.ts:191-211 | one pair adds its weight to its category and k · weight to the day sum |
| Predictions.TallyRow | utils/predictions.ts:189-212 | the inner loop tallies one row |
| Predictions.TallyGrid | utils/predictions.ts:188-213 | the nested loops tally the whole grid |
| Predictions.FinishTally | utils/predictions.ts:215-224 | the masses are divided by their sum when positive, and the mean day rounded (1 without weight) |
| Predictions.PredictWith | utils/predictions.ts:188-224 | the loops and the final pass compute the prediction for a day offset |
| Predictions.PredictObserved | utils/predictions.ts:166-224 | with observations, the prediction counts days from the reference observation |
| Predictions.PredictForDate | utils/predictions.ts:145-230 | predictForDate returns the fixed base probabilities without observations, and the prediction otherwise |
| Predictions.RulesBalanced | utils/predictions.ts:199-211 | the inner loop adds each weight to exactly one category and to the total |
| Predictions.RulesNonNegative | utils/predictions.ts:203-211 | with positive weights, the masses stay non-negative |
| Predictions.RulesDays | utils/predictions.ts:199-200 | the day sum stays within 1..35 times the weight |
| Predictions.CyclesBalanced | utils/predictions.ts:188-213 | over the whole grid the four masses add up to the total weight |
| Predictions.CyclesNonNegative | utils/predictions.ts:188-213 | over the whole grid the masses are non-negative |
| Predictions.CyclesDays | utils/predictions.ts:188-213 | over the whole grid the day sum is within 1..35 times the weight |
| Predictions.RulesWeight | utils/predictions.ts:197-200 | the inner loop adds the row's weights to the total |
| Predictions.CyclesWeight | utils/predictions.ts:188-213 | the total weight is the sum of all grid weights |
| Predictions.RowWeightSum | utils/predictions.ts:189-197 | one row's weights sum to probC times the bleed distribution's sum |
| Predictions.GridWeightProduct | utils/predictions.ts:188-197 | the grid's weights sum to the product of the two distributions' sums |
| Predictions.GridPositive | utils/predictions.ts:197 | every weight of the grid is positive |
| Predictions.GridWeight | utils/predictions.ts:188-213 | from two distributions the total weight is 1, masses are non-negative and sum to 1, and the day sum lies in 1..35 |
| Predictions.FinishOfUnitWeight | utils/predictions.ts:215-224 | with unit weight normalising changes nothing, scores lie in [0, 1], and the expected day lies in 1..35 |
| Predictions.PredictFromBounds | utils/predictions.ts:188-224 | from two distributions the scores lie in [0, 1], add up to 1, and the expected day lies in 1..35 |
| Predictions.PredictionBounds | utils/predictions.ts:145-230 | predictForDate with observations gives scores in [0, 1] summing to 1 and an expected day in 1..35 |
| Predictions.RulesOnDayOne | utils/predictions.ts:203-204 | on day 1 of the cycle every pair votes regla |
| Predictions.CyclesOnReferenceDay | utils/predictions.ts:188-213 | with offset 0, all the mass is regla |
| Predictions.PredictFromReferenceDay | utils/predictions.ts:188-224 | offset 0 predicts regla 1, everything else 0, expected day 1 |
| Predictions.PredictionOnObservedDay | utils/predictions.ts:180-224 | on an observed day the prediction is regla 1, expected day 1 |
| Predictions.MainCategory | utils/predictions.ts:233-247 | the chosen category holds the maximum, and every earlier category is strictly smaller |
| Predictions.MainCategoryUnique | utils/predictions.ts:244-246 | only one category is maximal with every earlier one strictly smaller |
| Predictions.Confidence | utils/predictions.ts:250-257 | the confidence is the maximum score, the main category's |
| Predictions.MostRecent | utils/predictions.ts:132-142 | defines getMostRecentObservation: the first of the days on or before the target once sorted newest first, or nothing |
| Predictions.DesireCategory | utils/predictions.ts:93-129 | defines the category the base desire curve gives day k of the cycle: perrisima where the desire reaches 0.60, horny where it reaches 0.30, nifunifa elsewhere |
| Predictions.PairCategory | utils/predictions.ts:203-211 | defines the category of day k of the cycle for bleed length r: regla when k <= r, otherwise the desire category |
| Predictions.Rules | utils/predictions.ts:189-212 | defines the inner loop over the bleed lengths: each weight goes to the category of its pair and into the expected-day sum |
| Predictions.Cycles | utils/predictions.ts:188-213 | defines the outer loop over the cycle lengths, each row tallied at the day of the cycle the target falls on |
| Predictions.Finish | utils/predictions.ts:215-229 | defines the closing steps: masses divided by their sum when it is positive, the weighted mean day rounded when the weight is positive, 1 otherwise |
| Predictions.PredictFrom | utils/predictions.ts:188-229 | defines predictForDate from the two distributions and the days from the reference observation: the two loops and the closing steps |
| Predictions.PredictionOf | utils/predictions.ts:145-230 | defines the value predictForDate returns: the fixed base record without observations, otherwise the double loop over the two distributions at the days from the reference observation |
| Predictions.Reference | utils/predictions.ts:180-181 | defines `S_ref`: the most recent observation on or before the target, else the first observation listed |
| Predictions.DaysDiff | utils/predictions.ts:184-186 | defines `daysDiff`, the days from the reference observation to the target |
| Predictions.Deltas | utils/predictions.ts:71-77 | defines the gaps between consecutive sorted days |
| Predictions.Mean | utils/predictions.ts:79 | defines the mean of the gaps, their sum over their number |
| Predictions.SquaredDeviations | utils/predictions.ts:81 | defines `Math.pow(val - mean, 2)` for each gap |
| Predictions.Variance | utils/predictions.ts:80-81 | defines the population variance of the gaps, the squared deviations summed and divided by their number |
| Predictions.Kernel | utils/predictions.ts:16-17 | defines the unnormalised Gaussian weight `exp(-0.5 * z * z)` with z the offset over the width |
| Predictions.GaussAt | utils/predictions.ts:15-18 | defines the weight normalTruncated's first loop sets for key x |
| Predictions.Rescaled | utils/predictions.ts:23-25 | defines the normalising pass, every value divided by the sum |
| Predictions.GapAt | utils/predictions.ts:54-57 | defines the two-date weight of cycle length c: its base probability times a Gaussian of width 1.5 around the gap |
| Predictions.Ascending | utils/predictions.ts:38 | defines the sort key of the ascending comparator `a.getTime() - b.getTime()` |
| Predictions.Descending | utils/predictions.ts:139 | defines the sort key of the descending comparator `b.getTime() - a.getTime()` |
| Predictions.Step | utils/predictions.ts:196-211 | defines one pair of the double loop: its weight goes to the pair's category and to the total weight, and the day times the weight to the expected-day sum |
| ProfileStore.Without | store/useProfileStore.ts:116 | the filter keeps exactly the observations of other days |
| ProfileStore.WithoutAbsent | store/useProfileStore.ts:116 | removing a day the list lacks changes nothing |
| ProfileStore.WithoutConcat | store/useProfileStore.ts:116 | the filter keeps the relative order of what it keeps |
| ProfileStore.WithoutOrdered | store/useProfileStore.ts:116 | removing a day keeps a list sorted without duplicate days |
| ProfileStore.AddObsNew | store/useProfileStore.ts:94-101 | a new day is added exactly once, the list is sorted by day, other fields are unchanged |
| ProfileStore.AddObsOrdered | store/useProfileStore.ts:94-100 | on a sorted list without duplicate days the new observation is inserted in place, and that shape is kept |
| ProfileStore.SortedAppend | store/useProfileStore.ts:98-100 | sorting a sorted list plus one element inserts that element |
| ProfileStore.AddObsIdempotent | store/useProfileStore.ts:92-104 | adding the same observation twice is adding it once |
| ProfileStore.WithoutInsert | store/useProfileStore.ts:116 | removing the day of an observation just inserted gives the list back |
| ProfileStore.MaxOrder | store/useProfileStore.ts:49-50 | the maximum order is one of the orders and no order exceeds it |
| ProfileStore.NextOrder | store/useProfileStore.ts:49-58 | the new order is 0 for an empty store and otherwise exceeds every order by at least 1, exactly 1 for the largest |
| ProfileStore.AddedAppends | store/useProfileStore.ts:46-62 | addProfile appends one profile and leaves the others unchanged; the new order exceeds every existing one, 0 when empty |
| ProfileStore.AddedFromEmpty | store/useProfileStore.ts:49-61 | when the orders are 0..n−1, the new profile gets order n |
| ProfileStore.Merge | store/useProfileStore.ts:72 | merging updates never touches the order |
| ProfileStore.MergeLaws | store/useProfileStore.ts:72 | merging no updates is the identity, and merging the same updates twice is merging once |
| ProfileStore.UpdatedKeeps | store/useProfileStore.ts:70-74 | updateProfile keeps length, positions and orders, leaves other ids unchanged, and no update changes nothing |
| ProfileStore.UpdatedIdempotent | store/useProfileStore.ts:70-74 | repeating an update that does not rename changes nothing more |
| ProfileStore.Deleted | store/useProfileStore.ts:80 | deleteProfile keeps exactly the profiles with other ids |
| ProfileStore.DeletedConcat | store/useProfileStore.ts:80 | deletion keeps the relative order of the remaining profiles |
| ProfileStore.DeletedAbsent | store/useProfileStore.ts:80 | deleting an absent id changes nothing |
| ProfileStore.DeletedIdempotent | store/useProfileStore.ts:80 | deleting twice is deleting once |
| ProfileStore.ObservationEditsKeepOrder | store/useProfileStore.ts:90-120 | both observation edits keep every list sorted without duplicate days and leave other profiles unchanged |
| ProfileStore.WithObservationEffect | store/useProfileStore.ts:90-105 | a known day leaves the profile as it is; a new one adds exactly that observation and sorts the list |
| ProfileStore.WithoutObservationEffect | store/useProfileStore.ts:110-120 | the matching profile keeps exactly its observations of other days and nothing else changes |
| ProfileStore.DeleteUndoesAdd | store/useProfileStore.ts:90-120 | deleting the day just added to sorted lists that lacked it restores the profiles |
| ProfileStore.ReorderedOrders | store/useProfileStore.ts:130-135 | reordering sets the orders to exactly 0..n−1, all distinct, and changes nothing else |
| ProfileStore.AddAfterReorder | store/useProfileStore.ts:130-135 | after reordering, a new profile gets order n |
| ProfileStore.Store.constructor | store/useProfileStore.ts:26-27 | the store starts with no profiles |
| ProfileStore.Store.AddProfile | store/useProfileStore.ts:46-62 | the new list is the old one with the new profile appended |
| ProfileStore.Store.UpdateProfile | store/useProfileStore.ts:70-74 | the new list is the old one with the updates merged into matching profiles |
| ProfileStore.Store.DeleteProfile | store/useProfileStore.ts:78-81 | the new list is the old one without the id |
| ProfileStore.Store.AddObservation | store/useProfileStore.ts:90-106 | the new list is the old one with the observation added, and sorted duplicate-free lists stay so |
| ProfileStore.Store.DeleteObservation | store/useProfileStore.ts:110-121 | the new list is the old one with the day removed from matching profiles, and sorted lists stay so |
| ProfileStore.Store.ReorderProfiles | store/useProfileStore.ts:130-135 | the new list is the given one with order = index |
| ProfileStore.Store.ClearAll | store/useProfileStore.ts:184-185 | the store ends with no profiles |
| ProfileStore.AddObs | store/useProfileStore.ts:92-104 | defines addObservation on one profile: unchanged when the day is already there, otherwise the observation appended and the list sorted by day |
| ProfileStore.Added | store/useProfileStore.ts:46-62 | defines addProfile: the new profile, with empty observations when none are given and order one past the largest, appended at the end |
| ProfileStore.Updated | store/useProfileStore.ts:70-74 | defines updateProfile: the profiles with the id get the updates merged in, the rest are unchanged |
| ProfileStore.WithObservation | store/useProfileStore.ts:90-106 | defines addObservation: the profiles with the id get the observation, the rest are unchanged |
| ProfileStore.WithoutObservation | store/useProfileStore.ts:110-121 | defines deleteObservation: the profiles with the id lose every observation of the day, the rest are unchanged |
| ProfileStore.Reordered | store/useProfileStore.ts:130-135 | defines reorderProfiles: the given list with each profile's order set to its index |
| ProfileStore.Fecha | store/useProfileStore.ts:98-100 | defines the sort key of addObservation's comparator, the observed day |
| ProfileStore.HasFecha | store/useProfileStore.ts:94 | defines the duplicate test `observaciones.some(o => o.fecha === fecha)` |
| ProfileStore.OrderOf | store/useProfileStore.ts:50 | defines the order a profile counts with when computing the largest order: its own, or 0 when it has none |
| ProfileStore.Pick | store/useProfileStore.ts:72 | defines one field of the spread `{ ...p, ...updates }`: the update's value when its key is present, the profile's otherwise |

Where the code and the intended behaviour may differ, the model follows the code:

- **Negative days before the reference.** `cycle_engine.ts:87` and `:201` compute `((r + d - 1) % K) + 1` with JavaScript's truncating `%`. For a day before the reference this gives a cycle day ≤ 0, unless the offset is a multiple of K. Such a day is then never in the bleed window, and `sK[cd - 1]` is undefined there. `CycleEngine.EarlierDays` and `CycleEngine.EarlierDayNifunifa` state the consequences. A Euclidean remainder was probably meant. `predictions.ts:191-194` does correct the sign.
- **No fallback when the masses are zero.** `scoreForTarget` returns the raw masses when their sum is not positive (`cycle_engine.ts:215-223`). There is no fallback value. The model proves the sum is 1 whenever there are valid dates, so that branch never runs.
- **A `t0` that is never null.** The check `t0 === null` at `cycle_engine.ts:192` cannot succeed, because `dates` is non-empty there. The model has no branch for it.
- **perrisima never set by the engine.** With the engine's thresholds, perrisima never receives mass (`CycleEngine.ScoreBounds`): the template never exceeds 0.70 and `T_PERRISIMA` is 0.75.

Model notes:

- The 189 posterior rows and the 12 × 7 grid of `predictForDate` are indexed by position in loop order. The source iterates over `Object.entries` and `Map.entries`, whose orders are the key orders that the model uses.
- `Predictions.DesireCategory` reads the desire curve by its bands (`Predictions.DesireBands`) rather than by comparing reals.
- `predictForDate` is split into methods, each proved against its specification function: `PredictObserved` (the reference and the offset), `PredictWith` (the double loop and the final pass), `TallyGrid`, `TallyRow` and `TallyPair` (the loops), and `FinishTally` (the final pass).
- Observation days are compared as day numbers. The store compares `fecha` strings with `===` and sorts by their parsed time, which agrees as long as every `fecha` names a different day in one canonical format.
- `Profile` has an optional `order` field, which the store writes at `store/useProfileStore.ts:58` and `:133` although `types/index.ts:8-16` does not declare it. `Partial<Profile>` updates therefore never change it.

## Left out

- Persistence: `loadProfiles`, `exportData` and `importData`, the `AsyncStorage` writes after every action, and the `isLoading` flag (`store/useProfileStore.ts:30-44`, `139-182`) are I/O.
- Fresh ids and creation times (`store/useProfileStore.ts:55-57`) come from the clock and a random source. They are parameters of `ProfileStore.Store.AddProfile`.
- Date parsing and the millisecond-to-day conversion with `Math.floor` or `Math.round` (`cycle_engine.ts:85`, `172-185`, `196`; `predictions.ts:36-38`, `45-47`, `73-75`, `184-186`) are not modelled. Dates are day numbers, so time zones and daylight saving are not captured. Invalid date strings are `None` in `CycleEngine.ValidDates`.
- IEEE floating point: all arithmetic is exact, so rounding errors and underflow of the likelihood are not captured. Underflow is the case the uniform fallback guards against.
- `Math.exp` and `Math.sqrt` are uninterpreted function parameters; only the positivity of `exp` is used.
- Predictions.TruncatedNormal, Predictions.GapDistribution, Predictions.PredictionBounds: these rely on exact reals and a positive `exp`, under which every Gaussian weight is positive. In floating point, a gap of about 93 days or more from the mean makes every weight underflow to 0 (`predictions.ts:17`, `56-58`), for example two observations 100 days apart. The sum is then 0 and every value is 0/0, NaN. `predictForDate` then returns NaN scores, because `sum > 0` is false at `predictions.ts:217`, and `getMainCategory` returns regla. The model does not capture this.
- The UI screens, `utils/api.ts` (a network client), `utils/dateFormat.ts` and `constants/theme.ts` are not part of this model. Neither is the priority rule the home screen uses to pick a category.
- The constant `T_REG` (`cycle_engine.ts:30`) is never read by the code, so it has no counterpart.
- ProfileStore.Merge: an update that sets `id`, `nombre`, `observaciones` or `createdAt` to `undefined` is not modelled. Only absent keys and present, defined values are, because these four fields of a profile are never `undefined` in the model. The spread at `store/useProfileStore.ts:72` would copy such an `undefined` into the profile.
- ProfileStore.Store.AddProfile: the source's exception path (a failed storage write rethrown) is not modelled, because the model has no storage.
