# BC quote estimator — verified model of the estimate and calibration core

This project models, in Dafny, the deterministic core of a Business Central
quote estimator:

- the **estimate arithmetic** of `src/lib/estimation-rules.ts` and the route
  helper `buildEstimation` of `src/app/api/estimate/route.ts`: per-task
  adjusted hours (base hours times a fixed complexity multiplier, rounded to a
  tenth), and the breakdown pipeline (subtotal, code review 15 %, testing
  20 %, project management 10 %, contingency, total, days at 7.5 hours a day);
- the **multiplier calibrator** `computeMultiplierSuggestions` of
  `src/lib/analytics.ts`: points with recorded actual hours are bucketed by
  complexity string; each bucket with at least three points gets a
  recency-weighted mean of actual/adjusted ratios, which scales the current
  multiplier, clamped to [0.5, 5.0] and rounded to hundredths;
- the **browser history lists** of `src/lib/quote-history.ts`: saving puts the
  newest entry first and caps the list at fifty, task ids are re-keyed on
  save, deletion filters by id, the list projections, and the merged history
  sorted newest first;
- the **review screen helpers** of `src/components/review-results.tsx` (score
  colour, background and label; severity counts; findings grouped by category
  in a fixed order and sorted by severity) and `formatRelativeTime` of
  `src/components/quote-history.tsx`.

Numbers are exact reals. JavaScript's `Math.round(x * 10) / 10` is
`Round1(x) = Floor(10x + 1/2) / 10` (halves go up), and likewise `Round2` for
hundredths. Dates are integer milliseconds. The clock, fresh random ids,
`Math.pow(0.5, ·)` and the locale's date text are parameters.

Modules, one per source file, plus four shared helpers:
`Options` (absent values), `Rounding`, `Types` (`src/lib/types.ts`),
`EstimationRules`, `EstimateRoute`, `Analytics`, `Filters`
(`Array.prototype.filter`), `StableSort` (JavaScript's stable
`Array.prototype.sort` with a key-subtracting comparator), `QuoteHistory`,
`ReviewResults`, `RelativeTime`.

The calculator does not read the settings record. It uses the constants at
`src/lib/estimation-rules.ts:35-49` and the 7.5-hour day at line 143. Of the
settings defaults (`src/lib/types.ts:149`), the calibrator reads only the four
complexity multipliers, as the current multipliers
(`src/lib/analytics.ts:40-45`); the other defaults feed the settings dialog
and the history page, which are not part of this model. The contingency
default is 15 %, both in the calculator (line 123) and in the estimate route
(`src/app/api/estimate/route.ts:156`).

## Model

| member | source | states |
|---|---|---|
| `Rounding.Round1` | src/lib/estimation-rules.ts:112 | the result is a whole number of tenths within (x − 0.05, x + 0.05], the tenth nearest to x with halves going up |
| `Rounding.Round2` | src/lib/analytics.ts:77-78 | the result is a whole number of hundredths within (x − 0.005, x + 0.005] |
| `Rounding.Round1Unique` | src/lib/estimation-rules.ts:112 | any tenth within (x − 0.05, x + 0.05] is Round1(x), so the two properties above pin the rounding down |
| `Rounding.Round2Unique` | src/lib/analytics.ts:77-78 | any hundredth within (x − 0.005, x + 0.005] is Round2(x) |
| `Rounding.Round1OfTenth` | src/lib/estimation-rules.ts:146 | rounding a value that already is a tenth leaves it unchanged |
| `Rounding.Round2OfHundredth` | src/lib/analytics.ts:77 | rounding a value that already is a hundredth leaves it unchanged |
| `Rounding.Round1Idempotent` | src/lib/estimation-rules.ts:112 | rounding to tenths twice is rounding once |
| `Rounding.Round1Monotone` | src/lib/estimation-rules.ts:112 | rounding to tenths never reverses the order of two values |
| `Rounding.Round2Monotone` | src/lib/analytics.ts:77 | rounding to hundredths never reverses the order of two values |
| `Rounding.Round1NonNegative` | src/lib/estimation-rules.ts:112 | a non-negative value rounds to a non-negative tenth |
| `Rounding.TenthSum` | src/lib/estimation-rules.ts:125-127 | a sum of whole tenths is a whole tenth, so the reduced subtotal needs no rounding |
| `EstimationRules.Multiplier` | src/lib/estimation-rules.ts:35-40 | every complexity multiplier lies in [1.0, 3.0] |
| `EstimationRules.BaseHoursRange` | src/lib/estimation-rules.ts:8-30 | every category's base-hour range is positive, its minimum below its maximum, and at most 24 hours |
| `EstimationRules.AdjustedHours` | src/lib/estimation-rules.ts:108-113 | adjusted hours are the tenth nearest to base hours times the complexity multiplier, and non-negative for non-negative base hours |
| `EstimationRules.AdjustedHoursMonotone` | src/lib/estimation-rules.ts:112 | more base hours never give fewer adjusted hours |
| `EstimationRules.AdjustedHoursMonotoneInComplexity` | src/lib/estimation-rules.ts:35-40 | for non-negative base hours, a higher complexity never gives fewer adjusted hours |
| `EstimationRules.AdjustedHoursExample` | src/lib/estimation-rules.ts:108-113 | 4 h medium is 6.0, 2.5 h very-complex is 7.5, 0.33 h medium is 0.5 |
| `EstimationRules.RawSubtotal` | src/lib/estimation-rules.ts:125-127 | the sum of the per-task adjusted hours is a whole tenth, non-negative when every base is |
| `EstimationRules.CalculateBreakdown` | src/lib/estimation-rules.ts:118-154 | every figure is a whole tenth; the reported subtotal equals the raw sum of adjusted hours exactly; the total is exactly subtotal plus the three overheads plus contingency |
| `EstimationRules.FromSubtotal` | src/lib/estimation-rules.ts:129-153 | the same three facts for the pipeline after the per-task sum |
| `EstimationRules.ContingencyHours` | src/lib/estimation-rules.ts:136-139 | contingency is the tenth nearest to the given percentage of the pre-contingency hours, non-negative when both are |
| `EstimationRules.EmptyBreakdownIsZero` | src/lib/estimation-rules.ts:125-153 | no tasks give seven zero figures, whatever the contingency |
| `EstimationRules.ZeroSubtotalIsZero` | src/lib/estimation-rules.ts:129-153 | a zero subtotal gives seven zero figures |
| `EstimationRules.OverheadsFromSubtotal` | src/lib/estimation-rules.ts:129-134 | code review, testing and project management are 15 %, 20 % and 10 % of the subtotal, each rounded to a tenth |
| `EstimationRules.ContingencyFromParts` | src/lib/estimation-rules.ts:136-139 | contingency is the percentage of subtotal plus the three rounded overheads |
| `EstimationRules.ContingencyFromPartsOfSubtotal` | src/lib/estimation-rules.ts:136-139 | the same, from the raw subtotal |
| `EstimationRules.DaysFromTotal` | src/lib/estimation-rules.ts:143 | days are total hours over a 7.5-hour day, rounded to a tenth |
| `EstimationRules.TotalAtLeastSubtotal` | src/lib/estimation-rules.ts:136-146 | with non-negative base hours and contingency, every figure is non-negative and the total is at least the subtotal |
| `EstimationRules.NonNegativeFromSubtotal` | src/lib/estimation-rules.ts:129-146 | the same from a non-negative raw subtotal |
| `EstimationRules.BreakdownExample` | src/lib/estimation-rules.ts:118-154 | one 4 h medium task at 15 % gives 6.0, 0.9, 1.2, 0.6, 1.3, 10.0 hours and 1.3 days |
| `EstimateRoute.ParseComplexity` | src/app/api/estimate/route.ts:128 | a known spelling reads as the complexity of that spelling; anything else is no complexity at all |
| `EstimateRoute.RequestContingency` | src/app/api/estimate/route.ts:156 | the request's contingency when given, 15 otherwise |
| `EstimateRoute.ConfidenceOrDefault` | src/app/api/estimate/route.ts:144 | "medium" exactly when the confidence is absent, empty or "medium"; any other given value passes through |
| `EstimateRoute.Inputs` | src/app/api/estimate/route.ts:137 | the calculator sees each task's base hours and complexity, in task order |
| `EstimateRoute.SubtotalIsSumOfTasks` | src/app/api/estimate/route.ts:117-139 | when each task shows the adjusted hours of its base and complexity, the calculator's raw subtotal is the sum of the shown hours |
| `EstimateRoute.BuildEstimation` | src/app/api/estimate/route.ts:113-148 | same tasks in the same order, fields carried over, absent dependencies and notes become [] and ""; each task's adjusted hours are its own; the seven figures are the calculator's over the same tasks; the subtotal is the sum of the shown adjusted hours; confidence, assumptions and risks defaulted |
| `EstimateRoute.EstimateTotalAtLeastSubtotal` | src/app/api/estimate/route.ts:136-147 | with non-negative base hours and contingency, the estimate's total is at least its subtotal |
| `Analytics.RecencyWeightPositive` | src/lib/analytics.ts:16-20 | every recency weight is positive |
| `Analytics.RecencyWeightFacts` | src/lib/analytics.ts:16-20 | weight 1 at age zero; 90 more days halve it; at most 1 for a past date and below 1 for a strictly past one |
| `Analytics.RecencyWeightMonotone` | src/lib/analytics.ts:16-20 | a strictly older point weighs strictly less than a newer one, and an older or same-dated one never weighs more |
| `Analytics.Clamp` | src/lib/analytics.ts:22-24 | the result lies in [lo, hi]; a value inside is kept; a value below becomes lo, above becomes hi |
| `Analytics.Eligible` | src/lib/analytics.ts:33 | exactly the points with actual hours are kept, every copy, in input order |
| `Analytics.Keys` | src/lib/analytics.ts:30-38 | the bucket keys are distinct and are exactly the complexity strings of points with actual hours |
| `Analytics.Bucket` | src/lib/analytics.ts:32-38 | a bucket holds exactly the points with actual hours and that complexity string, every copy in input order, so its length is the number of such points |
| `Analytics.EligibleKeepsGroups` | src/lib/analytics.ts:33 | dropping points without actual hours first changes neither the keys nor any bucket |
| `Analytics.TermsNonEmpty` | src/lib/analytics.ts:55-62 | there is a term of the average exactly when some point has positive adjusted hours and actual hours |
| `Analytics.TermWeightsPositive` | src/lib/analytics.ts:59 | every term's weight is positive |
| `Analytics.TotalsPositive` | src/lib/analytics.ts:61 | with positive weights, the total weight is non-negative, and positive exactly when there is a term |
| `Analytics.WeightedTotalPositive` | src/lib/analytics.ts:52-64 | the total weight is non-negative, and positive exactly when some point contributes |
| `Analytics.AccumulateWeights` | src/lib/analytics.ts:52-62 | the accumulation loop computes the weighted ratio sum and the weight sum of the contributing points |
| `Analytics.AccumulateStep` | src/lib/analytics.ts:55-62 | one more point adds its ratio times weight and its weight exactly when it contributes |
| `Analytics.TotalsSnoc` | src/lib/analytics.ts:60-61 | appending a term adds its product and its weight |
| `Analytics.TotalsBetween` | src/lib/analytics.ts:58-61 | ratios in [lo, hi] with positive weights give lo·Σw ≤ Σ ratio·w ≤ hi·Σw |
| `Analytics.WeightedAverageBetween` | src/lib/analytics.ts:58-66 | when some point contributes and every contributing ratio lies in [lo, hi], the total weight is positive and the weighted average lies in [lo, hi] |
| `Analytics.TermRatiosBetween` | src/lib/analytics.ts:56-58 | bounds on the contributing points' ratios carry over to the terms |
| `Analytics.CommonDateScalesSums` | src/lib/analytics.ts:55-62 | points sharing one date share one weight, so both sums are the plain ratio sum and contributing-point count scaled by that weight |
| `Analytics.SharedWeightMean` | src/lib/analytics.ts:58-66 | with a positive shared weight and a positive weighted total, the weighted average equals the plain mean of the contributing ratios |
| `Analytics.EqualWeightsGiveMean` | src/lib/analytics.ts:58-66 | when all points share one date and one contributes, both totals are positive and the weighted average is the plain mean of the contributing ratios |
| `Analytics.NonContributingIgnored` | src/lib/analytics.ts:56 | a point with non-positive adjusted hours or no actual hours leaves both sums unchanged |
| `Analytics.CurrentMultiplier` | src/lib/analytics.ts:40-67 | the matching settings field for the four known complexity strings and 1.0 for any other; the source agrees except on inherited property names such as "constructor" (see "Left out") |
| `Analytics.SuggestFor` | src/lib/analytics.ts:49-80 | a suggestion exactly when the bucket has at least three points and one contributes; it names the bucket, counts every point of the bucket, reads the current multiplier, and its multiplier is a hundredth in [0.5, 5.0] |
| `Analytics.SuggestedInRange` | src/lib/analytics.ts:68-77 | rounding a clamped value to hundredths stays in [0.5, 5.0] |
| `Analytics.ScaledMultiplier` | src/lib/analytics.ts:68-77 | the suggestion is a hundredth in [0.5, 5.0]: the hundredth nearest to current × correction when that lies in range, 0.5 below it, 5.0 above it |
| `Analytics.SuggestionFromWeightedMean` | src/lib/analytics.ts:64-78 | a suggestion's correction is the rounded weighted mean of its bucket's ratios, over a positive total weight, and its multiplier is the current one scaled by that mean |
| `Analytics.CorrectionWithinRatios` | src/lib/analytics.ts:58-78 | when every usable ratio lies in [lo, hi], the reported correction lies in [Round2(lo), Round2(hi)] |
| `Analytics.AccurateEstimatesKeepMultiplier` | src/lib/analytics.ts:64-78 | when every usable point took exactly its estimate, the correction is 1 and the suggestion is the current multiplier clamped and rounded |
| `Analytics.PerKey` | src/lib/analytics.ts:49-81 | one optional suggestion per key, each from that key's own bucket |
| `Analytics.ComputeMultiplierSuggestions` | src/lib/analytics.ts:26-84 | every suggestion is the one its own complexity bucket gives |
| `Analytics.SuggestionsBounded` | src/lib/analytics.ts:68-79 | every suggested multiplier is a hundredth in [0.5, 5.0], counts at least three points, and reads the settings multiplier |
| `Analytics.OneSuggestionPerComplexity` | src/lib/analytics.ts:30-49 | no complexity string gets two suggestions |
| `Analytics.SuggestionExactlyWhenEnoughEvidence` | src/lib/analytics.ts:49-64 | a complexity string gets a suggestion exactly when its bucket has at least three points and one of them contributes |
| `Analytics.PointsWithoutActualsIgnored` | src/lib/analytics.ts:33 | points without actual hours have no effect on the suggestions |
| `Analytics.FreshMediumSums` | src/lib/analytics.ts:52-62 | three fresh medium points with ratios 2, 1.5 and 1 give sums 4.5 over weight 3 |
| `Analytics.FreshMediumSuggestion` | src/lib/analytics.ts:49-80 | the medium bucket of those three points, with multiplier 1.3, suggests 1.95 with correction 1.5 from three points |
| `Analytics.CalibrationExample` | src/lib/analytics.ts:26-84 | those three points with the default medium multiplier 1.3 give exactly one suggestion: medium, 1.3 → 1.95, correction 1.5, three points |
| `Filters.Filter` | src/lib/quote-history.ts:90 | the result is no longer than the input and holds exactly the input's elements that pass |
| `Filters.FilterLength` | src/components/review-results.tsx:92-94 | a filter's length is the number of elements that pass |
| `Filters.FilterConcat` | src/lib/quote-history.ts:90 | filtering a concatenation filters each part, so kept elements keep their relative order |
| `Filters.FilterIdempotent` | src/lib/quote-history.ts:90 | filtering twice by the same test is filtering once |
| `StableSort.SortByKeyCorrect` | src/components/review-results.tsx:103-107 | the sort is a permutation, sorted by key, and stable: the elements of each key keep their input order |
| `QuoteHistory.PushCapped` | src/lib/quote-history.ts:61-66 | the new entry is first; the length grows by one up to 50; older entries keep their order and only the oldest beyond 50 are dropped |
| `QuoteHistory.WithTaskIds` | src/lib/quote-history.ts:45-54 | task i gets id `taskIds[i]` and is otherwise unchanged |
| `QuoteHistory.Rekeyed` | src/lib/quote-history.ts:50-56 | the stored estimate differs from the given one only in its task ids |
| `QuoteHistory.SaveQuote` | src/lib/quote-history.ts:39-70 | the saved quote heads the list with its id, requirements, settings, time and re-keyed estimate; capped at 50; older entries keep their order |
| `QuoteHistory.SaveReview` | src/lib/quote-history.ts:118-140 | the saved review heads the list; capped at 50; older entries keep their order |
| `QuoteHistory.DeleteQuote` | src/lib/quote-history.ts:89-92 | exactly the quotes with another id remain |
| `QuoteHistory.DeleteReview` | src/lib/quote-history.ts:158-161 | exactly the reviews with another id remain |
| `QuoteHistory.DeleteKeepsOrder` | src/lib/quote-history.ts:89-92 | deletion works piecewise on a concatenation, so survivors keep their order (quotes and reviews) |
| `QuoteHistory.DeleteIdempotent` | src/lib/quote-history.ts:158-161 | deleting an id twice is deleting it once (quotes and reviews) |
| `QuoteHistory.DeleteUndoesSaveQuote` | src/lib/quote-history.ts:39-92 | deleting a quote just saved under a fresh id restores the history, less any entry the cap dropped |
| `QuoteHistory.DeleteUndoesSaveReview` | src/lib/quote-history.ts:118-161 | the same for reviews |
| `QuoteHistory.QuoteList` | src/lib/quote-history.ts:72-83 | one item per stored quote in order, with its id, date, task count, total hours and days, confidence and provider, titled by its first task or "Untitled Quote" when it has none |
| `QuoteHistory.ReviewList` | src/lib/quote-history.ts:142-152 | one item per stored review in order, with its id, date, summary, quality score, provider, finding count, and critical count = number of critical findings ≤ finding count |
| `QuoteHistory.UntitledExactlyWhenNoTasks` | src/lib/quote-history.ts:75 | the title is "Untitled Quote" exactly when the quote has no task (when no task bears that title) |
| `QuoteHistory.SavedQuoteHeadsTheList` | src/lib/quote-history.ts:72-83 | after a save the first list item describes the new quote: id, time, first task's title, task count, totals, confidence, provider |
| `QuoteHistory.CombinedHistory` | src/lib/quote-history.ts:165-179 | a permutation of the quote items followed by the review items, newest first, items of one date in their original order |
| `QuoteHistory.CombinedHistoryComplete` | src/lib/quote-history.ts:165-179 | every stored quote and review appears in the merged history |
| `ReviewResults.ScoreColor` | src/components/review-results.tsx:57-61 | success exactly at 8 or more, warning exactly in [5, 8), danger exactly below 5 |
| `ReviewResults.ScoreBackground` | src/components/review-results.tsx:63-67 | the same thresholds for the background |
| `ReviewResults.ColorMatchesBackground` | src/components/review-results.tsx:57-67 | colour and background always show the same tone |
| `ReviewResults.ScoreLabel` | src/components/review-results.tsx:69-75 | each label exactly on its score interval: ≥ 9, [7, 9), [5, 7), [3, 5), < 3 |
| `ReviewResults.LabelMonotone` | src/components/review-results.tsx:69-75 | a higher score never earns a worse label or tone |
| `ReviewResults.CountSeverities` | src/components/review-results.tsx:91-95 | each count is the number of findings of that severity |
| `ReviewResults.CountsCoverAll` | src/components/review-results.tsx:91-95 | the three counts and the number of findings with an unknown severity add up to the number of findings, so the counts alone do when every severity is known |
| `ReviewResults.SeverityRank` | src/components/review-results.tsx:103-106 | a severity's rank is its index in the order critical, warning, info, and -1 for an unknown severity |
| `ReviewResults.CategoryRank` | src/components/review-results.tsx:98 | a category's rank is its index in the order issue, missing, bc-specific, suggestion, and -1 for an unknown one |
| `ReviewResults.CategorizedFindings` | src/components/review-results.tsx:97-108 | groups follow the fixed category order, each at most once, each of a known category; each is non-empty and is its category's group |
| `ReviewResults.FilterOrdered` | src/components/review-results.tsx:108 | dropping groups keeps the category order |
| `ReviewResults.GroupCorrect` | src/components/review-results.tsx:101-107 | a group is a permutation of its category's findings, sorted by severity rank (unknown, critical, warning, info), findings of equal rank in input order |
| `ReviewResults.GroupMembers` | src/components/review-results.tsx:101-102 | a group's members are exactly the findings of its category |
| `ReviewResults.UnknownSeverityFirst` | src/components/review-results.tsx:103-106 | within a group, findings of an unknown severity come before every known one |
| `ReviewResults.GroupExactlyWhenFound` | src/components/review-results.tsx:97-108 | a category has a group exactly when it is one of the four known ones and some finding has it |
| `ReviewResults.GroupSize` | src/components/review-results.tsx:101-107 | a group holds as many findings as have its category |
| `ReviewResults.GroupsCoverAll` | src/components/review-results.tsx:97-108 | the group sizes and the number of findings with an unknown category add up to the number of findings |
| `ReviewResults.DroppingEmptyKeepsSize` | src/components/review-results.tsx:108 | dropping empty groups keeps the total size |
| `ReviewResults.CategoryCountsCoverAll` | src/components/review-results.tsx:98-102 | the four category counts and the unknown-category count add up to the number of findings |
| `RelativeTime.FormatRelativeTime` | src/components/quote-history.tsx:19-31 | exactly one bucket per age: just now below a minute (future dates included), minutes below an hour, hours below a day, days below thirty days, the date otherwise; counts are whole units elapsed, 1–59, 1–23 and 1–29 |
| `RelativeTime.OlderNeverLooksNewer` | src/components/quote-history.tsx:19-31 | an older date never lands in a more recent bucket nor with a smaller count in the same one |
| `RelativeTime.DecimalString` | src/components/quote-history.tsx:27 | the interpolated number is at least one digit, all digits, with no leading zero |
| `RelativeTime.DecimalRoundTrip` | src/components/quote-history.tsx:27 | reading the digits back gives the number |
| `RelativeTime.RelativeText` | src/components/quote-history.tsx:26-30 | "Just now" below a minute; the locale's date from thirty days on |
| `RelativeTime.TextStatesElapsedUnits` | src/components/quote-history.tsx:27-29 | "Nm ago", "Nh ago" or "Nd ago" by age, where N reads back as the whole units elapsed |

## Left out

- The AI provider calls, prompt text and the parsing of the classifier's reply: network and foreign calls with no logic of their own to state. The classifier's answer is an input of `EstimateRoute.BuildEstimation`.
- The HTTP route handlers, database access and document parsing: I/O over libraries that are not part of this model.
- localStorage: a history is the list value itself; loading, the JSON parse-error path (which yields an empty list) and persisting are not modelled.
- `crypto.randomUUID`: the fresh quote, task and review ids are parameters of `QuoteHistory.SaveQuote` and `QuoteHistory.SaveReview`, which return the new history rather than the ids they were given.
- `Date.now` and `new Date().toISOString()`: the clock reading is a parameter `now`, and dates are integer milliseconds.
- `toLocaleDateString`: the calendar text shown after thirty days is a parameter of `RelativeTime.RelativeText`.
- `getQuoteById` and `getReviewById`: a plain search by id, with nothing to state beyond the search itself.
- `Analytics.RecencyWeightFacts`: `Math.pow(0.5, t)` cannot be evaluated on reals, so it is a parameter assumed to be 1 at 0, positive, halved per unit step and strictly decreasing; the weights are proved from those four properties, not from a definition of the power.
- Severity and category strings: the review route (`src/app/api/review/route.ts:60-67`) does not check them, so `OtherSeverity` and `OtherCategory` stand for any other string. Nothing in the types stops `OtherSeverity` from carrying a known spelling; the model reads such a value as unknown.
- `Analytics.CurrentMultiplier`: the source looks the complexity string up in a plain object literal (`src/lib/analytics.ts:40-45`, `:67`), so a string naming an inherited `Object.prototype` member ("constructor", "toString", "__proto__", …) reads a function or object, which `?? 1.0` keeps; the model gives 1.0 for such strings, so it does not promise the source's behaviour for them.
- `Analytics.SuggestionsBounded`: for a complexity string naming an inherited `Object.prototype` member the source's suggestion is NaN, not a hundredth in [0.5, 5.0]; the bound, and the range clause of `Analytics.SuggestFor`, hold only for the other strings, as the model of the lookup above.
- IEEE-754 floating point: arithmetic is exact, so artefacts such as 1.15 × 10 ≠ 11.5 and NaN are not modelled.
- `EstimateRoute.BuildEstimation`: the route casts the classifier's complexity string without checking; an unknown string would give NaN hours, and the model instead requires every complexity to be one of the four known spellings. The category string is carried over unchecked.
- `EstimationRules.BaseHoursRange`: the table is what the classifier is told to choose from; nothing in the calculator enforces it, so the model states only the table's shape.
- React rendering, category labels and colours, toasts, clipboard, downloads and the text-summary builders: presentation only.
- The merges of settings with their defaults in other pages: record updates with nothing to prove.
