# Fleet driving-safety report: a Dafny model

The dashboard reads one record per vehicle: the distance driven and the rates of eleven
risky-driving behaviours, per 100 km. From each record it computes:

- a weighted risk score and a safety grade (위험 "danger", 주의 "warning", 양호 "safe");
- a nonlinear fuel-efficiency estimate, the money a driver could save, and the CO2 and
  tree equivalents of that saving.

It then summarises the fleet and shows the vehicles in a searchable, sortable table with ten
rows per page.

This project models two parts of that code and proves properties of the model:

- the calculation engine of `src/utils/calculations.ts`;
- the list logic of `src/components/VehicleTable.tsx`.

Files:

- `vehicle.dfy` (module `Vehicle`) holds the records and the behaviour and grade enumerations.
- `sorting.dfy` (module `Sorting`) holds the JavaScript array operations the code relies on:
  - the stable `sort` with a numeric key, ascending and descending;
  - `filter`, `slice(0, n)` and the summing `reduce`;
  - the lemmas about them: permutation, order, stability, what the first `n` elements are, and
    what the head of a filtered sort is.
- `calculations.dfy` (module `Calculations`) models the engine as pure functions.
- `calculations_properties.dfy` (module `CalculationsProperties`) holds what the engine
  guarantees.
- `vehicle_table.dfy` (module `VehicleTable`) holds the table's list logic:
  - search, sort, page slice, page count, page-button window, and the previous/next
    transitions as functions;
  - the "주요 개선 항목" (main improvement item) pick;
  - the component state (`search`, `sortBy`, `sortOrder`, `currentPage`) as the class
    `TableState`, whose methods are the event handlers.
- `vehicle_table_properties.dfy` (module `VehicleTableProperties`) holds what the table logic
  guarantees.

Numbers are modelled as follows:

- JavaScript numbers are `real`; results the code produces with `Math.round` or `Math.floor`
  are `int`.
- `Math.round(x)` is `⌊x + 0.5⌋`.
- `Math.round(x * 10) / 10` is `Round1`.
- `Math.pow(x, 1.3)` is a function parameter `pow`. It is constrained only by `PowLaw`:
  `pow(0) = 0`, `pow(1) = 1`, and monotone on [0, 1].

The tree count and the CO2 figure shown beside it are computed from different numbers:

- `calculations.ts:191` floors the *unrounded* CO2 figure divided by 6.6;
- `calculations.ts:194` returns the CO2 figure *rounded*.

So the tree count can disagree with the kilograms shown: `CalculationsProperties.TreesFromUnroundedCO2`
proves that a saving of 3950 won shows 7 kg and 0 trees, although 7 kg is more than one
tree's 6.6 kg.

## Model

| member | source | states |
|---|---|---|
| Calculations.Weight | src/utils/calculations.ts:32-44 | the fixed weight of each behaviour, every weight in [0.7, 2.0] |
| Calculations.WeightedSum | src/utils/calculations.ts:71-82 | the eleven weighted counts summed, never negative for non-negative counts; `CalculationsProperties.TableSumIsWeightedSum` states it is the weight-table sum |
| Calculations.Round | src/utils/calculations.ts:176 | `Math.round`: the integer within half a unit of x, halves rounded up |
| Calculations.Round1 | src/utils/calculations.ts:177-178 | rounding to one decimal: within 0.05 of x, a whole number of tenths |
| Calculations.WeightedRiskScore | src/utils/calculations.ts:67-86 | the score is 0 below 1 km and non-negative for non-negative counts |
| Calculations.RiskScore | src/utils/calculations.ts:202-205 | the displayed score is the weighted score rounded to the nearest integer: 0 below 1 km, non-negative for non-negative counts |
| Calculations.GradeOf | src/utils/calculations.ts:94-121 | danger iff score ≥ 30, warning iff 10 ≤ score < 30, safe iff score < 10 |
| Calculations.CalculateSafetyGrade | src/utils/calculations.ts:94-121 | safe below 1 km; from 1 km on danger exactly when the unrounded weighted sum is at least 30 |
| Calculations.NormalizedRisk | src/utils/calculations.ts:156 | min(score/50, 1): at most 1, non-negative for a non-negative score, score/50 up to 50 and exactly 1 from 50 on |
| Calculations.DegradationRate | src/utils/calculations.ts:157-161 | the efficiency degradation rate lies in [0, 0.35] |
| Calculations.RawEfficiency | src/utils/calculations.ts:164-165 | the current efficiency before rounding lies in [3.9, 6] |
| Calculations.RecoverableFuel | src/utils/calculations.ts:168-170 | fuel used now minus fuel used at the ideal efficiency is never negative |
| Calculations.RawImprovement | src/utils/calculations.ts:173 | the improvement percentage before rounding lies in [0, 53.85] |
| Calculations.FuelModel | src/utils/calculations.ts:141-179 | from 1 km on: efficiency in [3.9, 6], saving ≥ 0, improvement in [0, 53.9] |
| Calculations.FuelSavings | src/utils/calculations.ts:127-180 | below 1 km exactly (0, 0, 6); otherwise, for a non-negative weighted score, the ranges of the fuel model |
| Calculations.CalculateCO2Reduction | src/utils/calculations.ts:185-197 | CO2 is the re-derived kg figure rounded; trees are the whole multiples of 6.6 kg in the unrounded figure; both ≥ 0 for a saving ≥ 0 |
| Calculations.AnalyzeVehicle | src/utils/calculations.ts:211-227 | the record is kept unchanged, every added field is computed from it, and every field is in range |
| Calculations.AnalyzeVehicles | src/utils/calculations.ts:210-228 | same length; element i carries record i unchanged with its own computed fields, all in range |
| Calculations.BehaviorTotals | src/utils/calculations.ts:253-260 | six pairs, one per behaviour of 위험행동합계 in declaration order; what the totals mean is stated by `CalculationsProperties.BehaviorTotalsConcat` (they add up over fleets) and `CalculationsProperties.FleetTotalOfAnalysis` (they are the raw records' totals) |
| Calculations.BehaviorItems | src/utils/calculations.ts:295-307 | eleven items, item i for behaviour i with its count and weight; `CalculationsProperties.BehaviorItemsSum` states that their weighted values add up to the score |
| Calculations.Top3 | src/utils/calculations.ts:249-251 | min(3, n) of the vehicles; `CalculationsProperties.InsightsTop3` states which ones |
| Calculations.MostFrequentBehaviors | src/utils/calculations.ts:262-263 | a permutation of the six totals; `CalculationsProperties.InsightsMostFrequent` states the order |
| Calculations.Top5BySaving | src/utils/calculations.ts:265-267 | min(5, n) of the vehicles; `CalculationsProperties.InsightsTop5Selection` states which ones |
| Calculations.Average1 | src/utils/calculations.ts:274-287 | within 0.05 of the mean; `CalculationsProperties.AverageBounds` states its range |
| Calculations.GenerateInsights | src/utils/calculations.ts:233-289 | the vehicle count is n, top3 has min(3, n) entries, a non-empty fleet lists six behaviours; the fields are stated by `CalculationsProperties.InsightsOfEmptyFleet` and `CalculationsProperties.InsightsFields` |
| Calculations.TopBehaviors | src/utils/calculations.ts:309-312 | at most three items; `CalculationsProperties.VehicleDetailSpec` and `CalculationsProperties.TopBehaviorsArePositive` state which |
| Calculations.GetVehicleDetail | src/utils/calculations.ts:294-327 | at most three top behaviours; `CalculationsProperties.VehicleDetailSpec` states every field |
| CalculationsProperties.WeightedScoreIsTableSum | src/utils/calculations.ts:71-85 | from 1 km on, the score is the sum over all eleven behaviours of count × weight, with no division by distance |
| CalculationsProperties.TableSumIsWeightedSum | src/utils/calculations.ts:32-44 | the weight-table sum over all eleven behaviours is the sum written out at lines 71-82 |
| CalculationsProperties.BehaviorItemsSum | src/utils/calculations.ts:295-307 | the weighted values of the detail view's items add up to the weighted sum of the score |
| CalculationsProperties.Saturation | src/utils/calculations.ts:156-178 | from a score of 50 on: normalised risk 1, degradation 0.35, efficiency 3.9 km/L, improvement 53.8 % |
| CalculationsProperties.NegativeCountWithDefinedScore | src/utils/calculations.ts:67-86 | a record with a negative count but a non-negative score (13.6, warning) is accepted by the model |
| CalculationsProperties.ShortTripIsNeutral | src/utils/calculations.ts:133-139 | below 1 km: score 0, safe, saving 0, improvement 0, efficiency 6, CO2 0, trees 0 |
| CalculationsProperties.EventFreeIsNeutral | src/utils/calculations.ts:141-179 | with no events: score 0, safe, nothing saved, efficiency 6 |
| CalculationsProperties.GradeBoundaries | src/utils/calculations.ts:97-113 | exactly 30 is danger and exactly 10 is warning |
| CalculationsProperties.GradeMonotone | src/utils/calculations.ts:94-121 | a higher score never gives a milder grade |
| CalculationsProperties.WeightedSumMonotone | src/utils/calculations.ts:71-82 | more of any behaviour never lowers the weighted sum |
| CalculationsProperties.RawEfficiencyAntitone | src/utils/calculations.ts:156-165 | a higher score never raises the unrounded efficiency |
| CalculationsProperties.RecoverableFuelAntitone | src/utils/calculations.ts:168-170 | a lower efficiency never lowers the recoverable fuel |
| CalculationsProperties.RawImprovementAntitone | src/utils/calculations.ts:173 | a lower efficiency never lowers the improvement percentage |
| CalculationsProperties.FuelModelMonotone | src/utils/calculations.ts:155-179 | a higher score never raises the efficiency and never lowers the saving or the improvement |
| CalculationsProperties.MoreEventsNeverBetter | src/utils/calculations.ts:127-180 | over the same trip, more events never lower the score or the grade, never raise the efficiency, never lower the saving or improvement |
| CalculationsProperties.CO2FromRoundedSaving | src/utils/calculations.ts:189-194 | CO2 comes from the rounded saving: an input where rounding the fuel directly gives 0 kg but the code gives 1 kg |
| CalculationsProperties.TreesFromUnroundedCO2 | src/utils/calculations.ts:189-195 | 3950 won gives 7 kg and 0 trees, although 7 / 6.6 is above 1 |
| CalculationsProperties.DisplayedScoreVersusGrade | src/utils/calculations.ts:202-205 | the grade reads the unrounded score: a displayed score of 30 can belong to a warning vehicle |
| CalculationsProperties.HardAccelerationScenario | src/utils/calculations.ts:67-121 | ten hard accelerations over 100 km: score 15, normalised 0.3, warning |
| CalculationsProperties.PowLawSatisfiable | src/utils/calculations.ts:157 | the assumed law for `Math.pow(x, 1.3)` is consistent |
| CalculationsProperties.InsightsOfEmptyFleet | src/utils/calculations.ts:234-247 | an empty fleet: empty lists, zero totals and counts, average efficiency 6 |
| CalculationsProperties.InsightsFields | src/utils/calculations.ts:249-288 | each summary field of a non-empty fleet is its own part: top 3, behaviours, sums, danger and warning counts, total count, averages |
| CalculationsProperties.InsightsTop3 | src/utils/calculations.ts:249-251 | min(3, n) vehicles by descending score, none below a vehicle left out, ties in input order |
| CalculationsProperties.InsightsTop5Selection | src/utils/calculations.ts:265-267 | min(5, n) vehicles, none saving less than a vehicle left out |
| CalculationsProperties.InsightsTop5Bounds | src/utils/calculations.ts:265-270 | with non-negative savings the top-5 sum lies in [0, total saving], and equals it for at most five vehicles |
| CalculationsProperties.InsightsGradeCounts | src/utils/calculations.ts:272-285 | danger count + warning count ≤ total count = n |
| CalculationsProperties.InsightsMostFrequent | src/utils/calculations.ts:253-263 | six pairs, a permutation of the totals, descending, ties in declaration order |
| CalculationsProperties.InsightsAverages | src/utils/calculations.ts:274-287 | for analyses in range, the rounded averages stay in range |
| CalculationsProperties.AverageBounds | src/utils/calculations.ts:286-287 | the rounded mean of values in [lo, hi] stays in [lo, hi] when the bounds are whole tenths |
| CalculationsProperties.FleetTotalOfAnalysis | src/utils/calculations.ts:253-260 | fleet behaviour totals of the analysed fleet are those of the raw records |
| CalculationsProperties.FleetTotalOfData | src/utils/calculations.ts:253-260 | behaviour totals read only the records' counts |
| CalculationsProperties.FleetTotalConcat | src/utils/calculations.ts:253-260 | a fleet total of two fleets put together is the sum of their totals |
| CalculationsProperties.BehaviorTotalsConcat | src/utils/calculations.ts:253-260 | each of the six pairs of 위험행동합계 adds up over fleets |
| CalculationsProperties.VehicleDetailSpec | src/utils/calculations.ts:294-327 | every copied field, ideal efficiency 6, and ≤ 3 positive-count behaviours by descending weighted value, none below one left out, ties in table order |
| CalculationsProperties.TopBehaviorsArePositive | src/utils/calculations.ts:309-312 | every listed behaviour is one of the vehicle's, with a positive count |
| Sorting.Insert | src/utils/calculations.ts:250 | one insertion step keeps order, adds exactly one element, head is the new or the old head |
| Sorting.SortDesc | src/utils/calculations.ts:249-251 | the descending sort: same length, a permutation, sorted |
| Sorting.SortAsc | src/components/VehicleTable.tsx:16-19 | the ascending sort: same length, a permutation, sorted |
| Sorting.SortDescStable | src/utils/calculations.ts:249-251 | descending sort keeps equal-key elements in input order |
| Sorting.SortAscStable | src/components/VehicleTable.tsx:16-19 | ascending sort keeps equal-key elements in input order |
| Sorting.Take | src/utils/calculations.ts:251 | `slice(0, n)` is a prefix of the input with min(n, len) elements, drawn from the input; `Sorting.TopN` states what it selects after a sort |
| Sorting.Filter | src/components/VehicleTable.tsx:12-14 | `filter` keeps only satisfying elements, each satisfying one as often as it occurs |
| Sorting.FilterConcat | src/components/VehicleTable.tsx:12-14 | filtering a concatenation is concatenating the filtered parts (order kept) |
| Sorting.CountWhere | src/utils/calculations.ts:272-273 | `filter(p).length` |
| Sorting.CountWhereDisjoint | src/utils/calculations.ts:272-273 | two exclusive conditions count at most the length together |
| Sorting.TopN | src/utils/calculations.ts:265-267 | the first n of the stable sort: min(n, len) elements, drawn from the input, sorted, none below one left out, and the earliest of each key |
| Sorting.TopNSumBounds | src/utils/calculations.ts:265-270 | with non-negative values the top-n sum lies between 0 and the total |
| Sorting.TopNSumAll | src/utils/calculations.ts:265-270 | taking at least all elements keeps the total |
| Sorting.SortDescSumInt | src/utils/calculations.ts:265-268 | sorting does not change a sum |
| Sorting.FilteredSortHead | src/components/VehicleTable.tsx:189-191 | the head of a filtered descending sort is the earliest maximal satisfying element |
| VehicleTable.LowerChar | src/components/VehicleTable.tsx:13 | `toLowerCase` on one character: no upper-case letter is left, letters stay letters, A-Z move down by 32 and everything else is kept |
| VehicleTable.Lower | src/components/VehicleTable.tsx:13 | `toLowerCase` is character by character, same length, and leaves no upper-case letter; `VehicleTableProperties.LowerIdempotent` and `VehicleTableProperties.LowerKeepsLowerCase` state that it is a projection |
| VehicleTable.Includes | src/components/VehicleTable.tsx:13 | found text is never longer than the plate; `VehicleTableProperties.IncludesIff` states that it holds iff the text occurs at some position |
| VehicleTable.MatchesSearch | src/components/VehicleTable.tsx:13 | a match is never longer than the plate; `VehicleTableProperties.SearchIgnoresCase` states that case does not matter |
| VehicleTable.FilterBySearch | src/components/VehicleTable.tsx:12-14 | at most the input, only matching vehicles; `VehicleTableProperties.FilterBySearchSpec` states exactly which, in input order |
| VehicleTable.SortVehicles | src/components/VehicleTable.tsx:16-19 | `sorted` is a permutation of `filtered`, ascending or descending by the column as `sortOrder` says |
| VehicleTable.Toggle | src/components/VehicleTable.tsx:28-35 | the clicked column becomes current; same column flips the order, another column starts descending |
| VehicleTable.SliceBound | src/components/VehicleTable.tsx:21-24 | a slice bound is clamped to [0, len]; a negative one counts from the end (len + x, at least 0) |
| VehicleTable.JsSlice | src/components/VehicleTable.tsx:21-24 | `slice(start, end)` has at most end − start elements, read in order from `start` |
| VehicleTable.PageSlice | src/components/VehicleTable.tsx:21-24 | page p is elements [(p−1)·10, p·10) of `sorted`: at most 10 rows, exactly the rows there, nothing for page 0 |
| VehicleTable.PageCount | src/components/VehicleTable.tsx:26 | `Math.ceil(n / 10)`: the fewest ten-row pages that hold n rows |
| VehicleTable.PageWindow | src/components/VehicleTable.tsx:239-250 | min(totalPages, 5) consecutive numbers, all in [1, totalPages], containing the current page when it is a valid page |
| VehicleTable.PreviousPageOf | src/components/VehicleTable.tsx:233-234 | "이전" (previous) never goes below 1, a page above 1 goes back by one |
| VehicleTable.MainImprovementOf | src/components/VehicleTable.tsx:189-191 | the pick; `VehicleTableProperties.MainImprovementNone` and `VehicleTableProperties.MainImprovementIsFirstMaximum` state which behaviour it is |
| VehicleTable.NextPageOf | src/components/VehicleTable.tsx:267-268 | "다음" (next) never goes past `totalPages`, stays put on the last page, goes forward by one below it, and never below 0 |
| VehicleTable.TableState.constructor | src/components/VehicleTable.tsx:6-10 | empty search, risk-score column, descending, page 1 |
| VehicleTable.TableState.Filtered | src/components/VehicleTable.tsx:12-14 | `filtered` has at most all the vehicles; `VehicleTableProperties.FilterBySearchSpec` states which |
| VehicleTable.TableState.Sorted | src/components/VehicleTable.tsx:16-19 | `sorted` is a permutation of `filtered` |
| VehicleTable.TableState.Paginated | src/components/VehicleTable.tsx:21-24 | `paginated` has at most ten rows; `VehicleTableProperties.PagesCover` states that the pages make up `sorted` |
| VehicleTable.TableState.TotalPages | src/components/VehicleTable.tsx:26 | `totalPages` pages hold every row of `sorted` |
| VehicleTable.TableState.SetSearch | src/components/VehicleTable.tsx:47 | the search text changes, the page and the sort do not |
| VehicleTable.TableState.ToggleSort | src/components/VehicleTable.tsx:28-35 | sort column and order move as `Toggle` says; search and page unchanged |
| VehicleTable.TableState.PreviousPage | src/components/VehicleTable.tsx:233-234 | the page moves as `PreviousPageOf` says and is then at least 1 |
| VehicleTable.TableState.NextPage | src/components/VehicleTable.tsx:267-268 | the page moves as `NextPageOf` says: never past `totalPages`, unchanged on the last page |
| VehicleTable.TableState.SelectPage | src/components/VehicleTable.tsx:255 | a page button sets the page to its number, which lies in [1, totalPages] |
| VehicleTableProperties.IncludesIff | src/components/VehicleTable.tsx:13 | `includes` holds iff the text occurs at some position |
| VehicleTableProperties.IncludesEmpty | src/components/VehicleTable.tsx:13 | every plate includes the empty text |
| VehicleTableProperties.LowerIdempotent | src/components/VehicleTable.tsx:13 | lower-casing twice is lower-casing once |
| VehicleTableProperties.LowerKeepsLowerCase | src/components/VehicleTable.tsx:13 | text without upper-case letters is left as it is |
| VehicleTableProperties.EmptySearchKeepsAll | src/components/VehicleTable.tsx:12-14 | an empty search keeps the whole list, in order |
| VehicleTableProperties.FilterBySearchSpec | src/components/VehicleTable.tsx:12-14 | `filtered` keeps exactly the matching vehicles, each as often as it occurs, in input order |
| VehicleTableProperties.SearchIgnoresCase | src/components/VehicleTable.tsx:13 | lower-casing the search text first changes nothing |
| VehicleTableProperties.SortVehiclesStable | src/components/VehicleTable.tsx:16-19 | vehicles with equal column values keep their filtered order, in both directions |
| VehicleTableProperties.ToggleTwice | src/components/VehicleTable.tsx:28-35 | clicking the same header twice restores the order; switching and clicking again gives ascending |
| VehicleTableProperties.PagesPrefix | src/components/VehicleTable.tsx:21-24 | pages 1 to k together are the first 10·k rows |
| VehicleTableProperties.PagesCover | src/components/VehicleTable.tsx:21-26 | the `totalPages` pages together are exactly `sorted` |
| VehicleTableProperties.PageBeyondLast | src/components/VehicleTable.tsx:21-26 | a page past `totalPages` shows no rows |
| VehicleTableProperties.RowNumber | src/components/VehicleTable.tsx:195 | the row number shown for row i of page p is its 1-based position in `sorted` |
| VehicleTableProperties.PageWindowPlacement | src/components/VehicleTable.tsx:242-250 | more than 5 pages: the window starts at 1 for pages 1-3, ends at the last page for the last three, and centres on the current page otherwise |
| VehicleTableProperties.PreviousNextInverse | src/components/VehicleTable.tsx:233-267 | away from the ends, "이전" and "다음" undo each other |
| VehicleTableProperties.NextPageOnEmptyTable | src/components/VehicleTable.tsx:267-268 | with no rows "다음" on page 1 goes to page 0 and stays there, and page 0 is empty |
| VehicleTableProperties.ItemOf | src/components/VehicleTable.tsx:175-187 | the item of each behaviour carries its raw count and weight |
| VehicleTableProperties.MainImprovementNone | src/components/VehicleTable.tsx:189-191 | "없음" exactly when no weighted value is positive |
| VehicleTableProperties.MainImprovementIsFirstMaximum | src/components/VehicleTable.tsx:189-191 | the pick has a positive, maximal weighted value, is earliest in list order among equal values, and is shown with its raw count |
| VehicleTableProperties.PositiveValueIsHasCount | src/components/VehicleTable.tsx:190 | with a positive weight, a positive weighted value means a positive count |
| VehicleTableProperties.MainImprovementIsTopBehavior | src/components/VehicleTable.tsx:189-191 | the table's pick is the first of the detail view's top behaviours, and "없음" exactly when that list is empty |

## Left out

- All rendering and React plumbing. This covers JSX, `useState` as a mechanism, number formatting
  (`toFixed`, `toLocaleString`) and the "총 N대 중 a-b대 표시" caption. The state is `TableState`;
  what is displayed is not modelled.
- The CSV and XLSX parsers, the upload flow, the timers and the chart and card components.
  These are library calls, I/O and presentation.
- IEEE-754 arithmetic. Numbers are reals, so binary rounding of the decimal weights and
  constants is not modelled.
- `Math.pow(x, 1.3)`. It is a parameter constrained only by `PowLaw`, so no exact fuel figure is
  claimed.
- Calculations.FuelSavings: states ranges and monotonicity, not exact amounts, because `Math.pow`
  is abstract.
- Calculations.FuelSavings: requires a non-negative weighted score for trips of at least 1 km.
  A negative score sends a negative base to `Math.pow`, which gives NaN in JavaScript and has
  no value in a model over reals. Negative counts are allowed as long as the score stays
  non-negative (`CalculationsProperties.NegativeCountWithDefinedScore`). The parsers, which
  do not reject negative counts, are not part of this model.
- Calculations.AnalyzeVehicle: carries the same requirement, for the same reason.
- Calculations.AnalyzeVehicles: carries the same requirement for each record, for the same reason.
- VehicleTable.LowerChar: lower-cases ASCII letters only. Korean plates combine digits and
  Hangul, and Hangul has no case. Other cased scripts are not modelled.
- VehicleTable.TableState: `vehicles` is fixed for the table's lifetime. A parent re-rendering
  with a new fleet is not modelled.
- The local weight table in `VehicleTable.tsx` (lines 58-62 and 169-173) repeats the engine's
  values. The model reuses `Calculations.Weight` for both.
- The `grade` string field of `SafetyGrade` is represented by the datatype's constructor. The
  index and event-total columns of a record are carried unchanged and never read.
- JavaScript `sort` with comparators that return NaN. Keys here are always numbers, so this
  case does not arise in the model.
