# Pulse India: surge series and action-plan catalogue

This project is a Dafny model of the logic inside the `PulseIndia` React
component (`src/App.js`) of the Pulse India prototype, a hospital
surge-planning dashboard for the Diwali festival period. The component has
two pieces of real logic, and the model covers both.

- **The simulated indicator series** (`generateHistoricalData`). The
  component builds 42 daily records starting on 1 October 2024. Days 30..35
  (31 October to 5 November) are the Diwali anomaly window. Days 36..38 are
  the post-Diwali decay window. Every other day is baseline. Each day draws
  respiratory, trauma, fever and AQI values from a range that depends on the
  window, then rounds them. It also rounds the unrounded clinical sum into
  `total`. The first 30 days are flagged actual and the rest prediction. In
  the model, `HistoricalData.GenerateHistoricalData` is a method with the
  same loop. It builds the sequence record by record and is proved against
  `RecordAt`, the per-day specification. Lemmas in `SeriesProperties` state
  what every generated series satisfies.
- **The recommendation catalogue** (`generateRecommendations`). This is a
  fixed list of six action items. The model also covers `actionItems`, the
  catalogue's length, and the "Urgent Actions" badge. The badge shows the
  size of the list filtered to priority critical or high. These live in
  module `Recommendations`.

`Math.random()` is injected. Every day receives a `DayDraws` value: seven
reals in [0, 1), in the order the source draws them. The first four are the
baseline respiratory, trauma, fever and AQI draws. The other three are the
fresh respiratory, trauma and AQI draws the source makes inside the Diwali
and post-Diwali branches. `Math.round` is modelled as `floor(x + 0.5)`.
Arithmetic is on exact reals. Dates are (year, month, day) triples in the
`Calendar` module. JavaScript's `date.setDate(date.getDate() + i)` is
`AddDays`, which steps one day at a time across month and year ends.

A design note for the system describes a few things differently from the
code. The model follows the code:

- The note says `total` is the exact sum of the three rounded clinical
  fields. In the code, `total` is the rounded unrounded sum. `SeriesProperties.TotalDiffersFromSum` gives draws where the two
  differ by +1 and by -1.
- The note says two catalogue entries are critical or high. In the code the
  urgent filter returns three: entry 1 is critical and entries 2 and 3 are
  high.
- The note describes ranking, a headline-metric summariser and cost
  aggregation. The code has none of these. Apart from `actionItems`, the
  headline metrics are literals, the list renders in
  declaration order, and the "8.7L" investment total is a literal in the
  text. The model does not invent these. `Recommendations.CatalogueCost`
  only checks that the six costs really add up to the stated total.
- The generator takes no parameters, so it has no validation errors. The
  42-day length, the windows and the cutoff are constants in the code.

## Model

| member | source | states |
|---|---|---|
| `HistoricalData.StartDate` | src/App.js:13 | the series starts on 1 October 2024, a valid date |
| `HistoricalData.RegimeOf` | src/App.js:20-21 | the definition: `isDiwaliPeriod` and `isPostDiwali` as one classification. `SeriesProperties.RegimeWindows`, `AnomalyPrecedesDecay`, `DecayFollowsAnomaly` and `RegimeCounts` state its properties |
| `HistoricalData.RangeOf` | src/App.js:23-35 | the definition: the generation constants of each field in each regime, with fever on its baseline range throughout. `SeriesProperties.RangesSeparated` and `FeverIgnoresRegime` state its properties |
| `HistoricalData.RecordAt` | src/App.js:16-47 | the definition: the record the loop body pushes on day i. `GenerateHistoricalData` is proved equal to it, and `RecordInRange`, `TotalWithinOne`, `RecordsSeparated` and `FeverIgnoresRegime` state its properties |
| `HistoricalData.GenerateHistoricalData` | src/App.js:11-51 | the loop over the 42 day indices returns exactly 42 records. Record i is what the source pushes on day i for that day's draws, and the whole series is well formed (`WellFormedSeries`) |
| `HistoricalData.SeriesIsWellFormed` | src/App.js:12-50 | a series built from valid draws has 42 records and starts on 1 October 2024. Each date is the day after the previous one. `isActual` is exactly `i < 30`, exactly one flag is set per record, and every field lies in its regime's range |
| `HistoricalData.RecordInRange` | src/App.js:23-45 | every rounded field of record i lies in [min, min + spread] of the range for its field and regime |
| `HistoricalData.Round` | src/App.js:41-45 | `Math.round` lands within one half of its argument: x - 0.5 < n <= x + 0.5 |
| `HistoricalData.Scaled` | src/App.js:23-35 | `min + draw * spread` with a draw in [0, 1) lies in [min, min + spread]. When the spread is positive it stays strictly below min + spread, because a draw never reaches 1 |
| `HistoricalData.RawValue` | src/App.js:23-36 | the unrounded value of each field, after the regime override, lies in the half-open interval [min, min + spread) of that regime's range |
| `Calendar.NextDay` | src/App.js:16-17 | the day after a valid date is a valid date and comes after it chronologically, across month ends, year ends and 29 February |
| `Calendar.AddDays` | src/App.js:16-17 | adding i days with `setDate(getDate() + i)` always gives a valid date |
| `Calendar.NextDayOrdinal` | src/App.js:16-17 | stepping one day advances the day count by exactly one, so no day is skipped or repeated |
| `Calendar.AddDaysOrdinal` | src/App.js:16-17 | adding n days advances the day count by exactly n |
| `Calendar.AddDaysWithinMonth` | src/App.js:16-17 | while the day number fits in the month, adding n days only raises the day of the month by n |
| `Calendar.AddDaysCompose` | src/App.js:16-17 | adding a days and then b days is the same as adding a + b days |
| `Calendar.PrecedesIffOrdinalLess` | src/App.js:16-17 | reading the (year, month, day) triple lexicographically gives the same order as the day count, in both directions |
| `SeriesProperties.SeriesDateAt` | src/App.js:13-17 | in any well-formed series, record i falls i days after 1 October 2024 |
| `SeriesProperties.SeriesDatesIncrease` | src/App.js:15-17 | for i < j, record j falls exactly j - i days after record i and strictly later in the calendar, so the dates are contiguous and strictly increasing |
| `SeriesProperties.OctoberOffsets` | src/App.js:13-17 | 30 days after 1 October 2024 is 31 October, and 31 days after is 1 November |
| `SeriesProperties.NovemberOffsets` | src/App.js:13-17 | 35 days after 1 October 2024 is 5 November, and 41 days after is 11 November |
| `SeriesProperties.SeriesCalendar` | src/App.js:15-20 | index 30 is 31 October and index 35 is 5 November, the window the source comment names. The last record is 11 November |
| `SeriesProperties.RegimeWindows` | src/App.js:20-21 | index i is anomaly iff 30 <= i <= 35, decay iff 36 <= i <= 38, and baseline iff it is in neither window |
| `SeriesProperties.AnomalyPrecedesDecay` | src/App.js:20-21 | the windows are disjoint, and every anomaly index comes before every decay index |
| `SeriesProperties.DecayFollowsAnomaly` | src/App.js:20-21 | index 35 is the last anomaly day and index 36 is decay, so decay starts right after the anomaly ends |
| `SeriesProperties.RegimeCountsUpTo` | src/App.js:15-21 | for every prefix of the indices, the number of anomaly and decay indices in it, in closed form |
| `SeriesProperties.RegimeCounts` | src/App.js:15-21 | the 42-day series has 6 anomaly days, 3 decay days and 33 baseline days |
| `SeriesProperties.CountActualPrefix` | src/App.js:46-47 | the first n records contain min(n, 30) actual records |
| `SeriesProperties.ActualIsPrefix` | src/App.js:46-47 | exactly one of `isActual` and `isPrediction` holds per record. Actual records form a prefix, and exactly 30 records are actual |
| `SeriesProperties.RangesSeparated` | src/App.js:23-35 | for respiratory, trauma and AQI, the anomaly minimum is above the decay maximum, and the decay minimum is above the baseline maximum (85 > 82 > 55, 45 > 38 > 25, 380 > 360 > 180) |
| `SeriesProperties.RecordsSeparated` | src/App.js:23-45 | whatever the draws, the rounded respiratory, trauma or AQI value of a more elevated day is strictly greater than that of a less elevated day |
| `SeriesProperties.FeverIgnoresRegime` | src/App.js:25-36 | fever is never overridden: the same draws give the same fever on any day, and its range is [30, 38] in every regime |
| `SeriesProperties.TotalWithinOne` | src/App.js:41-44 | `total`, the rounded unrounded sum, differs from the sum of the three rounded clinical fields by at most one |
| `SeriesProperties.TotalDiffersFromSum` | src/App.js:41-44 | there are valid draws where `total` is one more than the sum of the rounded fields, and others where it is one less |
| `Recommendations.Catalogue` | src/App.js:57-136 | the definition: the six entries of `generateRecommendations` in declaration order. `CatalogueIds`, `ConfidenceIsPercentage`, `DeadlinesByOctober29`, `DeadlinesPrecedeAnomaly`, `CatalogueCost` and `UrgentOfCatalogue` state its properties |
| `Recommendations.ActionItems` | src/App.js:152 | `actionItems` equals the catalogue length, which is 6 |
| `Recommendations.CatalogueIds` | src/App.js:57-136 | the catalogue has 6 entries whose ids are 1..6 in declaration order, so the ids are pairwise distinct |
| `Recommendations.ConfidenceIsPercentage` | src/App.js:57-136 | every confidence is within [0, 100] |
| `Recommendations.DeadlinesByOctober29` | src/App.js:57-136 | every deadline is a valid date no later than 29 October 2024 |
| `Recommendations.DeadlinesPrecedeAnomaly` | src/App.js:57-136 | every deadline falls strictly before the date of record 30 (31 October, the first Diwali day) of any generated series |
| `Recommendations.CatalogueCost` | src/App.js:57-136 | the six costs, in tenths of a lakh (12 + 38 + 21 + 5 + 3 + 8), add up to 87. That is the "8.7L" total stated in the summary text at line 385 |
| `Recommendations.IsUrgent` | src/App.js:329 | the definition: the filter predicate, priority critical or high. `UrgentActionsMembers` and `UrgentMultiset` state what the filter does with it |
| `Recommendations.UrgentCount` | src/App.js:329 | the definition: the badge number, the `.length` of the filtered list. `UrgentMultiset` makes it the number of urgent entries, and `UrgentOfCatalogue` gives 3 on the catalogue |
| `Recommendations.UrgentActions` | src/App.js:329 | the filter returns a new list no longer than its input |
| `Recommendations.UrgentActionsMembers` | src/App.js:329 | an entry is in the filtered list iff it is in the input and its priority is critical or high |
| `Recommendations.UrgentMultiset` | src/App.js:329 | each urgent entry appears in the result exactly as many times as in the input, and no other entry appears. With `UrgentActionsKeepOrder` this fixes the result completely, and the badge count is the number of urgent entries |
| `Recommendations.UrgentActionsKeepOrder` | src/App.js:329 | the filtered list is a subsequence of the input, so declaration order is kept |
| `Recommendations.UrgentIdempotent` | src/App.js:329 | filtering twice gives the same list as filtering once |
| `Recommendations.UrgentOfCatalogue` | src/App.js:329 | on the catalogue the filter returns exactly the first three entries (ids 1, 2, 3), so the badge shows 3 urgent actions |

## Left out

- React state and memoisation (`useState` for city, event and time range, and `useMemo`) are left out. The selection state never feeds into any computation, and both memoised values are computed once.
- All JSX rendering, the recharts charts, the lucide icon stored in each recommendation, and the style lookups `getPriorityColor` and `getPriorityBadge` are left out. They are presentation only.
- The display text of each recommendation (title, description, action, impact) is kept in `Recommendations.CopyOf`, keyed by id, not in the record itself. No property depends on it.
- The `cost` display strings are modelled as whole numbers of tenths of a lakh. The rupee-sign text is presentation.
- `Math.random` is not modelled. It becomes the injected `DayDraws` values, and all the model assumes of each draw is that it lies in [0, 1).
- IEEE double arithmetic is not modelled. Values are exact reals. With doubles, a sum such as `min + r * spread` could round differently at the last bit, which the model does not capture.
- The `toLocaleDateString` display strings (the record's `date` field and the deadline rendering) are left out. The record keeps only the calendar date, which is the source's `fullDate`.
- Time zones are not modelled. `new Date('2024-10-01')` is midnight UTC, and `getDate`/`setDate` work in local time. The model assumes a local zone at or east of UTC, such as India's. West of UTC, the series would start on 30 September local time.
- The remaining `keyMetrics` fields and all marketing and validation figures (surge, peak date, AQI peak, confidence, accuracy, savings) are left out. They are literals and are not computed from anything.
- `Recommendations.UrgentActions`: its own contract states only the length bound. Membership, multiplicity, order, idempotence and the result on the catalogue are stated in the lemmas listed next to it in the table.
