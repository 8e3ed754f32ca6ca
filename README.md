# Limiter Analytics: the metrics and alert pipeline in Dafny

This project models the part of the Limiter Analytics dashboard that
computes things. The rest of the dashboard only fetches and draws. The
input is a list of tool records. Each record has a CEID and a
`limitations` object that maps a day window (3, 7, …, 91) to a stored
value. Four computations are modelled:

- **Dashboard cards** (`dashboard.dfy`). The average limitation is an
  unweighted mean of the per-tool means. Every tool weighs the same,
  whatever its number of windows. The critical count is the number of
  tools with some stored value strictly above 80.
- **Alerts panel** (`alerts.dfy`, `regression.dfy`). For every tool, in
  list order, up to three alerts are pushed, in a fixed order:
  - when its latest value is above 80;
  - when its series never decreases and rose by more than 20;
  - when the least-squares line through (day, value) is above 90, thirty
    days after the largest day.

  The list is rebuilt from empty each time the data changes. The builder
  is a loop (`BuildAlerts`) proved equal to the function `AllAlerts`. The
  component's state is the class `AlertPanel`.
- **Least-squares forecast** (`regression.dfy`). The five totals are
  folded over the days and values, then turned into a slope and an
  intercept. The model proves the following:
  - the fit is exact on linear data;
  - a constant series gives a flat line;
  - the denominator is zero exactly when all days are equal;
  - in that case the numerator is zero too. The source then computes
    0 / 0 = NaN, so "no forecast" is what the source does, not an
    approximation.
- **Heatmap** (`heatmap.dfy`):
  - the hue map `(100 - v) * 120 / 100`;
  - the lookup of the selected period, which defaults to 91;
  - the two-character tile label;
  - the period selector, which reads `data[0]`. On an empty list that
    read throws a TypeError (heatmap.tsx:27), and the model has no view.

`tools.dfy` holds the shared record type and the left-fold sum.

JavaScript's NaN and `undefined` results are modelled as `None` rather than
excluded by preconditions:

- a mean over no windows or no tools;
- a zero regression denominator;
- a tile whose tool lacks the selected period;
- reading `data[0]` of an empty list.

The latest value of an empty series is `undefined`, and `undefined > 80` is
false. That case is a false comparison inside `ThresholdFires`, not a `None`.

The model follows the code as written:

- An empty tool list averages to 0 / 0 = NaN (Dashboard.tsx:63).
- A tool without windows has mean 0 / 0 = NaN. That makes the sum and the
  average NaN; the tool is not skipped (Dashboard.tsx:61).
- The trend alert needs a rise of more than 20
  (ForecastingAndAlerts.tsx:29).
- Stored values are compared with 80 as they are stored, with no scale
  conversion (Dashboard.tsx:65, ForecastingAndAlerts.tsx:23).
- The forecast is evaluated at `Math.max(...x) + 30`
  (ForecastingAndAlerts.tsx:46).

## Model

| member | source | states |
|---|---|---|
| Tools.Values | ForecastingAndAlerts.tsx:19 | `Object.values` of a record: one value per window, in window order |
| Tools.Days | ForecastingAndAlerts.tsx:34 | `Object.keys(...).map(Number)`: one day per window, in the same order as the values |
| Tools.Sum | Dashboard.tsx:61 | `reduce((sum, val) => sum + val, 0)` as a left fold, the same fold as ForecastingAndAlerts.tsx lines 38-39; SumAppend and SumBounds state its properties |
| Tools.SumAppend | Dashboard.tsx:61 | the left-fold sum of a concatenation is the sum of the parts |
| Tools.SumBounds | Dashboard.tsx:61 | n values within [lo, hi] sum to within [n·lo, n·hi] |
| Dashboard.ToolMean | Dashboard.tsx:61 | a tool's mean is NaN (None) exactly when it has no windows |
| Dashboard.SumOfMeans | Dashboard.tsx:59-62 | the fold of tool means is NaN exactly when some tool has no windows |
| Dashboard.AvgLimitation | Dashboard.tsx:58-64 | the average is NaN exactly when the list is empty or some tool has no windows |
| Dashboard.SumOfMeansIsSumOfToolMeans | Dashboard.tsx:59-62 | with every tool non-empty, the fold equals the plain sum of the per-tool means |
| Dashboard.AvgIsMeanOfToolMeans | Dashboard.tsx:58-64 | the average is the unweighted mean of the per-tool means |
| Dashboard.MeanOfMeansExample | Dashboard.tsx:58-64 | tools [10] and [0, 0, 0] average to 5, not to the pooled 2.5 |
| Dashboard.ToolMeanBounds | Dashboard.tsx:61 | a tool mean lies within the bounds of the tool's values |
| Dashboard.ToolMeansBounds | Dashboard.tsx:61 | every per-tool mean lies within the bounds of all values |
| Dashboard.DivBounds | Dashboard.tsx:63 | dividing a sum bounded by [n·lo, n·hi] by n > 0 gives a value in [lo, hi] |
| Dashboard.MeanOfBounds | Dashboard.tsx:63 | a mean of values in [lo, hi] lies in [lo, hi] |
| Dashboard.AvgLimitationBounds | Dashboard.tsx:58-64 | when defined, the average lies within the bounds of all stored values |
| Dashboard.SumOfMeansAppend | Dashboard.tsx:59-62 | the fold over a concatenation combines the folds of the parts |
| Dashboard.SumOfMeansRemove | Dashboard.tsx:59-62 | removing one tool takes exactly its mean out of the fold |
| Dashboard.SumOfMeansSingle | Dashboard.tsx:59-62 | the fold over one tool is 0 plus that tool's mean |
| Dashboard.PlusRotate | Dashboard.tsx:60-61 | NaN-absorbing addition can be regrouped and reordered |
| Dashboard.SumOfMeansPermutation | Dashboard.tsx:59-62 | reordering the tools leaves the fold unchanged |
| Dashboard.AvgLimitationPermutation | Dashboard.tsx:58-64 | reordering the tools leaves the average unchanged |
| Dashboard.AnyAbove | Dashboard.tsx:65 | `some(val => val > threshold)`; AnyAboveIff states it holds exactly when some value is strictly above |
| Dashboard.IsCritical | Dashboard.tsx:65 | the filter's test on one tool; IsCriticalIff and AtThresholdNotCritical state when it holds |
| Dashboard.AnyAboveIff | Dashboard.tsx:65 | `some(val > threshold)` holds exactly when some value is strictly above the threshold |
| Dashboard.IsCriticalIff | Dashboard.tsx:65 | a tool is critical exactly when one of its stored values is above the threshold |
| Dashboard.AtThresholdNotCritical | Dashboard.tsx:65 | a tool whose largest value equals the threshold is not critical |
| Dashboard.CriticalFilter | Dashboard.tsx:65 | the filter keeps exactly the critical tools of the list and is no longer than it |
| Dashboard.CriticalTools | Dashboard.tsx:65 | the critical count never exceeds the number of tools |
| Dashboard.DashboardCriticalTools | Dashboard.tsx:65 | the card's count at threshold 80 never exceeds the number of tools |
| Dashboard.CriticalToolsCounts | Dashboard.tsx:65 | the count equals the number of list positions holding a critical tool |
| Dashboard.CriticalToolsAntitone | Dashboard.tsx:65 | raising the threshold never raises the count |
| Regression.Step | ForecastingAndAlerts.tsx:38-41 | one more (day, value) pair added to each running total; StepOnLine, StepConstantDays, StepGrows and StepSeparates state what it keeps |
| Regression.Totals | ForecastingAndAlerts.tsx:36-41 | `x.length` and the four `reduce` sums; TotalsCount, TotalsAreSums, TotalsOnLine and TotalsOfConstantDays state their values |
| Regression.Denominator | ForecastingAndAlerts.tsx:43 | n·ΣXX − (ΣX)²; DenominatorNonNegative and DenominatorZeroIff state its sign and when it is zero |
| Regression.Numerator | ForecastingAndAlerts.tsx:43 | n·ΣXY − ΣX·ΣY; DegenerateIsIndeterminate states it is zero with the denominator, SlopeAlgebra that it is a times the denominator on a line |
| Regression.Intercept | ForecastingAndAlerts.tsx:44 | (ΣY − slope·ΣX) / n; FitMomentsOnLine states it returns b on a line |
| Regression.FitMoments | ForecastingAndAlerts.tsx:43-44 | the slope and intercept from the totals, none for a zero denominator; FitMomentsOnLine states it returns the line |
| Regression.Evaluate | ForecastingAndAlerts.tsx:46 | slope·t + intercept; ForecastOfFit states the forecast is the fitted line evaluated at the largest day plus 30 |
| Regression.Fit | ForecastingAndAlerts.tsx:43-44 | no line (NaN) exactly when the denominator n·ΣXX − (ΣX)² is zero; a line needs at least one point |
| Regression.Max | ForecastingAndAlerts.tsx:46 | `Math.max(...x)` is an element of x and at least every element |
| Regression.Forecast | ForecastingAndAlerts.tsx:46 | no forecast exactly when the denominator is zero |
| Regression.TotalsCount | ForecastingAndAlerts.tsx:36 | the count total is `x.length` |
| Regression.TotalsAreSums | ForecastingAndAlerts.tsx:38-39 | the folded ΣX and ΣY are the `reduce` sums of x and y |
| Regression.TotalsOnLine | ForecastingAndAlerts.tsx:38-41 | on values a·x + b, ΣY = a·ΣX + n·b and ΣXY = a·ΣXX + b·ΣX |
| Regression.FitMomentsOnLine | ForecastingAndAlerts.tsx:43-44 | from such totals the slope and intercept formulas return a and b |
| Regression.FitExactOnLine | ForecastingAndAlerts.tsx:38-44 | on exactly linear data with a non-zero denominator the fit is that line |
| Regression.ForecastOfFit | ForecastingAndAlerts.tsx:46 | the forecast is the fitted line at the largest day plus 30 |
| Regression.ForecastOnLine | ForecastingAndAlerts.tsx:38-46 | on exactly linear data the forecast is the line's own value at the largest day plus 30 |
| Regression.ForecastOnAscendingLine | ForecastingAndAlerts.tsx:34-46 | with two or more ascending days on a line, the forecast is the line's value at the last day plus 30 |
| Regression.FitConstant | ForecastingAndAlerts.tsx:38-46 | a constant series c fits slope 0 and intercept c, and is forecast as c |
| Regression.TotalsOfConstantDays | ForecastingAndAlerts.tsx:38-41 | over days all equal to c, ΣX = n·c, ΣXX = n·c² and ΣXY = c·ΣY |
| Regression.DenominatorNonNegative | ForecastingAndAlerts.tsx:43 | the denominator is never negative, and positive once two days differ |
| Regression.DenominatorZeroIff | ForecastingAndAlerts.tsx:43 | over a non-empty series the denominator is zero exactly when all days are equal |
| Regression.DegenerateIsIndeterminate | ForecastingAndAlerts.tsx:43 | a zero denominator comes with a zero numerator, so the slope is 0/0 (NaN), never infinite |
| Regression.NoFitOnEqualDays | ForecastingAndAlerts.tsx:43-46 | one day, or several equal days, give no line and no forecast |
| Regression.FitDefinedOnAscending | ForecastingAndAlerts.tsx:43-46 | two or more strictly ascending days always give a line and a forecast |
| Regression.MaxOfAscending | ForecastingAndAlerts.tsx:46 | with ascending days the largest day is the last |
| Regression.FitExample | ForecastingAndAlerts.tsx:34-46 | values [10, 20, 30, 40] over days [0, 1, 2, 3] fit slope 10 and intercept 10, with forecast 340 |
| Regression.StepOnLine | ForecastingAndAlerts.tsx:38-41 | adding a point on the line keeps the totals on the line |
| Regression.StepConstantDays | ForecastingAndAlerts.tsx:38-41 | adding another day c keeps the constant-day totals |
| Regression.StepGrows | ForecastingAndAlerts.tsx:43 | adding a point never decreases a non-negative denominator |
| Regression.StepSeparates | ForecastingAndAlerts.tsx:43 | a day different from the equal days before it makes the denominator positive |
| Regression.SlopeAlgebra | ForecastingAndAlerts.tsx:43-44 | on such totals the numerator is a times the denominator and ΣY − a·ΣX = n·b |
| Regression.ConstantDenominator | ForecastingAndAlerts.tsx:43 | equal days give a zero denominator |
| Regression.ConstantNumerator | ForecastingAndAlerts.tsx:43 | equal days give a zero numerator |
| Alerts.ThresholdFires | ForecastingAndAlerts.tsx:20-23 | the last value above 80, false for an empty series; ThresholdAlertIff states when it holds |
| Alerts.IsIncreasing | ForecastingAndAlerts.tsx:28 | the adjacent-pair `every` test; IsIncreasingIffSorted states it holds exactly when the series is sorted |
| Alerts.TrendFires | ForecastingAndAlerts.tsx:28-29 | non-decreasing and last minus first above 20; TrendAlertIff states when it holds |
| Alerts.ForecastFires | ForecastingAndAlerts.tsx:48 | the forecast exists and is above 90; ProjectedIff and ForecastAlertIff state when it holds |
| Alerts.FlatMap | ForecastingAndAlerts.tsx:18 | each tool's alerts, concatenated in list order; FlatMapBound, FlatMapAppend and FlatMapMembers state its size, concatenation and members |
| Alerts.ToolAlerts | ForecastingAndAlerts.tsx:19-50 | at most three alerts per tool, in strict threshold, trend, forecast order, all with the tool's CEID |
| Alerts.AllAlerts | ForecastingAndAlerts.tsx:18-51 | at most three alerts per tool over the whole list |
| Alerts.PushToolAlerts | ForecastingAndAlerts.tsx:19-50 | one pass of the `forEach` body appends exactly the tool's alerts |
| Alerts.BuildAlerts | ForecastingAndAlerts.tsx:15-53 | the loop over the tools from an empty list builds exactly `AllAlerts(data)` |
| Alerts.AlertPanel.constructor | ForecastingAndAlerts.tsx:13 | the panel starts with no alerts |
| Alerts.AlertPanel.Refresh | ForecastingAndAlerts.tsx:15-54 | after the effect the panel holds `AllAlerts(data)`, whatever it held before |
| Alerts.IsIncreasingIffSorted | ForecastingAndAlerts.tsx:28 | the adjacent-pair `every` test holds exactly when the series is sorted |
| Alerts.ThresholdAlertIff | ForecastingAndAlerts.tsx:20-25 | the threshold alert with value v is raised exactly when the last window holds v and v > 80 |
| Alerts.TrendAlertIff | ForecastingAndAlerts.tsx:28-31 | the trend alert is raised exactly when the series is sorted and its last value exceeds its first by more than 20 |
| Alerts.ProjectedIff | ForecastingAndAlerts.tsx:48-50 | the forecast alert is raised exactly when the forecast exists and is above 90 |
| Alerts.ForecastAlertIff | ForecastingAndAlerts.tsx:43-50 | the forecast alert is raised exactly when a line is fitted and its value at the largest day plus 30 is above 90 |
| Alerts.EmptyToolNoAlerts | ForecastingAndAlerts.tsx:19-50 | a tool without windows raises no alert |
| Alerts.SingleWindowAlerts | ForecastingAndAlerts.tsx:19-50 | a one-window tool raises only the threshold alert, and only when its value is above 80 |
| Alerts.LinearToolForecast | ForecastingAndAlerts.tsx:34-50 | for ascending days on a line a·day + b, the forecast alert fires exactly when a·(last day + 30) + b > 90 |
| Alerts.FlatMapBound | ForecastingAndAlerts.tsx:18-51 | at most k alerts per tool give at most k·n alerts |
| Alerts.FlatMapAppend | ForecastingAndAlerts.tsx:18-51 | the alerts of a concatenation are the alerts of the parts, in order |
| Alerts.FlatMapMembers | ForecastingAndAlerts.tsx:18-51 | an alert is in the list exactly when one of the tools raised it |
| Alerts.AllAlertsAppend | ForecastingAndAlerts.tsx:18-51 | the panel's alerts for a concatenation are those of the parts, in order |
| Alerts.AllAlertsMembers | ForecastingAndAlerts.tsx:18-51 | an alert is on the panel exactly when one of the tools raised it |
| Alerts.NoDataNoAlerts | ForecastingAndAlerts.tsx:16-53 | no tools means the effect builds no alerts |
| Alerts.ExampleChecks | ForecastingAndAlerts.tsx:23-48 | for [10, 20, 30, 40] over days 0 to 3: no threshold alert, a trend, and a forecast above 90 |
| Alerts.AlertsExample | ForecastingAndAlerts.tsx:19-50 | that tool raises exactly the trend alert and then the forecast alert |
| Heatmap.Hue | heatmap.tsx:15 | `((100 - value) * 120) / 100`; HueEndpoints, HueBounds, HueStrictlyDecreasing and HueInverse state its range, order and inverse |
| Heatmap.HueEndpoints | heatmap.tsx:15 | value 0 gives hue 120 (green), and value 100 gives hue 0 (red) |
| Heatmap.HueBounds | heatmap.tsx:15 | values in [0, 100] give hues in [0, 120] |
| Heatmap.HueStrictlyDecreasing | heatmap.tsx:15 | a higher value gives a strictly smaller hue |
| Heatmap.HueInverse | heatmap.tsx:15 | the value is recovered from its hue |
| Heatmap.Lookup | heatmap.tsx:41 | `tool.limitations[selectedPeriod]`, none when absent; LookupSome, LookupNoneIff and LookupFinds state what it finds |
| Heatmap.LookupIn | heatmap.tsx:41 | the same over a sequence of windows; LookupSome, LookupNoneIff and LookupFindsIn state what it finds |
| Heatmap.LookupSome | heatmap.tsx:41 | a value found is one stored under the selected day |
| Heatmap.LookupNoneIff | heatmap.tsx:41 | the lookup is `undefined` exactly when no window has the selected day |
| Heatmap.LookupFinds | heatmap.tsx:41 | with ascending days, every window is found under its own day |
| Heatmap.LookupFindsIn | heatmap.tsx:41 | the same, over a sequence of windows |
| Heatmap.TileLabel | heatmap.tsx:45 | the label is a prefix of the CEID of length min(2, length) |
| Heatmap.TileFor | heatmap.tsx:36-46 | a tile carries the CEID, its label, the value at the period, and a hue exactly when that value exists |
| Heatmap.Tiles | heatmap.tsx:36-47 | one tile per tool, in list order |
| Heatmap.PeriodOptions | heatmap.tsx:27 | no options (a throw) exactly for an empty list; otherwise the first tool's days, in order |
| Heatmap.Render | heatmap.tsx:19-50 | the view exists exactly for a non-empty list and holds the options and the tiles |
| Heatmap.OptionsFoundInFirstTool | heatmap.tsx:27 | every offered period has a value in the first tool |
| Heatmap.MissingPeriodNoHue | heatmap.tsx:41 | a tool lacking the selected period gets no hue |
| Heatmap.TilesHueBounds | heatmap.tsx:36-47 | with values in [0, 100], every coloured tile has a hue in [0, 120] |
| Heatmap.DefaultPeriod | heatmap.tsx:12 | `useState("91")`: the period shown first is 91, as TileExample uses |
| Heatmap.TileExample | heatmap.tsx:12-45 | under the default period 91, a tool "ABC1" with value 75 gives label "AB" and hue 30 |

## Left out

- Fetching and the database are not part of this model:
  - `fetchdata.ts` and `db.ts` do the network and database I/O;
  - the tool list is a parameter here.
- `Datatable.tsx` and `Trendvisualization.tsx` are presentation only and
  are not part of this model.
- Floating point is not modelled:
  - values are exact reals;
  - IEEE-754 rounding is not modelled;
  - NaN appears only as `None`, in the cases listed above.
- String formatting is not modelled:
  - `toFixed(2)` on the average card;
  - the `hsl(...)` string;
  - the `"{n} days"` option text;
  - the alert message text.

  Each alert is the datatype `Alert`. It carries the fields its message
  interpolates.
- Day keys are assumed numeric:
  - they are `nat`, and `WellFormed` says they come in ascending order, as
    JavaScript enumerates integer-like keys;
  - keys that are not numbers, which `Number` turns into NaN, are not
    modelled;
  - the keys the selector emits are strings; here they are the same
    numbers.
- CEIDs are Dafny character sequences. `slice(0, 2)` counts UTF-16 code
  units, which is not modelled.
- React scheduling is not modelled:
  - rendering, the `useEffect` dependency mechanism and `useState`;
  - `AlertPanel.Refresh` models one run of the effect;
  - the heatmap's selected period is a parameter whose default is
    `DefaultPeriod`.
- The source computes `x.length` and four separate `reduce` passes. In
  `Totals` these five totals are accumulated together in one pass, in the
  same order as the separate left folds. `TotalsCount` ties the count to
  `x.length`, and `TotalsAreSums` ties ΣX and ΣY to the plain sum.
- `Math.max(...x)` of an empty list is `-Infinity`. For an empty series the
  slope and intercept are NaN, so line 46 computes NaN·(−∞ + 30) + NaN,
  which is NaN whatever `Math.max` returns. The model has no forecast
  there.
- Regression.Forecast is stated over exact reals. The source's floating
  point result of near-degenerate fits may differ from the real one.
- Alerts.LinearToolForecast takes its linear data as
  `Values(t) == LineValues(Days(t), a, b)`, that is, one value per window
  on the line.
