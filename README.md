# Storage usage prediction chart: the data transform

This project models the core of the New Relic storage usage prediction chart
(`visualizations/storageusagepredictionchart/index.js`).

`transformDataAreaChart` produces the chart series from three things:

- the `total` and `used` time-series query results;
- the scalar from the `predictLinear` query;
- the forecast horizon in days.

It works in four steps:

1. It normalises both result sets to `{start, name, value}` rows. `name` is the calendar-day label of the row's timestamp.
2. It left-joins the first same-day `used` value onto every `total` row.
3. It marks the last `total` row as the anchor. The anchor's `prediction` is its own `used` value, and that value and its start become `lastUsed` and `lastDate`.
4. It appends one point per day after `lastDate`, on the straight line from `lastUsed` to the predicted value.

The horizon comes from the prediction query text. The regular expression at line 110 extracts it, and line 145 hands the captured digit string to the transform.

There are three modules:

- `Wrappers` holds the `Option` type.
- `ChartTransform` holds the series model:
  - data types for the query rows and chart points;
  - specification functions `Normalise`, `Matching`, `Backbone`, `Forecast` and `Projection`;
  - the transform as two methods with loops, `JoinAndAnchor` for the `reduce` and `TransformDataAreaChart` for the whole function with its appending `for` loop;
  - lemmas about the series.
- `HorizonQuery` models what `exec` of the pattern `\s*predictLinear\(.*,\s*(?<daysInFutures>\d*)\s*day(s)*\)` captures, and how the captured string becomes a number of days.

The calendar-day label (`toLocaleDateString` of the timestamp in the viewer's locale and time zone) is the function parameter `dayLabel`.

Three edge cases of the transform and the pattern:

- **Empty `total` series.** The transform does not fail. `lastUsed` and `lastDate` keep their initial value 0, and the series is a forecast line from 0, labelled from the timestamp 86400 seconds on (`ChartTransform.EmptyTotal`).
- **Anchor without a `used` value.** The code extrapolates from `undefined`, so every forecast value is `NaN`. The model represents each such value as an absent prediction (`None`).
- **Negative horizons.** The pattern's `\d*` cannot capture a sign, so the horizon is a natural number.

## Model

| member | source | states |
|---|---|---|
| ChartTransform.TransformDataAreaChart | visualizations/storageusagepredictionchart/index.js:43-89 | The returned series is the joined backbone followed by the `days` forecast points. It equals `Projection`, about which the lemmas below are proved. |
| ChartTransform.JoinAndAnchor | visualizations/storageusagepredictionchart/index.js:55-75 | The `reduce` gives one joined point per `total` row, in order. Only the last point carries `prediction := used`. `lastUsed` and `lastDate` are that point's `used` and start, or 0 when `total` is empty. |
| ChartTransform.Normalise | visualizations/storageusagepredictionchart/index.js:44-53 | Each result set maps to one entry per row, in the same number. What each entry holds is pinned down by `ProjectionShape` and `JoinRule`. |
| ChartTransform.Matching | visualizations/storageusagepredictionchart/index.js:58 | The filter is never longer than `used`. Its meaning is pinned down by `MatchingFirst`. |
| ChartTransform.Forecast | visualizations/storageusagepredictionchart/index.js:81-86 | The loop appends exactly `days` points. Their labels and values are pinned down by `ProjectionShape` and `AnchorContinuity`. |
| ChartTransform.ProjectionShape | visualizations/storageusagepredictionchart/index.js:44-86 | The series has `|total| + days` points. Point i < n keeps total row i's start, label and value. Forecast point k has no start, no available and no used value, and is labelled with the day `(k - n + 1) * 86400` seconds after the anchor's start. |
| ChartTransform.JoinRule | visualizations/storageusagepredictionchart/index.js:57-64 | A backbone point has no `used` value exactly when no `used` row has its day label. Otherwise its value is that of the first `used` row with that label. |
| ChartTransform.MatchingFirst | visualizations/storageusagepredictionchart/index.js:58-62 | The filter keeps only rows from `used` with the label. It is empty exactly when no row has the label, and its head is the first row that does. |
| ChartTransform.MatchingConcat | visualizations/storageusagepredictionchart/index.js:58 | Filtering by label distributes over concatenation. |
| ChartTransform.MatchingWithout | visualizations/storageusagepredictionchart/index.js:58 | Removing a row with another label does not change the filter's result. |
| ChartTransform.UnmatchedUsedRowDropped | visualizations/storageusagepredictionchart/index.js:57-64 | A `used` row whose label matches no `total` label has no effect: the series is the same without it. |
| ChartTransform.AnchorContinuity | visualizations/storageusagepredictionchart/index.js:66-85 | The anchor's prediction equals its own `used`, and no earlier point has a prediction. Forecast point k lies k steps of `(prediction - used) / days` along the line from the anchor's `used`, or is absent when the anchor has no `used`. |
| ChartTransform.LinearStepLaw | visualizations/storageusagepredictionchart/index.js:77-84 | On the forecast line, step 0 is the start value, consecutive steps differ by `(target - u) / days`, and step `days` is the target. |
| ChartTransform.ForecastReachesTarget | visualizations/storageusagepredictionchart/index.js:77-86 | When the anchor has a `used` value and `days > 0`, every point from the anchor on has a prediction. Consecutive predictions differ by one constant step, and the last point's prediction is exactly the predicted value. |
| ChartTransform.HorizonZero | visualizations/storageusagepredictionchart/index.js:77-86 | With `days = 0` nothing is appended. The series is the backbone alone, and it does not depend on the predicted value. |
| ChartTransform.EmptyTotal | visualizations/storageusagepredictionchart/index.js:55-86 | With no `total` rows, the series is `days` forecast points. Point k is labelled `(k + 1) * 86400` and predicts `prediction * (k + 1) / days`. |
| ChartTransform.ForecastOnFollowingDays | visualizations/storageusagepredictionchart/index.js:81-83 | When labels name calendar days at a fixed UTC offset, forecast point k falls on the (k+1)-th day after the anchor's day. |
| ChartTransform.ShiftedDay | visualizations/storageusagepredictionchart/index.js:83 | Under such a labelling, adding `m * 86400` seconds to a timestamp moves its label m days forward. |
| ChartTransform.TwoDayExample | visualizations/storageusagepredictionchart/index.js:43-89 | Example: totals 100 and 95 with used 40 and 50 on two days, target 130 and a 2-day horizon. The series is the two joined points, the anchor predicting 50, then 90 and 130 on the next two days. |
| HorizonQuery.SkipWhile | visualizations/storageusagepredictionchart/index.js:110 | A greedy `\s*`, `\d*`, `.*` or `(s)*` scan stops at the end of the longest run of its class. |
| HorizonQuery.UnitTail | visualizations/storageusagepredictionchart/index.js:110 | What `\s*(\d*)\s*day(s)*\)` captures at the start of a text consists of digits only. |
| HorizonQuery.UnitTailSound | visualizations/storageusagepredictionchart/index.js:110 | Whatever `UnitTail` captures, some way of matching the tail captures. |
| HorizonQuery.UnitTailComplete | visualizations/storageusagepredictionchart/index.js:110 | Every way of matching `\s*(\d*)\s*day(s)*\)` captures what `UnitTail` captures, so backtracking cannot change the captured digits. |
| HorizonQuery.UnitTailExact | visualizations/storageusagepredictionchart/index.js:110 | `UnitTail` captures d if and only if the tail pattern can match capturing d. |
| HorizonQuery.LastComma | visualizations/storageusagepredictionchart/index.js:110 | It finds the last comma in a range after which the tail pattern matches, and every such comma lies at or before it. |
| HorizonQuery.LastCommaOnCallLine | visualizations/storageusagepredictionchart/index.js:110 | From a `predictLinear(`, the comma found on its line gives a match, and every match from that call ends at or before it. The greedy `.*` cannot cross a line terminator. |
| HorizonQuery.FindFrom | visualizations/storageusagepredictionchart/index.js:110 | The search from position k reports a `predictLinear(` at or after k. `FindFromLeftmost` proves it is the leftmost match, through the furthest comma. |
| HorizonQuery.DigitsValue | visualizations/storageusagepredictionchart/index.js:78-81 | The last digit of the captured string is the units digit of its value. `DigitsRoundTrip` proves it inverts decimal writing, so it is the `Number` coercion of the digit string. |
| HorizonQuery.FindFromLeftmost | visualizations/storageusagepredictionchart/index.js:110 | The search returns the `exec` match: it starts at the first `predictLinear(` that has any match, and reaches the furthest comma from there. It returns nothing exactly when no match exists. |
| HorizonQuery.DaysInFutures | visualizations/storageusagepredictionchart/index.js:110 | The group is present exactly when the pattern matches. It is then the capture of the leftmost and furthest-reaching match, and consists of digits only. |
| HorizonQuery.HorizonDays | visualizations/storageusagepredictionchart/index.js:145 | A horizon exists exactly when the pattern matches. |
| HorizonQuery.DigitsRoundTrip | visualizations/storageusagepredictionchart/index.js:110 | Reading back the decimal digits of n gives n. This is the string-to-number coercion of the captured group. |
| HorizonQuery.OnlyCandidate | visualizations/storageusagepredictionchart/index.js:110 | A match at the first `predictLinear(`, through the last comma of the text, is the one `exec` reports. |
| HorizonQuery.HorizonRoundTrip | visualizations/storageusagepredictionchart/index.js:110 | Take a query `<prefix>predictLinear(<metric>, <n> day[s])<suffix>` with no other call before it, a single-line metric and no comma after it. Its horizon reads back as n. |
| HorizonQuery.NoCallNoHorizon | visualizations/storageusagepredictionchart/index.js:110 | A query with no `predictLinear(` yields no horizon. In the source, the destructuring then throws. |

## Left out

- The React component (`render`, `NerdGraphQuery`, the empty-state and loading placeholders, lines 92-236 except the pattern at line 110 and the hand-off at line 145) is user-interface glue. It is not modelled.
- Building the NerdGraph query string (lines 112-128) is not modelled.
- `toLocaleDateString` depends on the viewer's locale and time zone, so it is the parameter `dayLabel`. The conversion of seconds to milliseconds belongs to that parameter.
- `Object.values(x)[2]` picks a metric by key position in the result object. The model receives the picked value (`Sample.value`); key order in the query result is not modelled.
- The predicted value (line 54) is a scalar parameter. The exception thrown when the prediction query returns no rows is not modelled, and neither is ignoring extra rows.
- Numbers are reals, not IEEE doubles. Rounding is not modelled. A `NaN` forecast value, which comes from an undefined `lastUsed`, is an absent prediction. The division by zero when the horizon is 0 happens in the source but its result is never read; the model does not compute it.
- `days` reaches the transform as the captured string. The transform's numeric comparisons and division coerce it with `Number`, modelled by `DigitsValue` (the empty capture is 0).
- A failed match makes the source's destructuring throw a `TypeError`. The model gives `None` instead.
- Only this one pattern is modelled, not a general regular-expression engine.
- ChartTransform.ForecastOnFollowingDays: only covers labels by a fixed UTC offset. Daylight-saving changes, under which 86400 seconds is not always one calendar day, are not modelled.
