/**
 * The data transform behind the storage usage prediction chart
 * (`transformDataAreaChart`): it normalises the `total` and `used` query
 * results, left-joins `used` onto `total` by calendar-day label, anchors the
 * forecast on the last observed point and appends `days` points on a straight
 * line towards the predicted value.
 *
 * The calendar-day label (`toLocaleDateString` of the timestamp) depends on the
 * locale and time zone of the viewer; it is the parameter `dayLabel` throughout.
 */
module ChartTransform {
  import opened Wrappers

  /** Seconds between two forecast points. */
  const SecondsPerDay: int := 86400

  /** One row of a time-series query result, with its metric already selected. */
  datatype Sample = Sample(beginTimeSeconds: int, value: real)

  /** A normalised row: its start timestamp, its calendar-day label and its metric value. */
  datatype Entry = Entry(start: int, name: string, value: real)

  /**
   * One point of the chart series. A field the source leaves off the object is
   * `None`; so is the anchor's `prediction` when the anchor has no `used`
   * value, and so is a forecast `prediction` computed from an undefined
   * `lastUsed` (a NaN in the source).
   */
  datatype Point = Point(
    start: Option<int>,
    name: string,
    available: Option<real>,
    used: Option<real>,
    prediction: Option<real>)

  // ---------------------------------------------------------------------------
  // Specification functions
  // ---------------------------------------------------------------------------

  /** Each row becomes `{start, name, value}`, `name` being its calendar-day label. */
  function Normalise(results: seq<Sample>, dayLabel: int -> string): (r: seq<Entry>)
    ensures |r| == |results|
  {
    seq(|results|, i requires 0 <= i < |results| =>
      Entry(results[i].beginTimeSeconds, dayLabel(results[i].beginTimeSeconds), results[i].value))
  }

  /** The rows of `used` labelled `name`, in order (`used.filter(x => x.name === name)`). */
  function Matching(used: seq<Entry>, name: string): (r: seq<Entry>)
    ensures |r| <= |used|
  {
    if used == [] then []
    else if used[0].name == name then [used[0]] + Matching(used[1..], name)
    else Matching(used[1..], name)
  }

  /** A `total` row with the value of its first same-day `used` row attached, if there is one. */
  function Joined(cur: Entry, used: seq<Entry>): Point
  {
    var matched := Matching(used, cur.name);
    Point(Some(cur.start), cur.name, Some(cur.value),
      if |matched| > 0 then Some(matched[0].value) else None, None)
  }

  /** The joined `total` series; its last point also carries `prediction`, equal to its `used`. */
  function Backbone(total: seq<Entry>, used: seq<Entry>): seq<Point>
  {
    seq(|total|, i requires 0 <= i < |total| =>
      var p := Joined(total[i], used);
      if i == |total| - 1 then p.(prediction := p.used) else p)
  }

  /** `lastUsed` after the join: 0 when `total` is empty, else the anchor's `used`. */
  function LastUsed(total: seq<Entry>, used: seq<Entry>): Option<real>
  {
    if total == [] then Some(0.0) else Joined(total[|total| - 1], used).used
  }

  /** `lastDate` after the join: 0 when `total` is empty, else the anchor's start. */
  function LastDate(total: seq<Entry>): int
  {
    if total == [] then 0 else total[|total| - 1].start
  }

  /** The point `index` steps along the line that starts at `origin` and rises by `step` per step. */
  function Extrapolate(origin: real, step: real, index: nat): real
  {
    origin + step * index as real
  }

  /** The forecast value `index` days after the anchor, on the line from `lastUsed` to `target`. */
  function ForecastValue(lastUsed: Option<real>, target: real, days: nat, index: nat): Option<real>
    requires 1 <= index <= days
  {
    match lastUsed
    case None => None
    case Some(u) => Some(Extrapolate(u, (target - u) / days as real, index))
  }

  /** The `days` appended points, one per day after `lastDate`. */
  function Forecast(lastUsed: Option<real>, lastDate: int, target: real, days: nat, dayLabel: int -> string): (r: seq<Point>)
    ensures |r| == days
  {
    seq(days, k requires 0 <= k < days =>
      Point(None, dayLabel(lastDate + (k + 1) * SecondsPerDay), None, None,
        ForecastValue(lastUsed, target, days, k + 1)))
  }

  /** The whole chart series: the joined backbone followed by the forecast. */
  function Projection(totalResults: seq<Sample>, usedResults: seq<Sample>, prediction: real,
                      days: nat, dayLabel: int -> string): seq<Point>
  {
    var total := Normalise(totalResults, dayLabel);
    var used := Normalise(usedResults, dayLabel);
    Backbone(total, used) + Forecast(LastUsed(total, used), LastDate(total), prediction, days, dayLabel)
  }

  // ---------------------------------------------------------------------------
  // The transform
  // ---------------------------------------------------------------------------

  /**
   * The `reduce` over the normalised `total` rows: each row is joined with its
   * first same-day `used` row, and the last one also becomes the anchor, whose
   * `used` and `start` are recorded in `lastUsed` and `lastDate`.
   */
  method JoinAndAnchor(total: seq<Entry>, used: seq<Entry>)
    returns (final: seq<Point>, lastUsed: Option<real>, lastDate: int)
    ensures final == Backbone(total, used)
    ensures lastUsed == LastUsed(total, used) && lastDate == LastDate(total)
  {
    lastUsed, lastDate := Some(0.0), 0;
    final := [];
    for index := 0 to |total|
      invariant final == Backbone(total, used)[..index]
      invariant lastUsed == (if 0 < index == |total| then LastUsed(total, used) else Some(0.0))
      invariant lastDate == (if 0 < index == |total| then LastDate(total) else 0)
    {
      var cur := total[index];
      var point := Point(Some(cur.start), cur.name, Some(cur.value), None, None);
      var matchedUsed := Matching(used, cur.name);
      if |matchedUsed| > 0 {
        point := point.(used := Some(matchedUsed[0].value));
      }
      if index == |total| - 1 {
        point := point.(prediction := point.used);
        lastUsed := point.used;
        lastDate := cur.start;
      }
      assert Backbone(total, used)[..index + 1] == Backbone(total, used)[..index] + [point];
      final := final + [point];
    }
    assert Backbone(total, used)[..|total|] == Backbone(total, used);
  }

  /**
   * The chart series for the `total` and `used` rows, the predicted value and
   * the forecast horizon: the joined backbone, then one forecast point per day
   * appended by a counting loop.
   */
  method TransformDataAreaChart(totalResults: seq<Sample>, usedResults: seq<Sample>, prediction: real,
                                days: nat, dayLabel: int -> string)
    returns (final: seq<Point>)
    ensures final == Projection(totalResults, usedResults, prediction, days, dayLabel)
  {
    var total := Normalise(totalResults, dayLabel);
    var used := Normalise(usedResults, dayLabel);
    var lastUsed, lastDate;
    final, lastUsed, lastDate := JoinAndAnchor(total, used);

    // With no forecast days the source's quotient is never read; with an
    // undefined `lastUsed` every forecast value is NaN, modelled as None.
    var perDayStepIncrement := 0.0;
    if lastUsed.Some? && days > 0 {
      perDayStepIncrement := (prediction - lastUsed.value) / days as real;
    }
    ghost var backbone := final;
    ghost var forecast := Forecast(lastUsed, lastDate, prediction, days, dayLabel);
    for index := 1 to days + 1
      invariant final == backbone + forecast[..index - 1]
    {
      var value := if lastUsed.Some? then Some(Extrapolate(lastUsed.value, perDayStepIncrement, index)) else None;
      var point := Point(None, dayLabel(lastDate + index * SecondsPerDay), None, None, value);
      assert value == ForecastValue(lastUsed, prediction, days, index);
      assert point == forecast[index - 1];
      assert forecast[..index] == forecast[..index - 1] + [point];
      final := final + [point];
    }
    assert forecast[..days] == forecast;
  }

  // ---------------------------------------------------------------------------
  // Properties of the chart series
  // ---------------------------------------------------------------------------

  /**
   * The series is the backbone followed by the forecast: one point per `total`
   * row, in order, with that row's start, label and value, then `days` points
   * that carry only a label (a day after the anchor's start) and a prediction.
   */
  lemma ProjectionShape(totalResults: seq<Sample>, usedResults: seq<Sample>, prediction: real,
                        days: nat, dayLabel: int -> string)
    ensures var out := Projection(totalResults, usedResults, prediction, days, dayLabel);
      var n := |totalResults|;
      var lastDate := if n == 0 then 0 else totalResults[n - 1].beginTimeSeconds;
      && |out| == n + days
      && (forall i :: 0 <= i < n ==>
            && out[i].start == Some(totalResults[i].beginTimeSeconds)
            && out[i].name == dayLabel(totalResults[i].beginTimeSeconds)
            && out[i].available == Some(totalResults[i].value))
      && (forall k :: n <= k < n + days ==>
            && out[k].start.None? && out[k].available.None? && out[k].used.None?
            && out[k].name == dayLabel(lastDate + (k - n + 1) * SecondsPerDay))
  {
  }

  /**
   * The join rule: a backbone point has a `used` value exactly when some `used`
   * row has the same day label, and then it is the value of the first such row.
   */
  lemma JoinRule(totalResults: seq<Sample>, usedResults: seq<Sample>, prediction: real,
                 days: nat, dayLabel: int -> string, i: nat)
    requires i < |totalResults|
    ensures var out := Projection(totalResults, usedResults, prediction, days, dayLabel);
      var day := dayLabel(totalResults[i].beginTimeSeconds);
      && (out[i].used.None? <==>
            forall j :: 0 <= j < |usedResults| ==> dayLabel(usedResults[j].beginTimeSeconds) != day)
      && (out[i].used.Some? ==>
            exists j :: 0 <= j < |usedResults| && dayLabel(usedResults[j].beginTimeSeconds) == day
              && out[i].used.value == usedResults[j].value
              && forall k :: 0 <= k < j ==> dayLabel(usedResults[k].beginTimeSeconds) != day)
  {
    var total := Normalise(totalResults, dayLabel);
    var used := Normalise(usedResults, dayLabel);
    var out := Projection(totalResults, usedResults, prediction, days, dayLabel);
    var day := total[i].name;
    assert day == dayLabel(totalResults[i].beginTimeSeconds);
    assert out[i] == Backbone(total, used)[i];
    assert out[i].used == Joined(total[i], used).used;
    var matched := Matching(used, day);
    MatchingFirst(used, day);
    assert forall j :: 0 <= j < |usedResults| ==> used[j].name == dayLabel(usedResults[j].beginTimeSeconds);
    if matched != [] {
      var j :| 0 <= j < |used| && used[j] == matched[0] && forall k :: 0 <= k < j ==> used[k].name != day;
      assert dayLabel(usedResults[j].beginTimeSeconds) == day;
      assert out[i].used.value == usedResults[j].value;
    }
  }

  /** Where a point of the series comes from: the backbone below `|totalResults|`, the forecast above. */
  lemma ProjectionAt(totalResults: seq<Sample>, usedResults: seq<Sample>, prediction: real,
                     days: nat, dayLabel: int -> string, k: nat)
    requires k < |totalResults| + days
    ensures |Projection(totalResults, usedResults, prediction, days, dayLabel)| == |totalResults| + days
    ensures var total := Normalise(totalResults, dayLabel);
      var used := Normalise(usedResults, dayLabel);
      Projection(totalResults, usedResults, prediction, days, dayLabel)[k] ==
        if k < |totalResults| then Backbone(total, used)[k]
        else Forecast(LastUsed(total, used), LastDate(total), prediction, days, dayLabel)[k - |totalResults|]
  {
  }

  /**
   * Anchor continuity: only the last backbone point carries a prediction, equal
   * to its own `used`, and the k-th forecast point lies k steps along the line
   * from that value, each step being `(prediction - used) / days`.
   */
  lemma AnchorContinuity(totalResults: seq<Sample>, usedResults: seq<Sample>, prediction: real,
                         days: nat, dayLabel: int -> string)
    requires |totalResults| > 0
    ensures var out := Projection(totalResults, usedResults, prediction, days, dayLabel);
      var n := |totalResults| - 1;
      && out[n].prediction == out[n].used
      && (forall i :: 0 <= i < n ==> out[i].prediction.None?)
      && (forall k :: n < k < |out| ==>
            out[k].prediction ==
              if out[n].used.None? then None
              else Some(Extrapolate(out[n].used.value, (prediction - out[n].used.value) / days as real, k - n)))
  {
    var out := Projection(totalResults, usedResults, prediction, days, dayLabel);
    var n := |totalResults| - 1;
    var total := Normalise(totalResults, dayLabel);
    var used := Normalise(usedResults, dayLabel);
    ProjectionAt(totalResults, usedResults, prediction, days, dayLabel, n);
    assert LastUsed(total, used) == out[n].used;
    forall i | 0 <= i < n
      ensures out[i].prediction.None?
    {
      ProjectionAt(totalResults, usedResults, prediction, days, dayLabel, i);
    }
    forall k | n < k < |out|
      ensures out[k].prediction == ForecastValue(out[n].used, prediction, days, k - n)
    {
      ProjectionAt(totalResults, usedResults, prediction, days, dayLabel, k);
    }
  }

  /**
   * The linear step law: along the line, consecutive points differ by the
   * step, and `days` steps of `(target - u) / days` lead from `u` to `target`.
   */
  lemma LinearStepLaw(u: real, target: real, days: nat, k: nat)
    requires days > 0
    ensures Extrapolate(u, (target - u) / days as real, 0) == u
    ensures Extrapolate(u, (target - u) / days as real, k + 1) - Extrapolate(u, (target - u) / days as real, k)
         == (target - u) / days as real
    ensures Extrapolate(u, (target - u) / days as real, days) == target
  {
    var step := (target - u) / days as real;
    assert step * (k + 1) as real == step * k as real + step;
    assert step * days as real == target - u;
  }

  /**
   * The step law on the chart series: from the anchor on, the prediction rises
   * by a constant step per day and reaches the target on the last day.
   */
  lemma ForecastReachesTarget(totalResults: seq<Sample>, usedResults: seq<Sample>, prediction: real,
                              days: nat, dayLabel: int -> string)
    requires |totalResults| > 0 && days > 0
    requires Projection(totalResults, usedResults, prediction, days, dayLabel)[|totalResults| - 1].used.Some?
    ensures var out := Projection(totalResults, usedResults, prediction, days, dayLabel);
      var n := |totalResults| - 1;
      var u := out[n].used.value;
      && (forall k :: n <= k < |out| ==> out[k].prediction.Some?)
      && (forall k :: n < k < |out| ==>
            out[k].prediction.value - out[k - 1].prediction.value == (prediction - u) / days as real)
      && out[|out| - 1].prediction == Some(prediction)
  {
    var out := Projection(totalResults, usedResults, prediction, days, dayLabel);
    var n := |totalResults| - 1;
    var u := out[n].used.value;
    var step := (prediction - u) / days as real;
    AnchorContinuity(totalResults, usedResults, prediction, days, dayLabel);
    assert forall k :: n < k < |out| ==> out[k].prediction == Some(Extrapolate(u, step, k - n));
    assert out[n].prediction == Some(u);
    forall k | n < k < |out|
      ensures out[k].prediction.value - out[k - 1].prediction.value == step
    {
      LinearStepLaw(u, prediction, days, k - n - 1);
    }
    LinearStepLaw(u, prediction, days, 0);
  }

  /**
   * With a horizon of zero days nothing is appended: the series is the joined
   * backbone alone, and the predicted value has no effect on it.
   */
  lemma HorizonZero(totalResults: seq<Sample>, usedResults: seq<Sample>, prediction: real, other: real,
                    dayLabel: int -> string)
    ensures var out := Projection(totalResults, usedResults, prediction, 0, dayLabel);
      && |out| == |totalResults|
      && (forall i :: 0 <= i < |out| ==> out[i].start.Some?)
      && out == Projection(totalResults, usedResults, other, 0, dayLabel)
  {
  }

  /**
   * With no `total` rows the anchor keeps its defaults, 0 at timestamp 0: the
   * series is the forecast alone, a line from 0 to the predicted value.
   */
  lemma EmptyTotal(usedResults: seq<Sample>, prediction: real, days: nat, dayLabel: int -> string)
    ensures var out := Projection([], usedResults, prediction, days, dayLabel);
      && |out| == days
      && forall k :: 0 <= k < days ==>
           out[k] == Point(None, dayLabel((k + 1) * SecondsPerDay), None, None,
                           Some(prediction * (k + 1) as real / days as real))
  {
    var out := Projection([], usedResults, prediction, days, dayLabel);
    assert Normalise([], dayLabel) == [];
    forall k | 0 <= k < days
      ensures out[k].prediction == Some(prediction * (k + 1) as real / days as real)
    {
      ProjectionAt([], usedResults, prediction, days, dayLabel, k);
      var used := Normalise(usedResults, dayLabel);
      assert LastUsed([], used) == Some(0.0) && LastDate([]) == 0;
      assert out[k] == Forecast(Some(0.0), 0, prediction, days, dayLabel)[k];
      assert out[k].prediction == ForecastValue(Some(0.0), prediction, days, k + 1);
      assert ForecastValue(Some(0.0), prediction, days, k + 1)
          == Some(Extrapolate(0.0, (prediction - 0.0) / days as real, k + 1));
      ScaledStep(prediction, days, k);
    }
  }

  /** Starting from 0, `k + 1` steps of `p / d` reach `p * (k + 1) / d`. */
  lemma ScaledStep(p: real, d: nat, k: nat)
    requires d > 0
    ensures Extrapolate(0.0, (p - 0.0) / d as real, k + 1) == p * (k + 1) as real / d as real
  {
  }

  /**
   * What the join reads from the filter: it is empty exactly when no row has
   * the label, every row it keeps has the label, and its head is the first
   * such row.
   */
  lemma {:induction false} MatchingFirst(used: seq<Entry>, name: string)
    ensures var r := Matching(used, name);
      && (forall x :: x in r ==> x in used && x.name == name)
      && (r == [] <==> forall j :: 0 <= j < |used| ==> used[j].name != name)
      && (r != [] ==>
            exists j :: 0 <= j < |used| && used[j] == r[0] && forall k :: 0 <= k < j ==> used[k].name != name)
  {
    if used != [] {
      MatchingFirst(used[1..], name);
      if used[0].name != name {
        var r := Matching(used[1..], name);
        if r != [] {
          var j :| 0 <= j < |used[1..]| && used[1..][j] == r[0] && forall k :: 0 <= k < j ==> used[1..][k].name != name;
          assert used[j + 1] == r[0];
          assert forall k :: 0 <= k < j + 1 ==> used[k].name != name by {
            forall k | 0 < k < j + 1 ensures used[k].name != name {
              assert used[k] == used[1..][k - 1];
            }
          }
        } else {
          assert forall j :: 1 <= j < |used| ==> used[j] == used[1..][j - 1];
        }
      } else {
        assert used[0] == Matching(used, name)[0];
      }
    }
  }

  /** Filtering distributes over concatenation. */
  lemma {:induction false} MatchingConcat(a: seq<Entry>, b: seq<Entry>, name: string)
    ensures Matching(a + b, name) == Matching(a, name) + Matching(b, name)
  {
    if a == [] {
      assert a + b == b;
    } else {
      assert (a + b)[1..] == a[1..] + b;
      MatchingConcat(a[1..], b, name);
    }
  }

  /** Removing a row whose label is not `name` leaves the rows labelled `name` unchanged. */
  lemma MatchingWithout(used: seq<Entry>, j: nat, name: string)
    requires j < |used| && used[j].name != name
    ensures Matching(used[..j] + used[j + 1..], name) == Matching(used, name)
  {
    var before, row, after := used[..j], [used[j]], used[j + 1..];
    assert used == before + row + after;
    assert row[1..] == [];
    assert Matching(row, name) == [];
    MatchingConcat(before + row, after, name);
    MatchingConcat(before, row, name);
    MatchingConcat(before, after, name);
  }

  /**
   * A `used` row whose day label is no `total` row's label is dropped: removing
   * it leaves the chart series unchanged.
   */
  lemma UnmatchedUsedRowDropped(totalResults: seq<Sample>, usedResults: seq<Sample>, prediction: real,
                                days: nat, dayLabel: int -> string, j: nat)
    requires j < |usedResults|
    requires forall i :: 0 <= i < |totalResults| ==>
      dayLabel(totalResults[i].beginTimeSeconds) != dayLabel(usedResults[j].beginTimeSeconds)
    ensures Projection(totalResults, usedResults, prediction, days, dayLabel)
         == Projection(totalResults, usedResults[..j] + usedResults[j + 1..], prediction, days, dayLabel)
  {
    var total := Normalise(totalResults, dayLabel);
    var used := Normalise(usedResults, dayLabel);
    var fewer := Normalise(usedResults[..j] + usedResults[j + 1..], dayLabel);
    assert fewer == used[..j] + used[j + 1..];
    forall i | 0 <= i < |total|
      ensures Joined(total[i], used) == Joined(total[i], fewer)
    {
      MatchingWithout(used, j, total[i].name);
    }
    assert Backbone(total, used) == Backbone(total, fewer);
    assert LastUsed(total, used) == LastUsed(total, fewer);
  }

  /**
   * With labels naming the calendar day of a zone at a fixed offset from UTC
   * (`dayName` of the day number there), the forecast points fall on the days
   * right after the anchor's day, one each and in order.
   */
  lemma ForecastOnFollowingDays(lastUsed: Option<real>, lastDate: int, prediction: real, days: nat,
                                dayLabel: int -> string, dayName: int -> string, offset: int)
    requires forall ts :: dayLabel(ts) == dayName((ts + offset) / SecondsPerDay)
    ensures var forecast := Forecast(lastUsed, lastDate, prediction, days, dayLabel);
      forall k :: 0 <= k < |forecast| ==> forecast[k].name == dayName((lastDate + offset) / SecondsPerDay + (k + 1))
  {
    var forecast := Forecast(lastUsed, lastDate, prediction, days, dayLabel);
    forall k | 0 <= k < |forecast|
      ensures forecast[k].name == dayName((lastDate + offset) / SecondsPerDay + (k + 1))
    {
      ShiftedDay(dayLabel, dayName, offset, lastDate, k + 1);
    }
  }

  /** Under a labelling by day number, the label `m` days after `t` is the name of the `m`-th day after `t`'s. */
  lemma ShiftedDay(dayLabel: int -> string, dayName: int -> string, offset: int, t: int, m: int)
    requires forall ts :: dayLabel(ts) == dayName((ts + offset) / SecondsPerDay)
    ensures dayLabel(t + m * SecondsPerDay) == dayName((t + offset) / SecondsPerDay + m)
  {
    DayAfter(t + offset, m);
    assert t + m * SecondsPerDay + offset == t + offset + m * SecondsPerDay;
  }

  /** Moving a timestamp forward by `m` whole days moves its day number forward by `m`. */
  lemma DayAfter(t: int, m: int)
    ensures (t + m * SecondsPerDay) / SecondsPerDay == t / SecondsPerDay + m
  {
    var q, r := t / SecondsPerDay, t % SecondsPerDay;
    assert t == q * SecondsPerDay + r && 0 <= r < SecondsPerDay;
    assert t + m * SecondsPerDay == (q + m) * SecondsPerDay + r;
  }

  /**
   * A worked example: two observed days, a target of 130 and a horizon of two
   * days give the two joined days, the second one anchoring the forecast, then
   * 90 and 130 on the two following days.
   */
  lemma TwoDayExample(dayLabel: int -> string)
    requires dayLabel(0) != dayLabel(SecondsPerDay)
    ensures Projection([Sample(0, 100.0), Sample(SecondsPerDay, 95.0)],
                       [Sample(0, 40.0), Sample(SecondsPerDay, 50.0)], 130.0, 2, dayLabel)
         == [Point(Some(0), dayLabel(0), Some(100.0), Some(40.0), None),
             Point(Some(SecondsPerDay), dayLabel(SecondsPerDay), Some(95.0), Some(50.0), Some(50.0)),
             Point(None, dayLabel(2 * SecondsPerDay), None, None, Some(90.0)),
             Point(None, dayLabel(3 * SecondsPerDay), None, None, Some(130.0))]
  {
    var totalResults := [Sample(0, 100.0), Sample(SecondsPerDay, 95.0)];
    var usedResults := [Sample(0, 40.0), Sample(SecondsPerDay, 50.0)];
    var total := Normalise(totalResults, dayLabel);
    var used := Normalise(usedResults, dayLabel);
    assert used == [Entry(0, dayLabel(0), 40.0), Entry(SecondsPerDay, dayLabel(SecondsPerDay), 50.0)];
    assert used[1..] == [used[1]] && used[1..][1..] == [];
    assert Matching(used[1..], dayLabel(0)) == [];
    assert Matching(used, dayLabel(0)) == [used[0]];
    assert Matching(used[1..], dayLabel(SecondsPerDay)) == [used[1]];
    assert Matching(used, dayLabel(SecondsPerDay)) == [used[1]];
    assert LastUsed(total, used) == Some(50.0);
    assert LastDate(total) == SecondsPerDay;
    var out := Projection(totalResults, usedResults, 130.0, 2, dayLabel);
    ProjectionAt(totalResults, usedResults, 130.0, 2, dayLabel, 2);
    ProjectionAt(totalResults, usedResults, 130.0, 2, dayLabel, 3);
    assert out[2].prediction == ForecastValue(Some(50.0), 130.0, 2, 1);
    assert out[3].prediction == ForecastValue(Some(50.0), 130.0, 2, 2);
  }
}
