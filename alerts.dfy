/** The alerts panel: for every tool, in list order, up to three alerts (a
    latest value above 80, a non-decreasing series that rose by more than
    20, a forecast above 90), pushed in that order onto a list that is
    rebuilt from empty whenever the data changes. */
module Alerts {
  import opened Tools
  import opened Regression

  const ExceedThreshold: real := 80.0
  const TrendRise: real := 20.0
  const ForecastThreshold: real := 90.0

  /** The three alert messages, each carrying what its text interpolates. */
  datatype Alert =
    | Exceeded(ceid: string, latest: real)
    | UpwardTrend(ceid: string)
    | Projected(ceid: string)

  /** The position of each kind among a tool's alerts. */
  function Rank(a: Alert): nat {
    match a
    case Exceeded(_, _) => 0
    case UpwardTrend(_) => 1
    case Projected(_) => 2
  }

  /** `latestLimitation > 80`; on an empty series the latest value is
      `undefined` and the comparison is false. */
  predicate ThresholdFires(vs: seq<real>) {
    |vs| > 0 && vs[|vs| - 1] > ExceedThreshold
  }

  /** `limitations.every((val, i, arr) => i === 0 || val >= arr[i - 1])`:
      each value at least the one before it, true on a series of length 0
      or 1. */
  predicate IsIncreasing(vs: seq<real>) {
    |vs| <= 1 || (vs[|vs| - 1] >= vs[|vs| - 2] && IsIncreasing(vs[..|vs| - 1]))
  }

  /** `isIncreasing && last - first > 20`; on an empty series the difference
      is NaN and the comparison is false. */
  predicate TrendFires(vs: seq<real>) {
    IsIncreasing(vs) && |vs| > 0 && vs[|vs| - 1] - vs[0] > TrendRise
  }

  /** `forecast > 90`; a NaN forecast (None) never exceeds. */
  predicate ForecastFires(x: seq<real>, y: seq<real>)
    requires |x| == |y|
  {
    var f := Forecast(x, y);
    f.Some? && f.value > ForecastThreshold
  }

  /** The alerts one pass of the `forEach` body pushes for one tool. */
  function ToolAlerts(t: ToolData): (r: seq<Alert>)
    ensures |r| <= 3
    ensures forall i, j :: 0 <= i < j < |r| ==> Rank(r[i]) < Rank(r[j])
    ensures forall a :: a in r ==> a.ceid == t.CEID
  {
    var vs := Values(t);
    (if ThresholdFires(vs) then [Exceeded(t.CEID, vs[|vs| - 1])] else [])
    + (if TrendFires(vs) then [UpwardTrend(t.CEID)] else [])
    + (if ForecastFires(Days(t), vs) then [Projected(t.CEID)] else [])
  }

  /** The `forEach` over the tools: each tool's alerts after those of the
      tools before it. */
  function FlatMap(f: ToolData -> seq<Alert>, data: seq<ToolData>): seq<Alert> {
    if |data| == 0 then []
    else FlatMap(f, data[..|data| - 1]) + f(data[|data| - 1])
  }

  /** The whole list of alerts for the tool list. */
  function AllAlerts(data: seq<ToolData>): (r: seq<Alert>)
    ensures |r| <= 3 * |data|
  {
    FlatMapBound(ToolAlerts, data, 3);
    FlatMap(ToolAlerts, data)
  }

  /** One pass of the `forEach` body: the checks in source order, each
      pushing at most one alert. */
  method PushToolAlerts(alerts: seq<Alert>, tool: ToolData) returns (result: seq<Alert>)
    ensures result == alerts + ToolAlerts(tool)
  {
    result := alerts;
    var limitations := Values(tool);
    if |limitations| > 0 && limitations[|limitations| - 1] > ExceedThreshold {
      result := result + [Exceeded(tool.CEID, limitations[|limitations| - 1])];
    }
    var isIncreasing := IsIncreasing(limitations);
    if isIncreasing && |limitations| > 0 && limitations[|limitations| - 1] - limitations[0] > TrendRise {
      result := result + [UpwardTrend(tool.CEID)];
    }
    var forecast := Forecast(Days(tool), limitations);
    if forecast.Some? && forecast.value > ForecastThreshold {
      result := result + [Projected(tool.CEID)];
    }
  }

  /** The effect's body: a fresh list, one pass per tool, and the list then
      handed to `setAlerts`. */
  method BuildAlerts(data: seq<ToolData>) returns (alerts: seq<Alert>)
    ensures alerts == AllAlerts(data)
  {
    alerts := [];
    var i := 0;
    while i < |data|
      invariant 0 <= i <= |data|
      invariant alerts == FlatMap(ToolAlerts, data[..i])
    {
      alerts := PushToolAlerts(alerts, data[i]);
      assert data[..i + 1][..i] == data[..i];
      i := i + 1;
    }
    assert data[..i] == data;
  }

  /** The component's state: the list currently rendered. */
  class AlertPanel {
    var alerts: seq<Alert>

    /** `useState<string[]>([])`. */
    constructor ()
      ensures alerts == []
    {
      alerts := [];
    }

    /** The effect run on a change of `data`: the new list depends on the
        data alone, never on the alerts shown before. */
    method Refresh(data: seq<ToolData>)
      modifies this
      ensures alerts == AllAlerts(data)
    {
      alerts := BuildAlerts(data);
    }
  }

  // What the list contains.

  /** Every value is at most every later value. */
  predicate Sorted(vs: seq<real>) {
    forall i, j :: 0 <= i <= j < |vs| ==> vs[i] <= vs[j]
  }

  /** The adjacent-pairs test of `every` is the same as the whole series
      being sorted. */
  lemma {:induction false} IsIncreasingIffSorted(vs: seq<real>)
    ensures IsIncreasing(vs) <==> Sorted(vs)
  {
    if |vs| > 1 {
      var n := |vs| - 1;
      var p := vs[..n];
      IsIncreasingIffSorted(p);
      if IsIncreasing(vs) {
        forall i, j | 0 <= i <= j < |vs|
          ensures vs[i] <= vs[j]
        {
          if j < n {
            assert p[i] == vs[i] && p[j] == vs[j];
          } else if i < j {
            assert p[i] <= p[n - 1];
          }
        }
      } else if vs[n] >= vs[n - 1] {
        var i, j :| 0 <= i <= j < |p| && p[i] > p[j];
        assert vs[i] > vs[j];
      }
    }
  }

  /** The threshold alert is present, with value v, exactly when the tool's
      last window holds v and v is above 80. */
  lemma ThresholdAlertIff(t: ToolData, v: real)
    ensures Exceeded(t.CEID, v) in ToolAlerts(t) <==>
            |t.limitations| > 0 && t.limitations[|t.limitations| - 1].value == v && v > ExceedThreshold
  {
  }

  /** The trend alert is present exactly when the series is sorted and its
      last value exceeds its first by more than 20. */
  lemma TrendAlertIff(t: ToolData)
    ensures UpwardTrend(t.CEID) in ToolAlerts(t) <==>
            |t.limitations| > 0
            && Sorted(Values(t))
            && t.limitations[|t.limitations| - 1].value - t.limitations[0].value > TrendRise
  {
    IsIncreasingIffSorted(Values(t));
  }

  /** The forecast alert is present exactly when the forecast exceeds 90. */
  lemma ProjectedIff(t: ToolData)
    ensures Projected(t.CEID) in ToolAlerts(t) <==> ForecastFires(Days(t), Values(t))
  {
  }

  /** The forecast alert is present exactly when a line was fitted and its
      value 30 days past the last day is above 90. */
  lemma ForecastAlertIff(t: ToolData)
    ensures Projected(t.CEID) in ToolAlerts(t) <==>
            exists line :: Fit(Days(t), Values(t)) == Some(line)
                           && Evaluate(line, Max(Days(t)) + Horizon) > ForecastThreshold
  {
    ProjectedIff(t);
    var x, y := Days(t), Values(t);
    if ForecastFires(x, y) {
      var line := Fit(x, y).value;
      assert Fit(x, y) == Some(line);
    }
  }

  /** A tool without windows raises nothing. */
  lemma EmptyToolNoAlerts(t: ToolData)
    requires |t.limitations| == 0
    ensures ToolAlerts(t) == []
  {
    assert Totals(Days(t), Values(t)) == NoMoments;
  }

  /** A tool with one window can only raise the threshold alert: its rise
      is 0 and one day gives no line. */
  lemma SingleWindowAlerts(t: ToolData)
    requires |t.limitations| == 1
    ensures ToolAlerts(t) == if t.limitations[0].value > ExceedThreshold
                             then [Exceeded(t.CEID, t.limitations[0].value)] else []
  {
    NoFitOnEqualDays(Days(t), Values(t));
  }

  /** With ascending days whose values lie on the line a * day + b, the
      forecast alert is raised exactly when the line exceeds 90 thirty days
      after the last day. */
  lemma LinearToolForecast(t: ToolData, a: real, b: real)
    requires WellFormed(t) && |t.limitations| >= 2
    requires Values(t) == LineValues(Days(t), a, b)
    ensures Projected(t.CEID) in ToolAlerts(t) <==>
            Evaluate(Line(a, b), t.limitations[|t.limitations| - 1].day as real + Horizon) > ForecastThreshold
  {
    var x := Days(t);
    assert forall i, j :: 0 <= i < j < |x| ==> x[i] < x[j];
    ForecastOnAscendingLine(x, a, b);
    ProjectedIff(t);
  }

  /** At most k alerts per tool give at most k * n alerts for n tools. */
  lemma {:induction false} FlatMapBound(f: ToolData -> seq<Alert>, data: seq<ToolData>, k: nat)
    requires forall t :: |f(t)| <= k
    ensures |FlatMap(f, data)| <= k * |data|
  {
    if |data| > 0 {
      FlatMapBound(f, data[..|data| - 1], k);
    }
  }

  lemma {:induction false} FlatMapAppend(f: ToolData -> seq<Alert>, a: seq<ToolData>, b: seq<ToolData>)
    ensures FlatMap(f, a + b) == FlatMap(f, a) + FlatMap(f, b)
    decreases |b|
  {
    if |b| == 0 {
      assert a + b == a;
    } else {
      assert (a + b)[..|a + b| - 1] == a + b[..|b| - 1];
      FlatMapAppend(f, a, b[..|b| - 1]);
    }
  }

  lemma {:induction false} FlatMapMembers(f: ToolData -> seq<Alert>, data: seq<ToolData>, x: Alert)
    ensures x in FlatMap(f, data) <==> exists i :: 0 <= i < |data| && x in f(data[i])
  {
    if |data| > 0 {
      var p := data[..|data| - 1];
      FlatMapMembers(f, p, x);
      if exists i :: 0 <= i < |data| && x in f(data[i]) {
        var i :| 0 <= i < |data| && x in f(data[i]);
        if i < |p| {
          assert p[i] == data[i];
        }
      }
    }
  }

  /** Alerts for a concatenation are the alerts of its parts, in order. */
  lemma AllAlertsAppend(a: seq<ToolData>, b: seq<ToolData>)
    ensures AllAlerts(a + b) == AllAlerts(a) + AllAlerts(b)
  {
    FlatMapAppend(ToolAlerts, a, b);
  }

  /** An alert is in the list exactly when one of the tools raised it. */
  lemma AllAlertsMembers(data: seq<ToolData>, a: Alert)
    ensures a in AllAlerts(data) <==> exists i :: 0 <= i < |data| && a in ToolAlerts(data[i])
  {
    FlatMapMembers(ToolAlerts, data, a);
  }

  /** No tool, no alerts: the effect over an empty list leaves the list empty. */
  lemma NoDataNoAlerts()
    ensures AllAlerts([]) == []
  {
  }

  /** Days [0, 1, 2, 3] with values [10, 20, 30, 40]: the latest value 40
      is not above 80, the series rose by 30, and the forecast at day 33 is
      340. */
  lemma AlertsExample()
    ensures ToolAlerts(ToolData("T1", [Window(0, 10.0), Window(1, 20.0), Window(2, 30.0), Window(3, 40.0)]))
            == [UpwardTrend("T1"), Projected("T1")]
  {
    var t := ToolData("T1", [Window(0, 10.0), Window(1, 20.0), Window(2, 30.0), Window(3, 40.0)]);
    assert Values(t) == [10.0, 20.0, 30.0, 40.0];
    assert Days(t) == [0.0, 1.0, 2.0, 3.0];
    ExampleChecks();
  }

  lemma ExampleChecks()
    ensures !ThresholdFires([10.0, 20.0, 30.0, 40.0])
    ensures TrendFires([10.0, 20.0, 30.0, 40.0])
    ensures ForecastFires([0.0, 1.0, 2.0, 3.0], [10.0, 20.0, 30.0, 40.0])
  {
    IsIncreasingIffSorted([10.0, 20.0, 30.0, 40.0]);
    FitExample();
  }
}
