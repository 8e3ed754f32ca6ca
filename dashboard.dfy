/** The two summary metrics of the dashboard cards: the average limitation
    (an unweighted mean of per-tool means) and the number of critical CEIDs. */
module Dashboard {
  import opened Tools

  /** The threshold the dashboard compares raw stored values against. */
  const CriticalThreshold: real := 80.0

  /** JavaScript number addition where None stands for NaN, which absorbs. */
  function Plus(x: Option<real>, y: Option<real>): Option<real> {
    if x.Some? && y.Some? then Some(x.value + y.value) else None
  }

  /** `Object.values(l).reduce(+, 0) / Object.keys(l).length`: 0 / 0 is NaN
      (None) for a tool with no windows. */
  function ToolMean(t: ToolData): (r: Option<real>)
    ensures r.None? <==> |t.limitations| == 0
  {
    if |t.limitations| == 0 then None
    else Some(Sum(Values(t)) / |t.limitations| as real)
  }

  /** The outer `reduce((acc, tool) => acc + mean(tool), 0)`, a left fold. */
  function SumOfMeans(data: seq<ToolData>): (r: Option<real>)
    ensures r.None? <==> exists i :: 0 <= i < |data| && |data[i].limitations| == 0
  {
    if |data| == 0 then Some(0.0)
    else
      var r := Plus(SumOfMeans(data[..|data| - 1]), ToolMean(data[|data| - 1]));
      assert forall i :: 0 <= i < |data| - 1 ==> data[..|data| - 1][i] == data[i];
      r
  }

  /** The average-limitation card before `toFixed(2)`. None is NaN: an empty
      tool list (0 / 0) or a tool without windows. */
  function AvgLimitation(data: seq<ToolData>): (r: Option<real>)
    ensures r.None? <==> |data| == 0 || exists i :: 0 <= i < |data| && |data[i].limitations| == 0
  {
    match SumOfMeans(data)
    case Some(s) => if |data| == 0 then None else Some(s / |data| as real)
    case None => None
  }

  /** `Object.values(tool.limitations).some((val) => val > threshold)`. */
  predicate AnyAbove(vs: seq<real>, threshold: real) {
    |vs| > 0 && (vs[0] > threshold || AnyAbove(vs[1..], threshold))
  }

  predicate IsCritical(t: ToolData, threshold: real) {
    AnyAbove(Values(t), threshold)
  }

  /** `some` holds exactly when one value is strictly above the threshold. */
  lemma {:induction false} AnyAboveIff(vs: seq<real>, threshold: real)
    ensures AnyAbove(vs, threshold) <==> exists i :: 0 <= i < |vs| && vs[i] > threshold
  {
    if |vs| > 0 {
      AnyAboveIff(vs[1..], threshold);
      if exists i :: 0 <= i < |vs| && vs[i] > threshold {
        var i :| 0 <= i < |vs| && vs[i] > threshold;
        if i > 0 { assert vs[1..][i - 1] > threshold; }
      }
    }
  }

  lemma IsCriticalIff(t: ToolData, threshold: real)
    ensures IsCritical(t, threshold) <==>
            exists i :: 0 <= i < |t.limitations| && t.limitations[i].value > threshold
  {
    AnyAboveIff(Values(t), threshold);
  }

  /** A tool whose largest value equals the threshold is not critical. */
  lemma AtThresholdNotCritical(t: ToolData, threshold: real)
    requires forall i :: 0 <= i < |t.limitations| ==> t.limitations[i].value <= threshold
    ensures !IsCritical(t, threshold)
  {
    IsCriticalIff(t, threshold);
  }

  /** `toolData.filter(isCritical)`, keeping input order. */
  function CriticalFilter(data: seq<ToolData>, threshold: real): (r: seq<ToolData>)
    ensures |r| <= |data|
    ensures forall t :: t in r ==> t in data && IsCritical(t, threshold)
    ensures forall t :: t in data && IsCritical(t, threshold) ==> t in r
  {
    if |data| == 0 then []
    else
      var last := data[|data| - 1];
      var p := data[..|data| - 1];
      assert data == p + [last];
      CriticalFilter(p, threshold) + (if IsCritical(last, threshold) then [last] else [])
  }

  /** The critical-CEID card: `filter(...).length`. */
  function CriticalTools(data: seq<ToolData>, threshold: real): (r: nat)
    ensures r <= |data|
  {
    |CriticalFilter(data, threshold)|
  }

  /** The dashboard's own call, with the threshold 80. */
  function DashboardCriticalTools(data: seq<ToolData>): (r: nat)
    ensures r <= |data|
  {
    CriticalTools(data, CriticalThreshold)
  }

  ghost function CriticalIndices(data: seq<ToolData>, threshold: real): set<int> {
    set i | 0 <= i < |data| && IsCritical(data[i], threshold)
  }

  /** The count is the number of positions holding a critical tool. */
  lemma {:induction false} CriticalToolsCounts(data: seq<ToolData>, threshold: real)
    ensures CriticalTools(data, threshold) == |CriticalIndices(data, threshold)|
  {
    if |data| > 0 {
      var n := |data| - 1;
      var p := data[..n];
      CriticalToolsCounts(p, threshold);
      var s := CriticalIndices(p, threshold);
      var extra: set<int> := if IsCritical(data[n], threshold) then {n} else {};
      forall i ensures i in CriticalIndices(data, threshold) <==> i in s + extra {
        if 0 <= i < n { assert p[i] == data[i]; }
      }
      assert CriticalIndices(data, threshold) == s + extra;
      assert n !in s;
      assert |s + extra| == |s| + |extra|;
    }
  }

  /** Raising the threshold never increases the critical count. */
  lemma {:induction false} CriticalToolsAntitone(data: seq<ToolData>, lower: real, higher: real)
    requires lower <= higher
    ensures CriticalTools(data, higher) <= CriticalTools(data, lower)
  {
    if |data| > 0 {
      var t := data[|data| - 1];
      CriticalToolsAntitone(data[..|data| - 1], lower, higher);
      if IsCritical(t, higher) {
        IsCriticalIff(t, higher);
        IsCriticalIff(t, lower);
      }
    }
  }

  /** Every tool weighs the same: the average is the plain mean of the
      per-tool means, whatever each tool's number of windows. */
  ghost function MeanOf(s: seq<real>): real
    requires |s| > 0
  {
    Sum(s) / |s| as real
  }

  /** The per-tool means, in list order. */
  ghost function ToolMeans(data: seq<ToolData>): (ms: seq<real>)
    requires forall i :: 0 <= i < |data| ==> |data[i].limitations| > 0
    ensures |ms| == |data|
    ensures forall i :: 0 <= i < |data| ==> ms[i] == MeanOf(Values(data[i]))
  {
    seq(|data|, i requires 0 <= i < |data| => MeanOf(Values(data[i])))
  }

  lemma {:induction false} SumOfMeansIsSumOfToolMeans(data: seq<ToolData>)
    requires forall i :: 0 <= i < |data| ==> |data[i].limitations| > 0
    ensures SumOfMeans(data) == Some(Sum(ToolMeans(data)))
  {
    if |data| > 0 {
      var p := data[..|data| - 1];
      SumOfMeansIsSumOfToolMeans(p);
      assert ToolMeans(data)[..|data| - 1] == ToolMeans(p);
    }
  }

  lemma AvgIsMeanOfToolMeans(data: seq<ToolData>)
    requires |data| > 0
    requires forall i :: 0 <= i < |data| ==> |data[i].limitations| > 0
    ensures AvgLimitation(data) == Some(MeanOf(ToolMeans(data)))
  {
    SumOfMeansIsSumOfToolMeans(data);
  }

  /** n * lo <= s <= n * hi with n > 0 gives lo <= s / n <= hi. */
  lemma DivBounds(s: real, n: real, lo: real, hi: real)
    requires n > 0.0
    requires n * lo <= s <= n * hi
    ensures lo <= s / n <= hi
  {
    var m := s / n;
    assert m * n == s;
    assert (m - lo) * n >= 0.0;
    assert (hi - m) * n >= 0.0;
  }

  /** Every stored value of the tool lies within [lo, hi]. */
  predicate ValuesWithin(t: ToolData, lo: real, hi: real) {
    forall k :: 0 <= k < |t.limitations| ==> lo <= t.limitations[k].value <= hi
  }

  lemma ToolMeanBounds(t: ToolData, lo: real, hi: real)
    requires |t.limitations| > 0 && ValuesWithin(t, lo, hi)
    ensures lo <= ToolMean(t).value <= hi
  {
    var n := |t.limitations| as real;
    SumBounds(Values(t), lo, hi);
    DivBounds(Sum(Values(t)), n, lo, hi);
  }

  /** With every tool's values within [lo, hi], so is every tool mean. */
  lemma ToolMeansBounds(data: seq<ToolData>, lo: real, hi: real)
    requires forall i :: 0 <= i < |data| ==> |data[i].limitations| > 0
    requires forall i :: 0 <= i < |data| ==> ValuesWithin(data[i], lo, hi)
    ensures forall i :: 0 <= i < |data| ==> lo <= ToolMeans(data)[i] <= hi
  {
    forall i | 0 <= i < |data|
      ensures lo <= ToolMeans(data)[i] <= hi
    {
      ToolMeanBounds(data[i], lo, hi);
    }
  }

  /** A mean of values within [lo, hi] lies within [lo, hi]. */
  lemma MeanOfBounds(s: seq<real>, lo: real, hi: real)
    requires |s| > 0
    requires forall i :: 0 <= i < |s| ==> lo <= s[i] <= hi
    ensures lo <= MeanOf(s) <= hi
  {
    SumBounds(s, lo, hi);
    DivBounds(Sum(s), |s| as real, lo, hi);
  }

  /** With every stored value within [lo, hi], so is the average. */
  lemma AvgLimitationBounds(data: seq<ToolData>, lo: real, hi: real)
    requires forall i :: 0 <= i < |data| ==> ValuesWithin(data[i], lo, hi)
    ensures AvgLimitation(data).Some? ==> lo <= AvgLimitation(data).value <= hi
  {
    if AvgLimitation(data).Some? {
      AvgIsMeanOfToolMeans(data);
      ToolMeansBounds(data, lo, hi);
      MeanOfBounds(ToolMeans(data), lo, hi);
    }
  }

  lemma {:induction false} SumOfMeansAppend(a: seq<ToolData>, b: seq<ToolData>)
    ensures SumOfMeans(a + b) == Plus(SumOfMeans(a), SumOfMeans(b))
    decreases |b|
  {
    if |b| == 0 {
      assert a + b == a;
    } else {
      assert (a + b)[..|a + b| - 1] == a + b[..|b| - 1];
      SumOfMeansAppend(a, b[..|b| - 1]);
    }
  }

  lemma {:induction false} SumOfMeansRemove(b: seq<ToolData>, k: nat)
    requires k < |b|
    ensures SumOfMeans(b) == Plus(SumOfMeans(b[..k] + b[k + 1..]), ToolMean(b[k]))
  {
    var l, r, t := b[..k], b[k + 1..], b[k];
    assert b == (l + [t]) + r;
    SumOfMeansAppend(l + [t], r);
    SumOfMeansAppend(l, [t]);
    SumOfMeansAppend(l, r);
    SumOfMeansSingle(t);
    PlusRotate(SumOfMeans(l), ToolMean(t), SumOfMeans(r));
  }

  lemma SumOfMeansSingle(t: ToolData)
    ensures SumOfMeans([t]) == Plus(Some(0.0), ToolMean(t))
  {
    assert [t][..0] == [];
  }

  /** NaN-absorbing addition is associative and commutative. */
  lemma PlusRotate(l: Option<real>, m: Option<real>, r: Option<real>)
    ensures Plus(Plus(l, Plus(Some(0.0), m)), r) == Plus(Plus(l, r), m)
  {
  }

  lemma {:induction false} SumOfMeansPermutation(a: seq<ToolData>, b: seq<ToolData>)
    requires multiset(a) == multiset(b)
    ensures SumOfMeans(a) == SumOfMeans(b)
    decreases |a|
  {
    if |a| > 0 {
      var t := a[|a| - 1];
      var a' := a[..|a| - 1];
      assert t in multiset(b);
      var k :| 0 <= k < |b| && b[k] == t;
      var b' := b[..k] + b[k + 1..];
      assert multiset(a') == multiset(b') by {
        assert a == a' + [t];
        assert b == b[..k] + [t] + b[k + 1..];
        assert multiset(a') == multiset(a) - multiset{t};
        assert multiset(b') == multiset(b) - multiset{t};
      }
      SumOfMeansPermutation(a', b');
      SumOfMeansRemove(b, k);
    } else {
      assert |b| == |multiset(b)| == 0;
    }
  }

  /** The order of the tool list does not change the average. */
  lemma AvgLimitationPermutation(a: seq<ToolData>, b: seq<ToolData>)
    requires multiset(a) == multiset(b)
    ensures AvgLimitation(a) == AvgLimitation(b)
  {
    SumOfMeansPermutation(a, b);
    assert |a| == |multiset(a)| == |multiset(b)| == |b|;
  }

  /** Tools [10] and [0, 0, 0] average to 5, not to the pooled 2.5. */
  lemma MeanOfMeansExample()
    ensures AvgLimitation([ToolData("A1", [Window(91, 10.0)]),
                           ToolData("B2", [Window(3, 0.0), Window(7, 0.0), Window(91, 0.0)])])
            == Some(5.0)
  {
    var a := ToolData("A1", [Window(91, 10.0)]);
    var b := ToolData("B2", [Window(3, 0.0), Window(7, 0.0), Window(91, 0.0)]);
    assert Values(a) == [10.0];
    assert Values(b) == [0.0, 0.0, 0.0];
    assert Sum([10.0]) == 10.0 by { assert [10.0][..0] == []; }
    assert Sum([0.0, 0.0, 0.0]) == 0.0 by {
      assert [0.0, 0.0, 0.0][..2] == [0.0, 0.0];
      assert [0.0, 0.0][..1] == [0.0];
      assert [0.0][..0] == [];
    }
    assert ToolMean(a) == Some(10.0);
    assert ToolMean(b) == Some(0.0);
    assert [a][..0] == [];
    assert SumOfMeans([a]) == Some(10.0);
    assert [a, b][..1] == [a];
    assert SumOfMeans([a, b]) == Some(10.0);
  }
}
