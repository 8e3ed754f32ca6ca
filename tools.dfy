/** The record the dashboard receives for each tool (CEID), and the sums
    shared by the metric computations. */
module Tools {

  datatype Option<T> = None | Some(value: T)

  /** One entry of a tool's `limitations` object: the numeric window key
      (days) and the value stored under it. */
  datatype Window = Window(day: nat, value: real)

  /** A tool record: its CEID and its windows in enumeration order. */
  datatype ToolData = ToolData(CEID: string, limitations: seq<Window>)

  /** Integer-like object keys are enumerated in ascending numeric order,
      so a record's windows come with strictly ascending days. */
  predicate WellFormed(t: ToolData) {
    forall i, j :: 0 <= i < j < |t.limitations| ==> t.limitations[i].day < t.limitations[j].day
  }

  /** `Object.values(tool.limitations)`. */
  function Values(t: ToolData): (vs: seq<real>)
    ensures |vs| == |t.limitations|
    ensures forall i :: 0 <= i < |vs| ==> vs[i] == t.limitations[i].value
  {
    seq(|t.limitations|, i requires 0 <= i < |t.limitations| => t.limitations[i].value)
  }

  /** `Object.keys(tool.limitations).map(Number)`. */
  function Days(t: ToolData): (xs: seq<real>)
    ensures |xs| == |t.limitations|
    ensures forall i :: 0 <= i < |xs| ==> xs[i] == t.limitations[i].day as real
  {
    seq(|t.limitations|, i requires 0 <= i < |t.limitations| => t.limitations[i].day as real)
  }

  /** `s.reduce((a, b) => a + b, 0)`: a left fold, so the last element is added last. */
  function Sum(s: seq<real>): real {
    if |s| == 0 then 0.0 else Sum(s[..|s| - 1]) + s[|s| - 1]
  }

  lemma {:induction false} SumAppend(a: seq<real>, b: seq<real>)
    ensures Sum(a + b) == Sum(a) + Sum(b)
    decreases |b|
  {
    if |b| == 0 {
      assert a + b == a;
    } else {
      assert (a + b)[..|a + b| - 1] == a + b[..|b| - 1];
      SumAppend(a, b[..|b| - 1]);
    }
  }

  /** A sum of values within [lo, hi] lies within [n * lo, n * hi]. */
  lemma {:induction false} SumBounds(s: seq<real>, lo: real, hi: real)
    requires forall i :: 0 <= i < |s| ==> lo <= s[i] <= hi
    ensures |s| as real * lo <= Sum(s) <= |s| as real * hi
  {
    if |s| > 0 {
      var p := s[..|s| - 1];
      SumBounds(p, lo, hi);
      assert |s| as real * lo == |p| as real * lo + lo;
      assert |s| as real * hi == |p| as real * hi + hi;
    }
  }
}
