/** Interpolated percentiles, as the sensitivity analysis and the telemetry snapshot use them. */
module Percentiles {
  import opened Arithmetic
  import opened Ordering

  ghost predicate Ascending(values: seq<real>) {
    forall i, j :: 0 <= i <= j < |values| ==> values[i] <= values[j]
  }

  /** Linear interpolation at a real position of the list. */
  function At(values: seq<real>, position: real): real
    requires 0.0 <= position <= |values| as real - 1.0
  {
    var lower := position.Floor;
    var upper := if position == lower as real then lower else lower + 1;
    if lower == upper then values[lower]
    else
      var weight := position - lower as real;
      values[lower] * (1.0 - weight) + values[upper] * weight
  }

  /** Where a fraction falls between the first index, 0, and the last. */
  function Position(last: real, fraction: real): real {
    fraction * last
  }

  function Percentile(values: seq<real>, fraction: real): real
    requires 0.0 <= fraction <= 1.0
  {
    if values == [] then 0.0
    else
      PositionInRange(|values| as real - 1.0, fraction);
      At(values, Position(|values| as real - 1.0, fraction))
  }

  lemma PositionInRange(last: real, fraction: real)
    requires 0.0 <= fraction <= 1.0 && last >= 0.0
    ensures 0.0 <= Position(last, fraction) <= last
  {
    Product(fraction, last);
    Product(1.0 - fraction, last);
  }

  lemma PositionGrows(last: real, f: real, g: real)
    requires last >= 0.0 && f <= g
    ensures Position(last, f) <= Position(last, g)
  {
    Product(g - f, last);
  }

  /** A weighted mean lies between its ends, and grows with the weight. */
  lemma Between(a: real, b: real, weight: real)
    requires a <= b && 0.0 <= weight <= 1.0
    ensures a <= a * (1.0 - weight) + b * weight <= b
  {
    Product(b - a, weight);
    Product(b - a, 1.0 - weight);
  }

  lemma MeanGrows(a: real, b: real, v: real, w: real)
    requires a <= b && v <= w
    ensures a * (1.0 - v) + b * v <= a * (1.0 - w) + b * w
  {
    Product(b - a, w - v);
  }

  lemma AtWithinSegment(values: seq<real>, position: real)
    requires Ascending(values) && 0.0 <= position <= |values| as real - 1.0
    ensures values[position.Floor] <= At(values, position)
    ensures position.Floor + 1 < |values| ==> At(values, position) <= values[position.Floor + 1]
    ensures position.Floor + 1 == |values| ==> At(values, position) == values[position.Floor]
  {
    var lower := position.Floor;
    if position != lower as real {
      Between(values[lower], values[lower + 1], position - lower as real);
    }
  }

  /** Interpolation is monotone in the position, also across the boundaries of segments. */
  lemma AtMonotone(values: seq<real>, x: real, y: real)
    requires Ascending(values) && 0.0 <= x <= y <= |values| as real - 1.0
    ensures At(values, x) <= At(values, y)
  {
    AtWithinSegment(values, x);
    AtWithinSegment(values, y);
    var k, m := x.Floor, y.Floor;
    if k == m && k + 1 < |values| {
      MeanGrows(values[k], values[k + 1], x - k as real, y - k as real);
      assert values[k] * (1.0 - 0.0) + values[k + 1] * 0.0 == values[k];
    } else if k < m {
      assert values[k + 1] <= values[m];
    }
  }

  /** Percentiles of a sorted list grow with the fraction. */
  lemma PercentileMonotone(values: seq<real>, f: real, g: real)
    requires Ascending(values) && 0.0 <= f <= g <= 1.0
    ensures Percentile(values, f) <= Percentile(values, g)
  {
    if values != [] {
      var last := |values| as real - 1.0;
      PositionInRange(last, f);
      PositionInRange(last, g);
      PositionGrows(last, f, g);
      AtMonotone(values, Position(last, f), Position(last, g));
    }
  }

  /** They start at the first element and end at the last. */
  lemma PercentileEnds(values: seq<real>)
    requires values != []
    ensures Percentile(values, 0.0) == values[0]
    ensures Percentile(values, 1.0) == values[|values| - 1]
  {
    var last := |values| as real - 1.0;
    assert Position(last, 1.0) == (|values| - 1) as real;
    assert Position(last, 0.0) == 0 as real;
  }

  /** And so never leave the extremes. */
  lemma PercentileWithin(values: seq<real>, f: real)
    requires values != [] && Ascending(values) && 0.0 <= f <= 1.0
    ensures values[0] <= Percentile(values, f) <= values[|values| - 1]
  {
    PercentileEnds(values);
    PercentileMonotone(values, 0.0, f);
    PercentileMonotone(values, f, 1.0);
  }

  // ---------------------------------------------------------------- what a percentile is

  /** Inside one segment equal steps of position give equal steps of value: the value lies on the
      straight line between the two elements. */
  lemma AtIsLinear(values: seq<real>, k: nat, x: real)
    requires k + 1 < |values| && k as real <= x <= k as real + 1.0
    ensures At(values, x) == values[k] + (values[k + 1] - values[k]) * (x - k as real)
  {
    if x == k as real + 1.0 {
      assert (values[k + 1] - values[k]) * 1.0 == values[k + 1] - values[k];
    } else {
      assert x.Floor == k;
      Blend(values[k], values[k + 1], x - k as real);
    }
  }

  lemma Blend(a: real, b: real, weight: real)
    ensures a * (1.0 - weight) + b * weight == a + (b - a) * weight
  {
  }

  lemma EqualStepsAreEqual(values: seq<real>, k: nat, x: real, y: real, step: real)
    requires k + 1 < |values| && step >= 0.0
    requires k as real <= x && x + step <= k as real + 1.0 && k as real <= y && y + step <= k as real + 1.0
    ensures At(values, x + step) - At(values, x) == At(values, y + step) - At(values, y)
  {
    hide At;
    StepIsLinear(values, k, x, step);
    StepIsLinear(values, k, y, step);
  }

  lemma StepIsLinear(values: seq<real>, k: nat, x: real, step: real)
    requires k + 1 < |values| && step >= 0.0
    requires k as real <= x && x + step <= k as real + 1.0
    ensures At(values, x + step) - At(values, x) == (values[k + 1] - values[k]) * step
  {
    hide At;
    AtIsLinear(values, k, x);
    AtIsLinear(values, k, x + step);
    var slope, there := values[k + 1] - values[k], x - k as real;
    assert x + step - k as real == there + step;
    Difference(slope, there, step);
  }

  lemma Difference(slope: real, x: real, step: real)
    ensures slope * (x + step) - slope * x == slope * step
  {
  }

  /** The value at a fraction of the way from the first element to the last, wherever that falls. */
  ghost predicate Interpolated(values: seq<real>, fraction: real, v: real) {
    && (|values| == 1 ==> v == values[0])
    && OnLine(values, fraction * (|values| as real - 1.0), v)
  }

  ghost predicate OnLine(values: seq<real>, position: real, v: real) {
    forall k :: OnSegment(values, k, position, v)
  }

  ghost predicate OnSegment(values: seq<real>, k: int, position: real, v: real) {
    0 <= k && k + 1 < |values| && k as real <= position <= k as real + 1.0 ==>
      v == values[k] + (values[k + 1] - values[k]) * (position - k as real)
  }

  lemma PercentileInterpolates(values: seq<real>, fraction: real)
    requires values != [] && 0.0 <= fraction <= 1.0
    ensures Interpolated(values, fraction, Percentile(values, fraction))
  {
    hide At;
    var position := Position(|values| as real - 1.0, fraction);
    PositionInRange(|values| as real - 1.0, fraction);
    if |values| == 1 {
      OnlyElement(values, position);
    }
    AtIsOnLine(values, position);
    assert position == fraction * (|values| as real - 1.0);
    assert Percentile(values, fraction) == At(values, position);
  }

  lemma AtIsOnLine(values: seq<real>, position: real)
    requires 0.0 <= position <= |values| as real - 1.0
    ensures OnLine(values, position, At(values, position))
  {
    hide At;
    forall k ensures OnSegment(values, k, position, At(values, position)) {
      if 0 <= k && k + 1 < |values| && k as real <= position <= k as real + 1.0 {
        AtIsLinear(values, k, position);
      }
    }
  }

  lemma OnlyElement(values: seq<real>, position: real)
    requires |values| == 1 && position == 0.0
    ensures At(values, position) == values[0]
  {
  }

  /** The middle element of an odd list, and the mean of the two middle ones of an even list. */
  ghost predicate IsMedian(values: seq<real>, m: real)
    requires values != []
  {
    var n := |values|;
    if n % 2 == 1 then m == values[n / 2] else m + m == values[n / 2 - 1] + values[n / 2]
  }

  lemma HalfIsMedian(values: seq<real>)
    requires values != []
    ensures IsMedian(values, Percentile(values, 0.5))
  {
    hide Percentile;
    var n, v := |values|, Percentile(values, 0.5);
    PercentileInterpolates(values, 0.5);
    if n > 1 {
      var position, k := 0.5 * (n as real - 1.0), n / 2 - 1;
      HalfwayPosition(n);
      assert OnSegment(values, k, position, v);
      HalfwayValue(values[k], values[k + 1], position - k as real);
    }
  }

  lemma HalfwayValue(a: real, b: real, w: real)
    ensures w == 1.0 ==> a + (b - a) * w == b
    ensures w == 0.5 ==> (a + (b - a) * w) + (a + (b - a) * w) == a + b
  {
  }

  lemma HalfwayPosition(n: nat)
    requires n > 1
    ensures 0.5 * (n as real - 1.0) - (n / 2 - 1) as real == if n % 2 == 0 then 0.5 else 1.0
  {
    assert n == 2 * (n / 2) + n % 2;
  }

  /** The list turned upside down. */
  function Mirrored(values: seq<real>): seq<real> {
    seq(|values|, i requires 0 <= i < |values| => -values[|values| - 1 - i])
  }

  /** Looking from the other end gives the same percentile. */
  lemma PercentileReflects(values: seq<real>, fraction: real)
    requires values != [] && 0.0 <= fraction <= 1.0
    ensures Percentile(values, fraction) == -Percentile(Mirrored(values), 1.0 - fraction)
  {
    hide At;
    var n, mirror := |values|, Mirrored(values);
    var x, y := Position(n as real - 1.0, fraction), Position(n as real - 1.0, 1.0 - fraction);
    PositionInRange(n as real - 1.0, fraction);
    assert x + y == n as real - 1.0;
    if n == 1 {
      OnlyElement(values, x);
      OnlyElement(mirror, y);
    } else {
      var k := if x == n as real - 1.0 then n - 2 else x.Floor;
      AtIsLinear(values, k, x);
      AtIsLinear(mirror, n - 2 - k, y);
      MirroredMean(values[k], values[k + 1], x - k as real, y - (n - 2 - k) as real);
    }
  }

  lemma MirroredMean(a: real, b: real, v: real, w: real)
    requires v + w == 1.0
    ensures a + (b - a) * v == -(-b + (-a - -b) * w)
  {
    assert (b - a) * v + (b - a) * w == b - a;
  }

  // ---------------------------------------------------------------- the sensitivity summary

  function RealLe(): (real, real) -> bool {
    (a: real, b: real) => a <= b
  }

  function SortedReals(values: seq<real>): seq<real> {
    StableSort(RealLe(), values)
  }

  lemma SortedRealsAscend(values: seq<real>)
    ensures Ascending(SortedReals(values)) && |SortedReals(values)| == |values|
    ensures multiset(SortedReals(values)) == multiset(values)
  {
    StableSortSorts(RealLe(), values);
    var s := SortedReals(values);
    forall i, j | 0 <= i <= j < |s| ensures s[i] <= s[j] {
      assert i < j ==> RealLe()(s[i], s[j]);
    }
  }

  datatype Summary = Summary(best: real, p10: real, median: real, p90: real, worst: real)

  /** Python's `min` and `max`: one pass that keeps the extremes seen so far. */
  method Extremes(values: seq<real>) returns (least: real, greatest: real)
    requires values != []
    ensures least in values && greatest in values
    ensures forall i :: 0 <= i < |values| ==> least <= values[i] <= greatest
  {
    least, greatest := values[0], values[0];
    for i := 1 to |values|
      invariant least in values && greatest in values
      invariant forall k :: 0 <= k < i ==> least <= values[k] <= greatest
    {
      if values[i] < least {
        least := values[i];
      }
      if values[i] > greatest {
        greatest := values[i];
      }
    }
  }

  /** The five figures of a sensitivity run are ordered, and the outer two are extremes of the outputs. */
  method Summarise(outputs: seq<real>) returns (s: Summary)
    requires outputs != []
    ensures s.best <= s.p10 <= s.median <= s.p90 <= s.worst
    ensures s.best in outputs && s.worst in outputs
    ensures forall i :: 0 <= i < |outputs| ==> s.best <= outputs[i] <= s.worst
    ensures var ordered := SortedReals(outputs);
            && multiset(ordered) == multiset(outputs) && Ascending(ordered)
            && IsMedian(ordered, s.median)
            && Interpolated(ordered, 0.1, s.p10) && Interpolated(ordered, 0.9, s.p90)
  {
    hide Percentile, Interpolated, IsMedian;
    var ordered := SortedReals(outputs);
    SortedRealsAscend(outputs);
    SpreadIsOrdered(ordered);
    HalfIsMedian(ordered);
    PercentileInterpolates(ordered, 0.1);
    PercentileInterpolates(ordered, 0.9);
    var best, worst := Extremes(ordered);
    ExtremesOfSorted(outputs, ordered, best, worst);
    s := Summary(best, Percentile(ordered, 0.1), Percentile(ordered, 0.5), Percentile(ordered, 0.9), worst);
  }

  lemma ExtremesOfSorted(outputs: seq<real>, ordered: seq<real>, best: real, worst: real)
    requires multiset(ordered) == multiset(outputs) && best in ordered && worst in ordered
    requires forall i :: 0 <= i < |ordered| ==> best <= ordered[i] <= worst
    ensures best in outputs && worst in outputs
    ensures forall i :: 0 <= i < |outputs| ==> best <= outputs[i] <= worst
  {
    SameMembers(ordered, outputs);
    forall i | 0 <= i < |outputs| ensures best <= outputs[i] <= worst {
      assert outputs[i] in ordered;
    }
  }

  lemma SpreadIsOrdered(values: seq<real>)
    requires values != [] && Ascending(values)
    ensures values[0] <= Percentile(values, 0.1) <= Percentile(values, 0.5)
    ensures Percentile(values, 0.5) <= Percentile(values, 0.9) <= values[|values| - 1]
  {
    PercentileWithin(values, 0.1);
    PercentileWithin(values, 0.9);
    PercentileMonotone(values, 0.1, 0.5);
    PercentileMonotone(values, 0.5, 0.9);
  }
}
