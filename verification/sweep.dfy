/**
  The POE sensitivity sweep: 50 evenly spaced toughener shares from 0 to 40,
  each combined with the current values of the other five features, form the
  batch the impact and tensile curves are predicted for.
 */
module Sweep {
  import opened Formulation

  /** Number of points, and the toughener range, of the sweep. */
  const SweepPoints: nat := 50
  const SweepStart: real := 0.0
  const SweepStop: real := 40.0

  /** Distance between neighbouring points of an evenly spaced grid with both ends included. */
  function Spacing(start: real, stop: real, num: nat): real
    requires num >= 2
  {
    (stop - start) / ((num - 1) as real)
  }

  /** Evenly spaced from start, a given step apart. */
  predicate Arithmetic(xs: seq<real>, start: real, step: real) {
    forall k :: 0 <= k < |xs| ==> xs[k] == start + (k as real) * step
  }

  predicate StrictlyAscending(xs: seq<real>) {
    forall j, k :: 0 <= j < k < |xs| ==> xs[j] < xs[k]
  }

  /** An arithmetic sequence with a positive step is strictly ascending. */
  lemma ArithmeticAscending(xs: seq<real>, start: real, step: real)
    requires Arithmetic(xs, start, step)
    requires step > 0.0
    ensures StrictlyAscending(xs)
  {
    forall j, k | 0 <= j < k < |xs|
      ensures xs[j] < xs[k]
    {
      MulStrictlyMonotone(j as real, k as real, step);
    }
  }

  lemma MulStrictlyMonotone(a: real, b: real, c: real)
    requires a < b && c > 0.0
    ensures a * c < b * c
  {
    assert b * c - a * c == (b - a) * c;
  }

  /** Neighbours of an arithmetic sequence are one step apart. */
  lemma ArithmeticConstantStep(xs: seq<real>, start: real, step: real)
    requires Arithmetic(xs, start, step)
    ensures forall k :: 0 <= k < |xs| - 1 ==> xs[k + 1] - xs[k] == step
  {
    forall k | 0 <= k < |xs| - 1
      ensures xs[k + 1] - xs[k] == step
    {
      assert ((k + 1) as real) * step == (k as real) * step + step;
    }
  }

  /** The last point of the grid lands exactly on stop. */
  lemma SpacingReachesStop(start: real, stop: real, num: nat)
    requires num >= 2
    ensures start + ((num - 1) as real) * Spacing(start, stop, num) == stop
  {
  }

  lemma MulMonotone(a: real, b: real, c: real)
    requires a <= b && c >= 0.0
    ensures a * c <= b * c
  {
    assert b * c - a * c == (b - a) * c;
  }

  /** With start <= stop, every point of the grid lies between start and stop. */
  lemma ArithmeticBetween(xs: seq<real>, start: real, stop: real)
    requires |xs| >= 2 && start <= stop
    requires Arithmetic(xs, start, Spacing(start, stop, |xs|))
    ensures forall k :: 0 <= k < |xs| ==> start <= xs[k] <= stop
  {
    var step := Spacing(start, stop, |xs|);
    var n := (|xs| - 1) as real;
    SpacingReachesStop(start, stop, |xs|);
    assert start + n * step == stop;
    assert step >= 0.0;
    forall k | 0 <= k < |xs|
      ensures start <= xs[k] <= stop
    {
      MulMonotone(0.0, k as real, step);
      MulMonotone(k as real, n, step);
      assert xs[k] == start + (k as real) * step;
    }
  }

  /**
    numpy's linspace with the endpoint included: num points from start to
    stop, the i-th at start + i * step, the last overwritten with stop
    itself; a single point is just start.
   */
  method Linspace(start: real, stop: real, num: nat) returns (xs: seq<real>)
    ensures |xs| == num
    ensures num >= 1 ==> xs[0] == start
    ensures num >= 2 ==> xs[num - 1] == stop
    ensures num >= 2 ==> Arithmetic(xs, start, Spacing(start, stop, num))
    ensures num >= 2 ==> forall k :: 0 <= k < num - 1 ==> xs[k + 1] - xs[k] == Spacing(start, stop, num)
    ensures start < stop ==> StrictlyAscending(xs)
    ensures start <= stop ==> forall k :: 0 <= k < num ==> start <= xs[k] <= stop
  {
    var step := if num >= 2 then Spacing(start, stop, num) else 0.0;
    xs := [];
    var i := 0;
    while i < num
      invariant 0 <= i <= num
      invariant |xs| == i
      invariant Arithmetic(xs, start, step)
    {
      xs := xs + [start + (i as real) * step];
      i := i + 1;
    }
    if num >= 2 {
      SpacingReachesStop(start, stop, num);
      xs := xs[num - 1 := stop];
      assert Arithmetic(xs, start, step);
      ArithmeticConstantStep(xs, start, step);
      if start < stop {
        ArithmeticAscending(xs, start, step);
      }
      if start <= stop {
        ArithmeticBetween(xs, start, stop);
      }
    }
  }

  /**
    The toughener values of the sweep: 50 points from 0 to 40, strictly
    ascending, 40/49 apart.
   */
  method PoeGrid() returns (grid: seq<real>)
    ensures |grid| == SweepPoints
    ensures grid[0] == SweepStart && grid[SweepPoints - 1] == SweepStop
    ensures forall k :: 0 <= k < |grid| - 1 ==> grid[k + 1] - grid[k] == 40.0 / 49.0
    ensures forall k :: 0 <= k < |grid| ==> grid[k] == (k as real) * (40.0 / 49.0)
    ensures StrictlyAscending(grid)
    ensures forall k :: 0 <= k < |grid| ==> SweepStart <= grid[k] <= SweepStop
  {
    grid := Linspace(SweepStart, SweepStop, SweepPoints);
  }

  /**
    The sweep batch: one feature vector per grid value, holding that value
    as toughener share and the current setting of every other feature.
   */
  function SweepRows(current: FeatureVector, grid: seq<real>): (rows: seq<FeatureVector>)
    ensures |rows| == |grid|
    ensures forall k :: 0 <= k < |rows| ==> rows[k].poe == grid[k]
    ensures forall k :: 0 <= k < |rows| ==>
      && rows[k].rppMfi == current.rppMfi
      && rows[k].rppAsh == current.rppAsh
      && rows[k].talc == current.talc
      && rows[k].screwRpm == current.screwRpm
      && rows[k].barrelTemp == current.barrelTemp
  {
    seq(|grid|, k requires 0 <= k < |grid| => current.(poe := grid[k]))
  }

  /** Two rows of a sweep batch differ at most in their toughener share. */
  lemma SweepRowsDifferOnlyInPoe(current: FeatureVector, grid: seq<real>, j: nat, k: nat)
    requires j < |grid| && k < |grid|
    ensures SweepRows(current, grid)[j] == SweepRows(current, grid)[k].(poe := grid[j])
  {
  }

  /**
    The batch the sensitivity curves are predicted for, built from the
    sidebar state. Every row stays within the slider ranges when the sidebar
    does. The last 13 points leave the toughener's training range: from the
    38th point on the toughener share exceeds 30.
   */
  method SweepBatch(c: Controls) returns (rows: seq<FeatureVector>)
    ensures |rows| == SweepPoints
    ensures forall k :: 0 <= k < |rows| ==> rows[k] == ToFeatures(c).(poe := (k as real) * (40.0 / 49.0))
    ensures InSliderRanges(c) ==> forall k :: 0 <= k < |rows| ==> SliderBox.Contains(rows[k])
    ensures forall k :: 0 <= k < |rows| ==> (TrainingBox.poe.Contains(rows[k].poe) <==> k < 37)
  {
    var grid := PoeGrid();
    rows := SweepRows(ToFeatures(c), grid);
    forall k | 0 <= k < |rows|
      ensures TrainingBox.poe.Contains(rows[k].poe) <==> k < 37
    {
      assert rows[k].poe == (k as real) * (40.0 / 49.0);
    }
  }
}
