/**
 * `DefaultTickMark`: its static settings and `calculate(bounds:)`, which
 * spreads `number` tick marks over a closed range.
 */
module TickMarks {
  import opened Geometry

  /** `Int.defaultTickMarkNumber`, the initial value of the static `DefaultTickMark.number`. */
  const DefaultTickMarkNumber: int := 5

  /** `CGFloat.defaultTickMarkPosition`, the initial value of `DefaultTickMark.position`. */
  const DefaultTickMarkPosition: real := 4.5

  /** `CGSize.defaultTickMarkSize`, the initial value of `DefaultTickMark.size`. */
  const DefaultTickMarkSize: Size := Size(2.0, 6.0)

  /** The k-th value of a stride: `from + k * stride`, computed from the index as the platform does. */
  function StridePoint(from: real, stride: real, k: int): real
  {
    from + k as real * stride
  }

  /**
   * `stride(from:through:by:)` for a positive stride: the values
   * `from + k * stride` for k = 0, 1, ... as long as they do not pass `through`.
   */
  function StrideThrough(from: real, through: real, stride: real): (s: seq<real>)
    requires stride > 0.0
    ensures forall k :: 0 <= k < |s| ==> s[k] == StridePoint(from, stride, k) <= through
    ensures StridePoint(from, stride, |s|) > through
  {
    if through < from then []
    else
      var n := ((through - from) / stride).Floor + 1;
      StrideBound(through - from, stride);
      StrideStaysBelow(from, through, stride, n);
      seq(n, k => StridePoint(from, stride, k))
  }

  /** For d >= 0 and stride > 0, floor(d / stride) * stride <= d < (floor(d / stride) + 1) * stride. */
  lemma StrideBound(d: real, stride: real)
    requires d >= 0.0 && stride > 0.0
    ensures (d / stride).Floor >= 0
    ensures (d / stride).Floor as real * stride <= d < ((d / stride).Floor + 1) as real * stride
  {
    var q := d / stride;
    var f := q.Floor;
    assert q * stride == d;
    assert f as real <= q < f as real + 1.0;
    MulLeq(f as real, q, stride);
    MulLt(q, f as real + 1.0, stride);
    assert (f + 1) as real == f as real + 1.0;
    assert d < (f + 1) as real * stride;
  }

  /** If the last of n stride values stays below `through`, so do all the earlier ones. */
  lemma StrideStaysBelow(from: real, through: real, stride: real, n: int)
    requires stride > 0.0 && n >= 1 && StridePoint(from, stride, n - 1) <= through
    ensures forall k :: 0 <= k < n ==> StridePoint(from, stride, k) <= through
  {
    forall k | 0 <= k < n
      ensures StridePoint(from, stride, k) <= through
    {
      MulLeq(k as real, (n - 1) as real, stride);
    }
  }

  /** The values of a positive stride increase with the index. */
  lemma StridePointIncreases(from: real, stride: real, i: int, j: int)
    requires stride > 0.0 && i < j
    ensures StridePoint(from, stride, i) < StridePoint(from, stride, j)
  {
    MulLt(i as real, j as real, stride);
  }

  lemma MulLeq(a: real, b: real, c: real)
    requires a <= b && c > 0.0
    ensures a * c <= b * c
  {
  }

  lemma MulLt(a: real, b: real, c: real)
    requires a < b && c > 0.0
    ensures a * c < b * c
  {
  }

  /** The distance between two consecutive marks when there are at least two. */
  function Step(number: int, bounds: ClosedRange): real
    requires number >= 2
  {
    (bounds.upperBound - bounds.lowerBound) / (number - 1) as real
  }

  /**
   * What `calculate(bounds:)` returns when `DefaultTickMark.number` is `number`:
   * nothing when it is not positive, the single mark `(upper - lower) / 2` when
   * it is 1, and otherwise the stride from lower through upper by
   * `(upper - lower) / (number - 1)`. A zero stride stops the program, so two or
   * more marks need a range that is not a single point.
   */
  function Marks(number: int, bounds: ClosedRange): seq<real>
    requires number >= 2 ==> bounds.lowerBound < bounds.upperBound
  {
    if number <= 0 then []
    else if number == 1 then [(bounds.upperBound - bounds.lowerBound) / 2.0]
    else StrideThrough(bounds.lowerBound, bounds.upperBound, Step(number, bounds))
  }

  /** `DefaultTickMark.calculate(bounds:)`, reading the static count as `number`. */
  method Calculate(number: int, bounds: ClosedRange) returns (marks: seq<real>)
    requires number >= 2 ==> bounds.lowerBound < bounds.upperBound
    ensures marks == Marks(number, bounds)
  {
    var lower := bounds.lowerBound;
    var upper := bounds.upperBound;
    marks := [];
    if number <= 0 {
      return [];
    }
    if number == 1 {
      var mark := (upper - lower) / 2.0;
      marks := marks + [mark];
    } else {
      marks := StrideLoop(lower, upper, Step(number, bounds));
    }
  }

  /** The `for mark in stride(from:through:by:)` loop that appends every mark in turn. */
  method StrideLoop(lower: real, upper: real, stride: real) returns (marks: seq<real>)
    requires stride > 0.0 && lower <= upper
    ensures marks == StrideThrough(lower, upper, stride)
  {
    ghost var all := StrideThrough(lower, upper, stride);
    marks := [];
    var i := 0;
    var mark := lower;
    while mark <= upper
      invariant 0 <= i <= |all|
      invariant mark == StridePoint(lower, stride, i)
      invariant marks == all[..i]
      invariant mark <= upper <==> i < |all|
      decreases |all| - i
    {
      assert all[i] == mark;
      assert all[..i + 1] == all[..i] + [mark];
      marks := marks + [mark];
      i := i + 1;
      mark := lower + i as real * stride;
      assert i < |all| ==> all[i] == mark;
    }
    assert all[..i] == all;
  }

}

module TickMarkProperties {
  import opened Geometry
  import opened TickMarks

  /** A count that is not positive gives no marks at all. */
  lemma NoMarksWhenCountNotPositive(number: int, bounds: ClosedRange)
    requires number <= 0
    ensures Marks(number, bounds) == []
  {
  }

  /**
   * A count of 1 gives the single mark `(upper - lower) / 2`: half the width of
   * the range, not shifted by `lower`. It lies inside the range exactly when
   * `upper >= 3 * lower` and `upper >= -lower`.
   */
  lemma SingleMarkIsHalfWidth(bounds: ClosedRange)
    ensures Marks(1, bounds) == [(bounds.upperBound - bounds.lowerBound) / 2.0]
    ensures var m := Marks(1, bounds)[0];
      bounds.lowerBound <= m <= bounds.upperBound <==>
        bounds.upperBound >= 3.0 * bounds.lowerBound && bounds.upperBound >= -bounds.lowerBound
  {
  }

  /** With two or more marks over a proper range there are exactly `number` of them. */
  lemma {:induction false} MarkCount(number: int, bounds: ClosedRange)
    requires number >= 2 && bounds.lowerBound < bounds.upperBound
    ensures |Marks(number, bounds)| == number
  {
    var d := bounds.upperBound - bounds.lowerBound;
    var step := Step(number, bounds);
    var m := (number - 1) as real;
    assert step * m == d;
    assert d / step == m;
    assert (d / step).Floor == number - 1;
  }

  /**
   * With two or more marks over a proper range, mark k is `lower + k * step`
   * and lies in the range.
   */
  lemma MarkPositions(number: int, bounds: ClosedRange)
    requires number >= 2 && bounds.lowerBound < bounds.upperBound
    ensures |Marks(number, bounds)| == number
    ensures forall k :: 0 <= k < number ==>
      Marks(number, bounds)[k] == bounds.lowerBound + k as real * Step(number, bounds)
    ensures forall k :: 0 <= k < number ==>
      bounds.lowerBound <= Marks(number, bounds)[k] <= bounds.upperBound
  {
    MarkCount(number, bounds);
    var step := Step(number, bounds);
    assert step > 0.0;
    forall k | 0 <= k < number
      ensures bounds.lowerBound <= Marks(number, bounds)[k]
    {
      MulLeq(0.0, k as real, step);
    }
  }

  /** The first mark is `lower` and the last is `upper`: the stride reaches its end. */
  lemma MarkEnds(number: int, bounds: ClosedRange)
    requires number >= 2 && bounds.lowerBound < bounds.upperBound
    ensures |Marks(number, bounds)| == number
    ensures Marks(number, bounds)[0] == bounds.lowerBound
    ensures Marks(number, bounds)[number - 1] == bounds.upperBound
  {
    MarkPositions(number, bounds);
    var step := Step(number, bounds);
    assert (number - 1) as real * step == bounds.upperBound - bounds.lowerBound;
  }

  /** Consecutive marks differ by exactly `step`. */
  lemma ConsecutiveMarksOneStepApart(number: int, bounds: ClosedRange)
    requires number >= 2 && bounds.lowerBound < bounds.upperBound
    ensures |Marks(number, bounds)| == number
    ensures forall k :: 0 <= k < number - 1 ==>
      Marks(number, bounds)[k + 1] - Marks(number, bounds)[k] == Step(number, bounds)
  {
    MarkPositions(number, bounds);
    var marks, step := Marks(number, bounds), Step(number, bounds);
    forall k | 0 <= k < number - 1
      ensures marks[k + 1] - marks[k] == step
    {
      assert (k + 1) as real * step == k as real * step + step;
    }
  }

  /** The marks strictly increase. */
  lemma MarksIncrease(number: int, bounds: ClosedRange)
    requires number >= 2 && bounds.lowerBound < bounds.upperBound
    ensures |Marks(number, bounds)| == number
    ensures forall i, j :: 0 <= i < j < number ==> Marks(number, bounds)[i] < Marks(number, bounds)[j]
  {
    MarkPositions(number, bounds);
    var marks, step := Marks(number, bounds), Step(number, bounds);
    assert step > 0.0;
    forall i, j | 0 <= i < j < number
      ensures marks[i] < marks[j]
    {
      StridePointIncreases(bounds.lowerBound, step, i, j);
    }
  }

  /** With the default count of 5, the range `0...1` gives marks at every quarter. */
  lemma DefaultCountOnUnitRange()
    ensures Marks(DefaultTickMarkNumber, Bounds(0.0, 1.0)) == [0.0, 0.25, 0.5, 0.75, 1.0]
  {
    MarkPositions(DefaultTickMarkNumber, Bounds(0.0, 1.0));
    assert Step(DefaultTickMarkNumber, Bounds(0.0, 1.0)) == 0.25;
  }
}
