/** Curve building shared by src/hooks/useNecklaceCurveDetection.ts and
    src/hooks/useAdvancedCurveDetection.ts, which carry the same code:
    sort the points by x, keep every `step`-th one with its tangent angle,
    or synthesise the 21-point U-shaped fallback curve. */
module Curves {
  import opened Geometry
  import Sorting
  import Arith

  function XKey(p: Point): real { p.x as real }

  /** `points.sort((a, b) => a.x - b.x)` */
  function SortByX(points: seq<Point>): seq<Point> {
    Sorting.SortBy(points, XKey)
  }

  lemma SortByXIsSortedPermutation(points: seq<Point>)
    ensures Sorting.SortedBy(SortByX(points), XKey)
    ensures multiset(SortByX(points)) == multiset(points) && |SortByX(points)| == |points|
  {
    Sorting.SortBySorted(points, XKey);
    Sorting.SortByPermutation(points, XKey);
  }

  /** `Math.max(1, Math.floor(n / 20))` */
  function SampleStep(n: nat): nat {
    if n / 20 > 1 then n / 20 else 1
  }

  /** `calculateAngle`: 0 at both ends of the sorted list, otherwise the
      direction from the previous to the next point. */
  function TangentAngle(points: seq<Point>, index: nat, trig: Trig): real
    requires index < |points|
  {
    if index == 0 || index == |points| - 1 then 0.0
    else
      var prev, next := points[index - 1], points[index + 1];
      trig.atan2((next.y - prev.y) as real, (next.x - prev.x) as real)
  }

  /** The curve point pushed for `points[i]`. */
  function SampleAt(points: seq<Point>, i: nat, trig: Trig): CurvePoint
    requires i < |points|
  {
    CurvePoint(points[i].x as real, points[i].y as real, TangentAngle(points, i, trig))
  }

  /** The points pushed by `for (let i = from; i < points.length; i += step)`. */
  function SampledFrom(points: seq<Point>, from: nat, step: nat, trig: Trig): seq<CurvePoint>
    requires step >= 1
    decreases |points| - from
  {
    if from >= |points| then []
    else [SampleAt(points, from, trig)] + SampledFrom(points, from + step, step, trig)
  }

  /** The curve extracted from points that are already sorted. */
  function Sampled(points: seq<Point>, trig: Trig): seq<CurvePoint> {
    SampledFrom(points, 0, SampleStep(|points|), trig)
  }

  function CeilDiv(n: nat, d: nat): nat
    requires d >= 1
  {
    (n + d - 1) / d
  }

  lemma {:induction false} SampledFromShape(points: seq<Point>, from: nat, step: nat, trig: Trig)
    requires step >= 1
    ensures |SampledFrom(points, from, step, trig)| ==
            (if from >= |points| then 0 else CeilDiv(|points| - from, step))
    ensures forall k :: 0 <= k < |SampledFrom(points, from, step, trig)| ==>
              from + k * step < |points| &&
              SampledFrom(points, from, step, trig)[k] == SampleAt(points, from + k * step, trig)
    decreases |points| - from
  {
    if from < |points| {
      var rest := SampledFrom(points, from + step, step, trig);
      SampledFromShape(points, from + step, step, trig);
      var m := |points| - from;
      if from + step >= |points| {
        assert CeilDiv(m, step) == 1 by {
          assert step <= m + step - 1 < 2 * step;
        }
      } else {
        Arith.DivShift(m - step + step - 1, step);
        assert CeilDiv(m, step) == CeilDiv(m - step, step) + 1;
      }
      var r := SampledFrom(points, from, step, trig);
      forall k | 0 < k < |r|
        ensures from + k * step < |points| && r[k] == SampleAt(points, from + k * step, trig)
      {
        assert r[k] == rest[k - 1];
        assert from + step + (k - 1) * step == from + k * step;
      }
    }
  }

  /** The curve has ceil(n / step) points. */
  lemma SampledCount(points: seq<Point>, trig: Trig)
    ensures |Sampled(points, trig)| == CeilDiv(|points|, SampleStep(|points|))
    ensures Sampled(points, trig) == [] <==> points == []
  {
    SampledFromShape(points, 0, SampleStep(|points|), trig);
    if points != [] {
      assert CeilDiv(|points|, SampleStep(|points|)) >= 1;
    }
  }

  /** Point k of the curve is the sorted point at index k * step. */
  lemma SampledPoint(points: seq<Point>, trig: Trig, k: nat)
    requires k < |Sampled(points, trig)|
    ensures k * SampleStep(|points|) < |points|
    ensures Sampled(points, trig)[k] == SampleAt(points, k * SampleStep(|points|), trig)
  {
    SampledFromShape(points, 0, SampleStep(|points|), trig);
  }

  /** The angle of curve point k is 0 when it sits at either end of the
      sorted list, and otherwise the direction between the neighbours of
      its sorted point. */
  lemma SampledAngles(points: seq<Point>, trig: Trig, k: nat)
    requires k < |Sampled(points, trig)|
    ensures var i := k * SampleStep(|points|);
            && i < |points|
            && (i == 0 || i == |points| - 1 ==> Sampled(points, trig)[k].angle == 0.0)
            && (0 < i < |points| - 1 ==>
                  Sampled(points, trig)[k].angle ==
                  trig.atan2((points[i + 1].y - points[i - 1].y) as real, (points[i + 1].x - points[i - 1].x) as real))
  {
    SampledPoint(points, trig, k);
  }

  /** Sampling an x-sorted list gives non-decreasing x-coordinates. */
  lemma SampledXNondecreasing(points: seq<Point>, trig: Trig)
    requires Sorting.SortedBy(points, XKey)
    ensures forall a, b :: 0 <= a < b < |Sampled(points, trig)| ==>
              Sampled(points, trig)[a].x <= Sampled(points, trig)[b].x
  {
    var c := Sampled(points, trig);
    var step := SampleStep(|points|);
    forall a, b | 0 <= a < b < |c| ensures c[a].x <= c[b].x {
      SampledPoint(points, trig, a);
      SampledPoint(points, trig, b);
      assert a * step < b * step;
      assert XKey(points[a * step]) <= XKey(points[b * step]);
    }
  }

  /** The stepped loop of `extractNecklaceCurve` / `extractCurveFromContour`
      over points that are already sorted. */
  method SampleSorted(points: seq<Point>, trig: Trig) returns (curve: seq<CurvePoint>)
    ensures curve == Sampled(points, trig)
  {
    var step := SampleStep(|points|);
    curve := [];
    var i := 0;
    while i < |points|
      invariant curve + SampledFrom(points, i, step, trig) == Sampled(points, trig)
      decreases |points| - i
    {
      SampledFromUnfold(points, i, step, trig, curve);
      curve := curve + [SampleAt(points, i, trig)];
      i := i + step;
    }
  }

  /** One round of the stepped loop moves one point from the points still
      to be sampled to the curve built so far. */
  lemma SampledFromUnfold(points: seq<Point>, i: nat, step: nat, trig: Trig, curve: seq<CurvePoint>)
    requires step >= 1 && i < |points|
    ensures curve + SampledFrom(points, i, step, trig)
            == (curve + [SampleAt(points, i, trig)]) + SampledFrom(points, i + step, step, trig)
  {
    assert SampledFrom(points, i, step, trig)
        == [SampleAt(points, i, trig)] + SampledFrom(points, i + step, step, trig);
  }

  /** Fewer than 40 points are all kept; from 20 points on the curve has
      between 20 and 39 points. */
  lemma SampledCountBounds(points: seq<Point>, trig: Trig)
    ensures |points| < 40 ==> |Sampled(points, trig)| == |points|
    ensures |points| >= 20 ==> 20 <= |Sampled(points, trig)| <= 39
  {
    SampledCount(points, trig);
    var n := |points|;
    var step := SampleStep(n);
    if n < 40 {
      assert step == 1;
    } else {
      var c := CeilDiv(n, step);
      assert step == n / 20 && step >= 2;
      assert 20 * step <= n < 20 * step + 20;
      assert c * step <= n + step - 1 < c * step + step;
      Arith.MulCancelLess(20, c + 1, step);
      Arith.MulCancelLess(c, 31, step);
    }
    if 20 <= n < 40 {
      assert n <= 39;
    }
  }

  /** `centerX + (curveWidth / 2) * cos(pi t)` for a width w and a cosine c. */
  function FallbackX(w: real, c: real): real {
    w / 2.0 + (w * 0.6 / 2.0) * c
  }

  /** `startY + (endY - startY) * (1 - cos(pi t)) / 2` for a height h and a
      cosine c. */
  function FallbackY(h: real, c: real): real {
    h * 0.3 + (h * 0.8 - h * 0.3) * (1.0 - c) / 2.0
  }

  /** The point pushed at step i of the fallback loop. */
  function FallbackPoint(width: nat, height: nat, i: nat, trig: Trig): CurvePoint {
    var t := i as real / 20.0;
    var centerX := width as real / 2.0;
    var startY := height as real * 0.3;
    var endY := height as real * 0.8;
    var curveWidth := width as real * 0.6;
    CurvePoint(
      FallbackX(width as real, trig.cos(Pi * t)),
      FallbackY(height as real, trig.cos(Pi * t)),
      trig.atan2((endY - startY) * trig.sin(Pi * t) * Pi / 2.0,
                 -(curveWidth / 2.0) * trig.sin(Pi * t) * Pi))
  }

  /** The U-shaped fallback curve, points i = 0, ..., 20. */
  function FallbackCurve(width: nat, height: nat, trig: Trig): seq<CurvePoint> {
    seq(21, i requires 0 <= i => FallbackPoint(width, height, i, trig))
  }

  /** `generateFallbackCurve` / the curve of `generateFallbackResult`. */
  method GenerateFallbackCurve(width: nat, height: nat, trig: Trig) returns (curve: seq<CurvePoint>)
    ensures |curve| == 21
    ensures forall i :: 0 <= i < 21 ==> curve[i] == FallbackPoint(width, height, i, trig)
    ensures curve == FallbackCurve(width, height, trig)
  {
    curve := [];
    var i := 0;
    while i <= 20
      invariant 0 <= i <= 21 && |curve| == i
      invariant forall j :: 0 <= j < i ==> curve[j] == FallbackPoint(width, height, j, trig)
    {
      curve := curve + [FallbackPoint(width, height, i, trig)];
      i := i + 1;
    }
  }

  /** Scaling by a cosine in [-1, 1] stays within the scale. */
  lemma ScaledCos(r: real, c: real)
    requires r >= 0.0 && -1.0 <= c <= 1.0
    ensures -r <= r * c <= r
  {
  }

  /** A cosine in [-1, 1] keeps the x-coordinate within 30% of the width
      around the centre: at 80% for cosine 1, at 20% for cosine -1. */
  lemma FallbackXBound(w: real, c: real)
    requires w >= 0.0 && -1.0 <= c <= 1.0
    ensures 0.2 * w <= FallbackX(w, c) <= 0.8 * w
    ensures c == 1.0 ==> FallbackX(w, c) == 0.8 * w
    ensures c == -1.0 ==> FallbackX(w, c) == 0.2 * w
  {
    ScaledCos(w, c);
  }

  /** A cosine in [-1, 1] keeps the y-coordinate between 30% and 80% of
      the height: at 30% for cosine 1, at 80% for cosine -1. */
  lemma FallbackYBound(h: real, c: real)
    requires h >= 0.0 && -1.0 <= c <= 1.0
    ensures 0.3 * h <= FallbackY(h, c) <= 0.8 * h
    ensures c == 1.0 ==> FallbackY(h, c) == 0.3 * h
    ensures c == -1.0 ==> FallbackY(h, c) == 0.8 * h
  {
    ScaledCos(h, c);
  }

  lemma FallbackPointInBox(width: nat, height: nat, i: nat, trig: Trig)
    requires -1.0 <= trig.cos(Pi * (i as real / 20.0)) <= 1.0
    ensures 0.2 * width as real <= FallbackPoint(width, height, i, trig).x <= 0.8 * width as real
    ensures 0.3 * height as real <= FallbackPoint(width, height, i, trig).y <= 0.8 * height as real
  {
    var c := trig.cos(Pi * (i as real / 20.0));
    FallbackXBound(width as real, c);
    FallbackYBound(height as real, c);
  }

  /** With a cosine that stays in [-1, 1], the fallback curve lies in the box
      [0.2 w, 0.8 w] x [0.3 h, 0.8 h]; with cos 0 = 1 and cos pi = -1 it starts
      at (0.8 w, 0.3 h) and ends at (0.2 w, 0.8 h). */
  lemma FallbackGeometry(width: nat, height: nat, trig: Trig)
    requires forall t :: -1.0 <= trig.cos(t) <= 1.0
    ensures forall i :: 0 <= i < 21 ==>
              0.2 * width as real <= FallbackCurve(width, height, trig)[i].x <= 0.8 * width as real &&
              0.3 * height as real <= FallbackCurve(width, height, trig)[i].y <= 0.8 * height as real
    ensures trig.cos(0.0) == 1.0 && trig.cos(Pi) == -1.0 ==>
              FallbackCurve(width, height, trig)[0].x == 0.8 * width as real &&
              FallbackCurve(width, height, trig)[0].y == 0.3 * height as real &&
              FallbackCurve(width, height, trig)[20].x == 0.2 * width as real &&
              FallbackCurve(width, height, trig)[20].y == 0.8 * height as real
  {
    var curve := FallbackCurve(width, height, trig);
    forall i | 0 <= i < 21
      ensures 0.2 * width as real <= curve[i].x <= 0.8 * width as real
      ensures 0.3 * height as real <= curve[i].y <= 0.8 * height as real
    {
      FallbackPointInBox(width, height, i, trig);
    }
    assert Pi * (0 as real / 20.0) == 0.0;
    assert Pi * (20 as real / 20.0) == Pi;
    FallbackXBound(width as real, trig.cos(0.0));
    FallbackYBound(height as real, trig.cos(0.0));
    FallbackXBound(width as real, trig.cos(Pi));
    FallbackYBound(height as real, trig.cos(Pi));
  }
}
