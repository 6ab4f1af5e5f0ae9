/** The contour-based detector of src/hooks/useAdvancedCurveDetection.ts.
    The OpenCV pipeline (grey conversion, blur, Canny, `findContours`,
    `arcLength`) is foreign: its outcome is an input, a list of contours
    with their points and perimeters.  The model keeps what the hook does
    with them: pick the longest contour, reject short ones, rate the
    confidence and turn the contour into a sampled curve. */
module AdvancedCurveDetection {
  import opened Geometry
  import Curves

  /** A contour as `findContours` delivers it: `rows` points stored as
      (x, y) pairs in `data32S`, with its `arcLength`. */
  datatype Contour = Contour(rows: nat, data: seq<int>, perimeter: real)

  predicate WellFormed(c: Contour) {
    2 * c.rows <= |c.data|
  }

  /** `maxContourIndex` and `maxContourLength` after the first n rounds of
      the contour loop. */
  function LongestAmong(contours: seq<Contour>, n: nat): (int, real)
    requires n <= |contours|
  {
    if n == 0 then (-1, 0.0)
    else
      var (index, length) := LongestAmong(contours, n - 1);
      if contours[n - 1].perimeter > length then (n - 1, contours[n - 1].perimeter)
      else (index, length)
  }

  function Longest(contours: seq<Contour>): (int, real) {
    LongestAmong(contours, |contours|)
  }

  /** The contour loop of `detectNecklaceCurve`. */
  method LongestContour(contours: seq<Contour>) returns (maxContourIndex: int, maxContourLength: real)
    ensures (maxContourIndex, maxContourLength) == Longest(contours)
  {
    maxContourIndex := -1;
    maxContourLength := 0.0;
    var i := 0;
    while i < |contours|
      invariant 0 <= i <= |contours|
      invariant (maxContourIndex, maxContourLength) == LongestAmong(contours, i)
    {
      var perimeter := contours[i].perimeter;
      if perimeter > maxContourLength {
        maxContourLength := perimeter;
        maxContourIndex := i;
      }
      i := i + 1;
    }
  }

  lemma {:induction false} LongestAmongIsFirstMaximum(contours: seq<Contour>, n: nat)
    requires n <= |contours|
    ensures var (index, length) := LongestAmong(contours, n);
            && (index == -1 <==> forall j :: 0 <= j < n ==> contours[j].perimeter <= 0.0)
            && (index == -1 ==> length == 0.0)
            && (index != -1 ==>
                  0 <= index < n && length == contours[index].perimeter && length > 0.0 &&
                  (forall j :: 0 <= j < n ==> contours[j].perimeter <= length) &&
                  (forall j :: 0 <= j < index ==> contours[j].perimeter < length))
  {
    if n > 0 {
      LongestAmongIsFirstMaximum(contours, n - 1);
    }
  }

  /** The loop selects the first contour of strictly the largest perimeter,
      and selects none (-1, with length 0) when no perimeter is positive. */
  lemma LongestIsFirstMaximum(contours: seq<Contour>)
    ensures var (index, length) := Longest(contours);
            && (index == -1 <==> forall j :: 0 <= j < |contours| ==> contours[j].perimeter <= 0.0)
            && (index == -1 ==> length == 0.0)
            && (index != -1 ==>
                  0 <= index < |contours| && length == contours[index].perimeter &&
                  (forall j :: 0 <= j < |contours| ==> contours[j].perimeter <= length) &&
                  (forall j :: 0 <= j < index ==> contours[j].perimeter < length))
  {
    LongestAmongIsFirstMaximum(contours, |contours|);
  }

  /** `Math.min(maxContourLength / (canvas.width * 2), 1.0)`; for a zero
      width the quotient of a positive length is Infinity, so the minimum is 1. */
  function Confidence(length: real, width: nat): real {
    if width == 0 then 1.0 else MinReal(length / (2.0 * width as real), 1.0)
  }

  /** A positive length gives a confidence in (0, 1], and 1 exactly when
      the contour is at least twice the image width. */
  lemma ConfidenceBounds(length: real, width: nat)
    requires length > 0.0
    ensures 0.0 < Confidence(length, width) <= 1.0
    ensures Confidence(length, width) == 1.0 <==> length >= 2.0 * width as real
  {
    if width > 0 {
      var w2 := 2.0 * width as real;
      if length >= w2 {
        assert length / w2 >= 1.0;
      } else {
        assert length / w2 < 1.0;
      }
    }
  }

  /** The points of a contour, one per row, read as (data[2i], data[2i+1]). */
  function ContourPointsSpec(c: Contour): seq<Point>
    requires WellFormed(c)
  {
    seq(c.rows, i requires 0 <= i < c.rows => Point(c.data[2 * i], c.data[2 * i + 1]))
  }

  /** The first loop of `extractCurveFromContour`. */
  method ContourPoints(c: Contour) returns (points: seq<Point>)
    requires WellFormed(c)
    ensures |points| == c.rows
    ensures forall i :: 0 <= i < c.rows ==> points[i] == Point(c.data[2 * i], c.data[2 * i + 1])
  {
    points := [];
    var i := 0;
    while i < c.rows
      invariant 0 <= i <= c.rows && |points| == i
      invariant forall j :: 0 <= j < i ==> points[j] == Point(c.data[2 * j], c.data[2 * j + 1])
    {
      var point := c.data[i * 2 .. i * 2 + 2];
      points := points + [Point(point[0], point[1])];
      i := i + 1;
    }
  }

  /** `calculateTangentAngle`, with its defensive clamps of the neighbours. */
  function ClampedTangentAngle(points: seq<Point>, index: nat, trig: Trig): real
    requires index < |points|
  {
    if index == 0 || index == |points| - 1 then 0.0
    else
      var prev := points[MaxInt(0, index - 1)];
      var next := points[MinInt(|points| - 1, index + 1)];
      trig.atan2((next.y - prev.y) as real, (next.x - prev.x) as real)
  }

  /** The clamps never bite: the angle is the one of the gradient-based
      detector, 0 at both ends and the neighbours' direction in between. */
  lemma ClampedTangentAngleAgrees(points: seq<Point>, index: nat, trig: Trig)
    requires index < |points|
    ensures ClampedTangentAngle(points, index, trig) == Curves.TangentAngle(points, index, trig)
    ensures index == 0 || index == |points| - 1 ==> ClampedTangentAngle(points, index, trig) == 0.0
  {
  }

  /** `extractCurveFromContour`: read the points, sort them by x, and keep
      every `step`-th one with its tangent angle. */
  method ExtractCurveFromContour(c: Contour, trig: Trig) returns (curve: seq<CurvePoint>)
    requires WellFormed(c)
    ensures curve == Curves.Sampled(Curves.SortByX(ContourPointsSpec(c)), trig)
  {
    var points := ContourPoints(c);
    assert points == ContourPointsSpec(c);
    points := Curves.SortByX(points);
    curve := SampleSorted(points, trig);
  }

  /** The second loop of `extractCurveFromContour`, over the sorted
      points. */
  method SampleSorted(points: seq<Point>, trig: Trig) returns (curve: seq<CurvePoint>)
    ensures curve == Curves.Sampled(points, trig)
  {
    ghost var target := Curves.Sampled(points, trig);
    curve := [];
    var step := if |points| / 20 > 1 then |points| / 20 else 1;
    var i := 0;
    while i < |points|
      invariant step == Curves.SampleStep(|points|)
      invariant curve + Curves.SampledFrom(points, i, step, trig) == target
      decreases |points| - i
    {
      var point := points[i];
      var angle := ClampedTangentAngle(points, i, trig);
      ClampedTangentAngleAgrees(points, i, trig);
      var sample := CurvePoint(point.x as real, point.y as real, angle);
      assert sample == Curves.SampleAt(points, i, trig);
      var rest := Curves.SampledFrom(points, i + step, step, trig);
      assert Curves.SampledFrom(points, i, step, trig) == [sample] + rest;
      assert (curve + [sample]) + rest == curve + ([sample] + rest);
      curve := curve + [sample];
      i := i + step;
    }
  }

  datatype DetectionResult = DetectionResult(
    curve: seq<CurvePoint>, startPoint: CurvePoint, endPoint: CurvePoint,
    success: bool, confidence: real)

  /** `generateFallbackResult`: the U-shaped curve, rated 0.8. */
  function Fallback(width: nat, height: nat, trig: Trig): DetectionResult {
    var curve := Curves.FallbackCurve(width, height, trig);
    DetectionResult(curve, curve[0], curve[20], true, 0.8)
  }

  method GenerateFallbackResult(width: nat, height: nat, trig: Trig) returns (result: DetectionResult)
    ensures result == Fallback(width, height, trig)
    ensures |result.curve| == 21 && result.startPoint == result.curve[0] && result.endPoint == result.curve[20]
    ensures result.success && result.confidence == 0.8
  {
    var curve := Curves.GenerateFallbackCurve(width, height, trig);
    result := DetectionResult(curve, curve[0], curve[|curve| - 1], true, 0.8);
  }

  /** What reading the canvas and running OpenCV give: no image data, an
      exception, or the contours found. */
  datatype CanvasOutcome = NoImageData | Threw | ContoursFound(contours: seq<Contour>)

  datatype ImageLoad = LoadFailed | Loaded(width: nat, height: nat, outcome: CanvasOutcome)

  /** OpenCV hands out contours whose data holds two coordinates per row. */
  predicate ValidLoad(load: ImageLoad) {
    load.Loaded? && load.outcome.ContoursFound? ==>
      forall i :: 0 <= i < |load.outcome.contours| ==> WellFormed(load.outcome.contours[i])
  }

  /** `curve[0] || origin` and `curve[curve.length - 1] || origin` */
  function FirstOr(curve: seq<CurvePoint>): CurvePoint {
    if |curve| > 0 then curve[0] else Origin
  }

  function LastOr(curve: seq<CurvePoint>): CurvePoint {
    if |curve| > 0 then curve[|curve| - 1] else Origin
  }

  /** The result `detectNecklaceCurve` resolves with. */
  function Detection(load: ImageLoad, trig: Trig): DetectionResult
    requires ValidLoad(load)
  {
    match load
    case LoadFailed => Fallback(400, 400, trig)
    case Loaded(width, height, outcome) =>
      match outcome
      case NoImageData => Fallback(width, height, trig)
      case Threw => Fallback(width, height, trig)
      case ContoursFound(contours) =>
        var (index, length) := Longest(contours);
        if index == -1 || length < 100.0 then Fallback(width, height, trig)
        else
          assert 0 <= index < |contours| by { LongestIsFirstMaximum(contours); }
          var curve := Curves.Sampled(Curves.SortByX(ContourPointsSpec(contours[index])), trig);
          DetectionResult(curve, FirstOr(curve), LastOr(curve), true, Confidence(length, width))
  }

  /** `detectNecklaceCurve`, from the outcome of the load on. */
  method DetectNecklaceCurve(load: ImageLoad, trig: Trig) returns (result: DetectionResult)
    requires ValidLoad(load)
    ensures result == Detection(load, trig)
  {
    match load {
      case LoadFailed =>
        result := GenerateFallbackResult(400, 400, trig);
      case Loaded(width, height, outcome) =>
        match outcome {
          case NoImageData =>
            result := GenerateFallbackResult(width, height, trig);
          case Threw =>
            result := GenerateFallbackResult(width, height, trig);
          case ContoursFound(contours) =>
            var maxContourIndex, maxContourLength := LongestContour(contours);
            if maxContourIndex == -1 || maxContourLength < 100.0 {
              result := GenerateFallbackResult(width, height, trig);
            } else {
              LongestIsFirstMaximum(contours);
              var curve := ExtractCurveFromContour(contours[maxContourIndex], trig);
              var confidence := if width == 0 then 1.0
                                else MinReal(maxContourLength / (2.0 * width as real), 1.0);
              result := DetectionResult(curve, FirstOr(curve), LastOr(curve), true, confidence);
            }
        }
    }
  }

  /** Every result is a success with a confidence in (0, 1] and ends taken
      from its curve; the fallback (21 points, confidence 0.8) is used when
      the load fails, no contour has a positive perimeter or the longest is
      shorter than 100; otherwise the curve is sampled from the longest
      contour and rated by its length. */
  lemma DetectionOutcome(load: ImageLoad, trig: Trig)
    requires ValidLoad(load)
    ensures var r := Detection(load, trig);
            && r.success
            && 0.0 < r.confidence <= 1.0
            && (r.startPoint == FirstOr(r.curve) && r.endPoint == LastOr(r.curve))
    ensures load.Loaded? && load.outcome.ContoursFound? ==>
              var contours := load.outcome.contours;
              var (index, length) := Longest(contours);
              if index == -1 || length < 100.0 then
                Detection(load, trig) == Fallback(load.width, load.height, trig)
              else
                0 <= index < |contours| &&
                Detection(load, trig).curve ==
                  Curves.Sampled(Curves.SortByX(ContourPointsSpec(contours[index])), trig) &&
                Detection(load, trig).confidence == Confidence(length, load.width)
    ensures !(load.Loaded? && load.outcome.ContoursFound?) ==>
              Detection(load, trig) == Fallback(if load.Loaded? then load.width else 400,
                                                if load.Loaded? then load.height else 400, trig)
    ensures forall width: nat, height: nat :: |Fallback(width, height, trig).curve| == 21
  {
    if load.Loaded? && load.outcome.ContoursFound? {
      var (index, length) := Longest(load.outcome.contours);
      LongestIsFirstMaximum(load.outcome.contours);
      if index != -1 && length >= 100.0 {
        ConfidenceBounds(length, load.width);
      }
    }
  }
}
