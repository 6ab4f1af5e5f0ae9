/** The gradient-based detector of src/hooks/useNecklaceCurveDetection.ts:
    edge pixels of an RGBA buffer, the x-sorted and resampled curve through
    them, and the choice between that curve, the U-shaped fallback curve
    and the one failure result.  Loading the image and reading the canvas
    are inputs: the outcome of the load and of `getImageData`. */
module NecklaceCurveDetection {
  import opened Geometry
  import Arith
  import Curves
  import Sorting

  type Byte = b: int | 0 <= b < 256

  /** An RGBA pixel buffer, four bytes per pixel, row by row. */
  datatype ImageData = ImageData(width: nat, height: nat, data: seq<Byte>)

  predicate ValidImage(img: ImageData) {
    |img.data| == 4 * img.width * img.height
  }

  lemma PixelInRange(w: nat, h: nat, x: nat, y: nat)
    requires x < w && y < h
    ensures (y * w + x) * 4 + 3 < 4 * w * h
  {
    var m := y * w + x;
    assert (y + 1) * w == y * w + w;
    Arith.MulMonotone(y + 1, h, w);
    assert m + 1 <= h * w;
    assert 4 * w * h == 4 * (h * w);
  }

  /** The red + green + blue sum of pixel (x, y). */
  function ColourSum(img: ImageData, x: nat, y: nat): (s: int)
    requires ValidImage(img) && x < img.width && y < img.height
    ensures 0 <= s <= 765
  {
    PixelInRange(img.width, img.height, x, y);
    var idx := (y * img.width + x) * 4;
    img.data[idx] as int + img.data[idx + 1] as int + img.data[idx + 2] as int
  }

  /** `getGrayscale`: the mean of the three colour channels. */
  function Grey(img: ImageData, x: nat, y: nat): real
    requires ValidImage(img) && x < img.width && y < img.height
  {
    ColourSum(img, x, y) as real / 3.0
  }

  /** An interior pixel: it has a neighbour on each of its four sides. */
  predicate Interior(img: ImageData, x: int, y: int) {
    1 <= x && x + 1 < img.width && 1 <= y && y + 1 < img.height
  }

  /** The squared central-difference gradient of the grey level exceeds
      900, that is its magnitude `Math.sqrt(gx * gx + gy * gy)` exceeds 30. */
  predicate IsEdge(img: ImageData, x: nat, y: nat)
    requires ValidImage(img) && Interior(img, x, y)
  {
    var gx := Grey(img, x + 1, y) - Grey(img, x - 1, y);
    var gy := Grey(img, x, y + 1) - Grey(img, x, y - 1);
    gx * gx + gy * gy > 900.0
  }

  /** The threshold in integers: the squared differences of the channel
      sums exceed 9 * 900 = 8100. */
  lemma IsEdgeInIntegers(img: ImageData, x: nat, y: nat)
    requires ValidImage(img) && Interior(img, x, y)
    ensures var dx := ColourSum(img, x + 1, y) - ColourSum(img, x - 1, y);
            var dy := ColourSum(img, x, y + 1) - ColourSum(img, x, y - 1);
            IsEdge(img, x, y) <==> dx * dx + dy * dy > 8100
  {
    var dx := ColourSum(img, x + 1, y) - ColourSum(img, x - 1, y);
    var dy := ColourSum(img, x, y + 1) - ColourSum(img, x, y - 1);
    var gx := Grey(img, x + 1, y) - Grey(img, x - 1, y);
    var gy := Grey(img, x, y + 1) - Grey(img, x, y - 1);
    assert gx == dx as real / 3.0;
    assert gy == dy as real / 3.0;
    ThirdSquared(dx);
    ThirdSquared(dy);
  }

  lemma ThirdSquared(d: int)
    ensures (d as real / 3.0) * (d as real / 3.0) == (d * d) as real / 9.0
  {
    var a := d as real;
    assert (d * d) as real == a * a;
    assert (a / 3.0) * (a / 3.0) == a * a / 9.0;
  }

  /** The edges found in row y among the columns 1, ..., xEnd - 1, in order. */
  function RowEdges(img: ImageData, y: nat, xEnd: nat): seq<Point>
    requires ValidImage(img) && 1 <= y && y + 1 < img.height && (xEnd <= 1 || xEnd < img.width)
  {
    if xEnd <= 1 then []
    else
      RowEdges(img, y, xEnd - 1) +
      (if IsEdge(img, xEnd - 1, y) then [Point(xEnd - 1, y)] else [])
  }

  /** The edges found in the rows 1, ..., yEnd - 1, in order. */
  function EdgesBefore(img: ImageData, yEnd: nat): seq<Point>
    requires ValidImage(img) && (yEnd <= 1 || yEnd < img.height)
  {
    if yEnd <= 1 then []
    else EdgesBefore(img, yEnd - 1) + RowEdges(img, yEnd - 1, LastColumnEnd(img))
  }

  /** The bound `width - 1` of the column loop, or 1 when it runs no round. */
  function LastColumnEnd(img: ImageData): nat {
    if img.width >= 2 then img.width - 1 else 1
  }

  /** The bound `height - 1` of the row loop, or 1 when it runs no round. */
  function LastRowEnd(img: ImageData): nat {
    if img.height >= 2 then img.height - 1 else 1
  }

  /** All edges of the image, in the order `detectEdges` pushes them. */
  function Edges(img: ImageData): seq<Point>
    requires ValidImage(img)
  {
    EdgesBefore(img, LastRowEnd(img))
  }

  /** `detectEdges`: the row loop, each row scanned by `ScanRow`. */
  method DetectEdges(img: ImageData) returns (edges: seq<Point>)
    requires ValidImage(img)
    ensures edges == Edges(img)
  {
    var height := img.height;
    edges := [];
    var y := 1;
    while y < height - 1
      invariant 1 <= y <= LastRowEnd(img)
      invariant edges == EdgesBefore(img, y)
    {
      edges := ScanRow(img, y, edges);
      y := y + 1;
    }
  }

  /** The column loop of `detectEdges` over row y: the row's edges are
      pushed, left to right. */
  method ScanRow(img: ImageData, y: nat, acc: seq<Point>) returns (edges: seq<Point>)
    requires ValidImage(img) && 1 <= y && y + 1 < img.height
    ensures edges == acc + RowEdges(img, y, LastColumnEnd(img))
  {
    var width := img.width;
    edges := acc;
    var x := 1;
    while x < width - 1
      invariant 1 <= x <= LastColumnEnd(img)
      invariant edges == acc + RowEdges(img, y, x)
    {
      if IsEdge(img, x, y) {
        edges := edges + [Point(x, y)];
      }
      x := x + 1;
    }
  }

  lemma {:induction false} RowEdgesMembership(img: ImageData, y: nat, xEnd: nat, p: Point)
    requires ValidImage(img) && 1 <= y && y + 1 < img.height && (xEnd <= 1 || xEnd < img.width)
    ensures p in RowEdges(img, y, xEnd) <==>
              p.y == y && 1 <= p.x < xEnd && IsEdge(img, p.x, p.y)
  {
    if xEnd > 1 {
      RowEdgesMembership(img, y, xEnd - 1, p);
    }
  }

  lemma {:induction false} EdgesBeforeMembership(img: ImageData, yEnd: nat, p: Point)
    requires ValidImage(img) && (yEnd <= 1 || yEnd < img.height)
    ensures p in EdgesBefore(img, yEnd) <==>
              Interior(img, p.x, p.y) && p.y < yEnd && IsEdge(img, p.x, p.y)
  {
    if yEnd > 1 {
      EdgesBeforeMembership(img, yEnd - 1, p);
      RowEdgesMembership(img, yEnd - 1, LastColumnEnd(img), p);
    }
  }

  /** A point is reported exactly when it is an interior pixel,
      1 <= x <= w - 2 and 1 <= y <= h - 2, whose gradient passes the
      threshold. */
  lemma EdgesMembership(img: ImageData, p: Point)
    requires ValidImage(img)
    ensures p in Edges(img) <==> Interior(img, p.x, p.y) && IsEdge(img, p.x, p.y)
  {
    EdgesBeforeMembership(img, LastRowEnd(img), p);
  }

  /** p comes strictly before q in row-major order. */
  predicate RowMajorBefore(p: Point, q: Point) {
    p.y < q.y || (p.y == q.y && p.x < q.x)
  }

  predicate StrictlyRowMajor(s: seq<Point>) {
    forall a, b :: 0 <= a < b < |s| ==> RowMajorBefore(s[a], s[b])
  }

  lemma StrictlyRowMajorAppend(s: seq<Point>, t: seq<Point>)
    requires StrictlyRowMajor(s) && StrictlyRowMajor(t)
    requires forall a, b :: 0 <= a < |s| && 0 <= b < |t| ==> RowMajorBefore(s[a], t[b])
    ensures StrictlyRowMajor(s + t)
  {
    var u := s + t;
    forall a, b | 0 <= a < b < |u| ensures RowMajorBefore(u[a], u[b]) {
      if b < |s| {
        assert u[a] == s[a] && u[b] == s[b];
      } else if a >= |s| {
        assert u[a] == t[a - |s|] && u[b] == t[b - |s|];
      } else {
        assert u[a] == s[a] && u[b] == t[b - |s|];
      }
    }
  }

  lemma {:induction false} RowEdgesRowMajor(img: ImageData, y: nat, xEnd: nat)
    requires ValidImage(img) && 1 <= y && y + 1 < img.height && (xEnd <= 1 || xEnd < img.width)
    ensures StrictlyRowMajor(RowEdges(img, y, xEnd))
  {
    if xEnd > 1 {
      var s := RowEdges(img, y, xEnd - 1);
      RowEdgesRowMajor(img, y, xEnd - 1);
      var t: seq<Point> := if IsEdge(img, xEnd - 1, y) then [Point(xEnd - 1, y)] else [];
      forall a | 0 <= a < |s| ensures s[a].y == y && s[a].x < xEnd - 1 {
        RowEdgesMembership(img, y, xEnd - 1, s[a]);
      }
      StrictlyRowMajorAppend(s, t);
    }
  }

  lemma {:induction false} EdgesBeforeRowMajor(img: ImageData, yEnd: nat)
    requires ValidImage(img) && (yEnd <= 1 || yEnd < img.height)
    ensures StrictlyRowMajor(EdgesBefore(img, yEnd))
  {
    if yEnd > 1 {
      var s := EdgesBefore(img, yEnd - 1);
      var t := RowEdges(img, yEnd - 1, LastColumnEnd(img));
      EdgesBeforeRowMajor(img, yEnd - 1);
      RowEdgesRowMajor(img, yEnd - 1, LastColumnEnd(img));
      forall a, b | 0 <= a < |s| && 0 <= b < |t| ensures RowMajorBefore(s[a], t[b]) {
        EdgesBeforeMembership(img, yEnd - 1, s[a]);
        RowEdgesMembership(img, yEnd - 1, LastColumnEnd(img), t[b]);
      }
      StrictlyRowMajorAppend(s, t);
    }
  }

  /** The edges come in strictly increasing row-major order, so none is
      reported twice. */
  lemma EdgesRowMajor(img: ImageData)
    requires ValidImage(img)
    ensures StrictlyRowMajor(Edges(img))
    ensures forall a, b :: 0 <= a < b < |Edges(img)| ==> Edges(img)[a] != Edges(img)[b]
  {
    EdgesBeforeRowMajor(img, LastRowEnd(img));
  }

  /** `extractNecklaceCurve`: nothing for no edge points, otherwise the
      points sorted by x and sampled every `step`-th one.  The image size
      it also receives plays no part. */
  method ExtractNecklaceCurve(edgePoints: seq<Point>, trig: Trig) returns (curve: seq<CurvePoint>)
    ensures curve == Curves.Sampled(Curves.SortByX(edgePoints), trig)
  {
    if |edgePoints| == 0 {
      return [];
    }
    var sortedPoints := Curves.SortByX(edgePoints);
    curve := Curves.SampleSorted(sortedPoints, trig);
  }

  /** The extracted curve: empty exactly for no edge points; ceil(n / step)
      points otherwise, each at an input point, with non-decreasing x; all
      points are kept below 40 of them. */
  lemma ExtractedCurveShape(edgePoints: seq<Point>, trig: Trig)
    ensures var curve := Curves.Sampled(Curves.SortByX(edgePoints), trig);
            && (curve == [] <==> edgePoints == [])
            && |curve| == Curves.CeilDiv(|edgePoints|, Curves.SampleStep(|edgePoints|))
            && (|edgePoints| < 40 ==> |curve| == |edgePoints|)
            && (forall a, b :: 0 <= a < b < |curve| ==> curve[a].x <= curve[b].x)
            && (forall k :: 0 <= k < |curve| ==>
                  exists p :: p in edgePoints && curve[k].x == p.x as real && curve[k].y == p.y as real)
  {
    var sorted := Curves.SortByX(edgePoints);
    Curves.SortByXIsSortedPermutation(edgePoints);
    Curves.SampledCount(sorted, trig);
    Curves.SampledCountBounds(sorted, trig);
    Curves.SampledXNondecreasing(sorted, trig);
    ExtractedPointsAreInput(edgePoints, trig);
  }

  /** Every point of the extracted curve sits at one of the input points. */
  lemma ExtractedPointsAreInput(edgePoints: seq<Point>, trig: Trig)
    ensures var curve := Curves.Sampled(Curves.SortByX(edgePoints), trig);
            forall k :: 0 <= k < |curve| ==>
              exists p :: p in edgePoints && curve[k].x == p.x as real && curve[k].y == p.y as real
  {
    var sorted := Curves.SortByX(edgePoints);
    var curve := Curves.Sampled(sorted, trig);
    Curves.SortByXIsSortedPermutation(edgePoints);
    forall k | 0 <= k < |curve|
      ensures exists p :: p in edgePoints && curve[k].x == p.x as real && curve[k].y == p.y as real
    {
      Curves.SampledPoint(sorted, trig, k);
      var p := sorted[k * Curves.SampleStep(|sorted|)];
      assert p in multiset(sorted);
      assert p in edgePoints;
    }
  }

  /** What the canvas gives back: `getImageData` may return nothing (no 2D
      context), throw, or deliver the buffer. */
  datatype PixelRead = NoPixels | ReadFailed | Pixels(data: seq<Byte>)

  /** The outcome of loading the image, `onerror` or `onload` with its size. */
  datatype ImageLoad = LoadFailed | Loaded(width: nat, height: nat, read: PixelRead)

  /** A buffer delivered by the canvas holds four bytes per pixel. */
  predicate ValidLoad(load: ImageLoad) {
    load.Loaded? && load.read.Pixels? ==> |load.read.data| == 4 * load.width * load.height
  }

  datatype DetectionResult = DetectionResult(
    curve: seq<CurvePoint>, startPoint: CurvePoint, endPoint: CurvePoint, success: bool)

  /** A successful result built from a curve of at least one point. */
  function Resolved(curve: seq<CurvePoint>): DetectionResult
    requires |curve| > 0
  {
    DetectionResult(curve, curve[0], curve[|curve| - 1], true)
  }

  /** The fallback result for an image of the given size. */
  function Fallback(width: nat, height: nat, trig: Trig): DetectionResult {
    Resolved(Curves.FallbackCurve(width, height, trig))
  }

  /** The result `detectNecklaceCurve` resolves with. */
  function Detection(load: ImageLoad, trig: Trig): DetectionResult
    requires ValidLoad(load)
  {
    match load
    case LoadFailed => Fallback(400, 400, trig)
    case Loaded(width, height, read) =>
      match read
      case NoPixels => DetectionResult([], Origin, Origin, false)
      case ReadFailed => Fallback(width, height, trig)
      case Pixels(data) =>
        var curve := Curves.Sampled(Curves.SortByX(Edges(ImageData(width, height, data))), trig);
        if |curve| < 3 then Fallback(width, height, trig) else Resolved(curve)
  }

  method FallbackResult(width: nat, height: nat, trig: Trig) returns (result: DetectionResult)
    ensures result == Fallback(width, height, trig)
  {
    var fallbackCurve := Curves.GenerateFallbackCurve(width, height, trig);
    result := DetectionResult(fallbackCurve, fallbackCurve[0], fallbackCurve[|fallbackCurve| - 1], true);
  }

  /** `detectNecklaceCurve`, from the outcome of the load on. */
  method DetectNecklaceCurve(load: ImageLoad, trig: Trig) returns (result: DetectionResult)
    requires ValidLoad(load)
    ensures result == Detection(load, trig)
  {
    match load {
      case LoadFailed =>
        result := FallbackResult(400, 400, trig);
      case Loaded(width, height, read) =>
        match read {
          case NoPixels =>
            result := DetectionResult([], Origin, Origin, false);
          case ReadFailed =>
            result := FallbackResult(width, height, trig);
          case Pixels(data) =>
            var edgePoints := DetectEdges(ImageData(width, height, data));
            var necklaceCurve := ExtractNecklaceCurve(edgePoints, trig);
            if |necklaceCurve| < 3 {
              result := FallbackResult(width, height, trig);
            } else {
              result := DetectionResult(necklaceCurve, necklaceCurve[0],
                                        necklaceCurve[|necklaceCurve| - 1], true);
            }
        }
    }
  }

  /** Only missing pixel data fails, and it fails with an empty curve at
      the origin; every successful result has at least three points and
      starts and ends at its first and last point. */
  lemma DetectionOutcome(load: ImageLoad, trig: Trig)
    requires ValidLoad(load)
    ensures var r := Detection(load, trig);
            && (!r.success <==> load.Loaded? && load.read.NoPixels?)
            && (!r.success ==> r.curve == [] && r.startPoint == Origin && r.endPoint == Origin)
            && (r.success ==> |r.curve| >= 3 && r.startPoint == r.curve[0] &&
                              r.endPoint == r.curve[|r.curve| - 1])
  {
  }

  /** The 21-point fallback curve is used exactly when loading fails (at
      400 x 400), reading the canvas throws, or the image has fewer than
      three edge pixels. */
  lemma DetectionFallback(load: ImageLoad, trig: Trig)
    requires ValidLoad(load)
    ensures load.LoadFailed? ==> Detection(load, trig) == Fallback(400, 400, trig)
    ensures load.Loaded? && load.read.ReadFailed? ==>
              Detection(load, trig) == Fallback(load.width, load.height, trig)
    ensures load.Loaded? && load.read.Pixels? ==>
              var img := ImageData(load.width, load.height, load.read.data);
              Detection(load, trig) ==
                (if |Edges(img)| < 3 then Fallback(load.width, load.height, trig)
                 else Resolved(Curves.Sampled(Curves.SortByX(Edges(img)), trig)))
    ensures forall width: nat, height: nat :: |Fallback(width, height, trig).curve| == 21
  {
    if load.Loaded? && load.read.Pixels? {
      var img := ImageData(load.width, load.height, load.read.data);
      Curves.SortByXIsSortedPermutation(Edges(img));
      Curves.SampledCountBounds(Curves.SortByX(Edges(img)), trig);
    }
  }
}
