/** The charm-placement hook of src/hooks/useCharmPlacement.ts: given the
    detected curve and a number of charms, choose the curve point every
    charm sits on, turn its tangent angle into a rotation in degrees and
    give it a scale. One charm sits at the centre, two at the thirds, and
    three or more are spread evenly between 10% offsets from both ends with
    a random scale jitter (the draws of `Math.random` are an input). */
module CharmPlacement {
  import opened Geometry
  import Arith

  datatype CharmPosition = CharmPosition(x: real, y: real, rotation: real, scale: real)

  /** `(angle * 180) / Math.PI` */
  function Degrees(angle: real): real {
    angle * 180.0 / Pi
  }

  /** The position pushed for a curve point. */
  function PositionAt(p: CurvePoint, scale: real): CharmPosition {
    CharmPosition(p.x, p.y, Degrees(p.angle), scale)
  }

  /** `Math.floor(curve.length * 0.1)`: for an integer length the double
      product rounds so that its floor is exactly the integer tenth. */
  function EdgeOffset(k: nat): nat {
    k / 10
  }

  /** `curve.length - startOffset - endOffset` */
  function UsableLength(k: nat): nat {
    k - 2 * EdgeOffset(k)
  }

  /** `Math.floor(curve.length / 2)`: the centre index, as far from the
      first index as from the last one, up to one. */
  function CenterIndex(k: nat): (c: nat)
    requires k >= 1
    ensures c < k
    ensures (k - 1) - c <= c <= (k - 1) - c + 1
  {
    k / 2
  }

  /** The two indices of the two-charm rule, `floor(K / 3)` and
      `floor(2K / 3)`: the first and second third points of the curve. */
  function ThirdIndex(k: nat, second: bool): (t: nat)
    requires k >= 1
    ensures t < k
    ensures var m := if second then 2 * k else k; 3 * t <= m < 3 * t + 3
  {
    if second then (k * 2) / 3 else k / 3
  }

  /** The index of charm i of n >= 3: `startOffset + floor(i / (n - 1) * usable)`
      clamped to the last index. */
  function SpreadIndex(k: nat, n: nat, i: nat): (idx: nat)
    requires k >= 1 && n >= 3 && i < n
    ensures idx < k
    ensures EdgeOffset(k) <= idx
  {
    MinInt(EdgeOffset(k) + Share(i, UsableLength(k), n - 1), k - 1)
  }

  /** `floor(i * usable / (n - 1))`, the part of the usable length that
      lies before charm i. */
  function Share(i: nat, u: nat, d: nat): nat
    requires d >= 1
  {
    Arith.MulMonotone(0, i, u);
    (i * u) / d
  }

  /** The curve index of charm i of n on a curve of k points. */
  function PlacementIndex(k: nat, n: nat, i: nat): (idx: nat)
    requires k >= 1 && 1 <= n && i < n
    ensures idx < k
  {
    if n == 1 then CenterIndex(k)
    else if n == 2 then ThirdIndex(k, i == 1)
    else SpreadIndex(k, n, i)
  }

  /** `Math.max(0.8, Math.min(1.2, 1.0 + (r - 0.5) * 0.1))` */
  function JitteredScale(r: real): real {
    MaxReal(0.8, MinReal(1.2, 1.0 + (r - 0.5) * 0.1))
  }

  /** The scale of charm i: fixed at 1.0 for one or two charms, jittered
      by the i-th random draw from three charms on. */
  function ScaleFor(n: nat, draws: seq<real>, i: nat): real
    requires i < n && (n >= 3 ==> n <= |draws|)
  {
    if n <= 2 then 1.0 else JitteredScale(draws[i])
  }

  /** Every random draw lies in [0, 1), as `Math.random` promises. */
  predicate ValidDraws(draws: seq<real>) {
    forall j :: 0 <= j < |draws| ==> 0.0 <= draws[j] < 1.0
  }

  /** The placements the memo body of `useCharmPlacement` returns.  A
      negative count behaves like zero: the spreading loop runs no round. */
  function Placements(curve: seq<CurvePoint>, charmCount: int, draws: seq<real>): seq<CharmPosition>
    requires charmCount >= 3 ==> charmCount <= |draws|
  {
    if |curve| == 0 || charmCount <= 0 then []
    else
      seq(charmCount, i requires 0 <= i < charmCount =>
        PositionAt(curve[PlacementIndex(|curve|, charmCount, i)], ScaleFor(charmCount, draws, i)))
  }

  /** The memo body of `useCharmPlacement`, with its three branches and its
      push loops. */
  method PlaceCharms(curve: seq<CurvePoint>, charmCount: int, draws: seq<real>)
    returns (positions: seq<CharmPosition>)
    requires charmCount >= 3 ==> charmCount <= |draws|
    ensures positions == Placements(curve, charmCount, draws)
  {
    if |curve| == 0 || charmCount == 0 {
      return [];
    }
    var k := |curve|;
    positions := [];
    if charmCount == 1 {
      var centerPoint := curve[k / 2];
      positions := positions + [PositionAt(centerPoint, 1.0)];
    } else if charmCount == 2 {
      var indices := [k / 3, (k * 2) / 3];
      var j := 0;
      while j < |indices|
        invariant 0 <= j <= 2 && |positions| == j
        invariant forall m :: 0 <= m < j ==> positions[m] == PositionAt(curve[ThirdIndex(k, m == 1)], 1.0)
      {
        positions := positions + [PositionAt(curve[indices[j]], 1.0)];
        j := j + 1;
      }
    } else {
      positions := SpreadPositions(curve, charmCount, draws);
    }
  }

  /** The loop of `useCharmPlacement` for any other count: three charms or
      more spread over the curve without its first and last tenth, each
      with its jittered scale; a negative count makes no round. */
  method SpreadPositions(curve: seq<CurvePoint>, charmCount: int, draws: seq<real>)
    returns (positions: seq<CharmPosition>)
    requires |curve| > 0 && (charmCount >= 3 || charmCount < 0)
    requires charmCount >= 3 ==> charmCount <= |draws|
    ensures positions == Placements(curve, charmCount, draws)
  {
    var k := |curve|;
    positions := [];
    var startOffset := k / 10;
    var endOffset := k / 10;
    var usableLength := k - startOffset - endOffset;
    var i := 0;
    while i < charmCount
      invariant 0 <= i && (charmCount >= 3 ==> i <= charmCount)
      invariant charmCount < 0 ==> i == 0
      invariant |positions| == i
      invariant forall m :: 0 <= m < i ==>
                  positions[m] == PositionAt(curve[SpreadIndex(k, charmCount, m)], JitteredScale(draws[m]))
    {
      var curveIndex := startOffset + Share(i, usableLength, charmCount - 1);
      var safeIndex := MinInt(curveIndex, k - 1);
      var point := curve[safeIndex];
      var scale := 1.0 + (draws[i] - 0.5) * 0.1;
      positions := positions + [PositionAt(point, MaxReal(0.8, MinReal(1.2, scale)))];
      i := i + 1;
    }
  }

  /** Nothing is placed on an empty curve or for no charms; otherwise one
      position per charm. */
  lemma PlacementsCount(curve: seq<CurvePoint>, charmCount: int, draws: seq<real>)
    requires charmCount >= 3 ==> charmCount <= |draws|
    ensures |curve| == 0 || charmCount <= 0 ==> Placements(curve, charmCount, draws) == []
    ensures |curve| > 0 && charmCount > 0 ==> |Placements(curve, charmCount, draws)| == charmCount
  {
  }

  /** Placement i copies the coordinates of curve point
      `PlacementIndex(|curve|, charmCount, i)` and turns its angle into
      degrees. */
  lemma PlacementsOnCurve(curve: seq<CurvePoint>, charmCount: int, draws: seq<real>, i: nat)
    requires charmCount >= 3 ==> charmCount <= |draws|
    requires i < |Placements(curve, charmCount, draws)|
    ensures exists j :: 0 <= j < |curve| &&
              Placements(curve, charmCount, draws)[i].x == curve[j].x &&
              Placements(curve, charmCount, draws)[i].y == curve[j].y &&
              Placements(curve, charmCount, draws)[i].rotation == curve[j].angle * 180.0 / Pi
    ensures 0 < charmCount && i < charmCount && |curve| > 0
    ensures var j := PlacementIndex(|curve|, charmCount, i);
            Placements(curve, charmCount, draws)[i].x == curve[j].x &&
            Placements(curve, charmCount, draws)[i].y == curve[j].y &&
            Placements(curve, charmCount, draws)[i].rotation == curve[j].angle * 180.0 / Pi
  {
    var j := PlacementIndex(|curve|, charmCount, i);
    assert Placements(curve, charmCount, draws)[i] == PositionAt(curve[j], ScaleFor(charmCount, draws, i));
  }

  /** The clamp never bites: a draw in [0, 1) gives a scale in [0.95, 1.05),
      well inside [0.8, 1.2]. */
  lemma JitteredScaleBounds(r: real)
    requires 0.0 <= r < 1.0
    ensures JitteredScale(r) == 1.0 + (r - 0.5) * 0.1
    ensures 0.95 <= JitteredScale(r) < 1.05
    ensures 0.8 <= JitteredScale(r) <= 1.2
  {
  }

  /** Every scale lies in [0.8, 1.2], and it is exactly 1.0 for one or two charms. */
  lemma PlacementsScale(curve: seq<CurvePoint>, charmCount: int, draws: seq<real>)
    requires charmCount >= 3 ==> charmCount <= |draws|
    requires ValidDraws(draws)
    ensures forall i :: 0 <= i < |Placements(curve, charmCount, draws)| ==>
              0.8 <= Placements(curve, charmCount, draws)[i].scale <= 1.2
    ensures charmCount <= 2 ==>
              forall i :: 0 <= i < |Placements(curve, charmCount, draws)| ==>
                Placements(curve, charmCount, draws)[i].scale == 1.0
  {
    var p := Placements(curve, charmCount, draws);
    forall i | 0 <= i < |p| ensures 0.8 <= p[i].scale <= 1.2 {
      if charmCount >= 3 {
        JitteredScaleBounds(draws[i]);
      }
    }
  }

  /** From three charms on, the chosen indices never go backwards along the
      curve; the first is the start offset and the last is 10% from the
      end (or the last index on a curve shorter than ten points). */
  lemma SpreadIndexMonotone(k: nat, n: nat, i: nat, j: nat)
    requires k >= 1 && n >= 3 && i <= j < n
    ensures SpreadIndex(k, n, i) <= SpreadIndex(k, n, j)
    ensures SpreadIndex(k, n, 0) == EdgeOffset(k)
    ensures SpreadIndex(k, n, n - 1) == (if k >= 10 then k - EdgeOffset(k) else k - 1)
  {
    ShareMonotone(i, j, UsableLength(k), n - 1);
    ShareEnds(UsableLength(k), n - 1);
  }

  lemma ShareMonotone(i: nat, j: nat, u: nat, d: nat)
    requires i <= j && d >= 1
    ensures Share(i, u, d) <= Share(j, u, d)
  {
    Arith.MulMonotone(i, j, u);
    Arith.DivMonotone(i * u, j * u, d);
  }

  /** The first charm gets no share and the last one the whole usable length. */
  lemma ShareEnds(u: nat, d: nat)
    requires d >= 1
    ensures Share(0, u, d) == 0
    ensures Share(d, u, d) == u
  {
    assert d * u == u * d;
    Arith.DivExact(u, d);
  }

  /** The two-charm indices are in order. */
  lemma ThirdsOrdered(k: nat)
    requires k >= 1
    ensures ThirdIndex(k, false) <= ThirdIndex(k, true)
  {
    Arith.DivMonotone(k, 2 * k, 3);
  }

  /** Charm order follows the curve: on a curve of non-decreasing x (the
      sampled detection curve is one), the placements go left to right. */
  lemma PlacementsLeftToRight(curve: seq<CurvePoint>, charmCount: int, draws: seq<real>)
    requires charmCount >= 3 ==> charmCount <= |draws|
    requires forall a, b :: 0 <= a < b < |curve| ==> curve[a].x <= curve[b].x
    ensures forall a, b :: 0 <= a < b < |Placements(curve, charmCount, draws)| ==>
              Placements(curve, charmCount, draws)[a].x <= Placements(curve, charmCount, draws)[b].x
  {
    var p := Placements(curve, charmCount, draws);
    forall a, b | 0 <= a < b < |p| ensures p[a].x <= p[b].x {
      var k := |curve|;
      var ia, ib := PlacementIndex(k, charmCount, a), PlacementIndex(k, charmCount, b);
      if charmCount == 2 {
        ThirdsOrdered(k);
      } else {
        SpreadIndexMonotone(k, charmCount, a, b);
      }
      assert ia <= ib;
      assert p[a].x == curve[ia].x && p[b].x == curve[ib].x;
    }
  }
}
