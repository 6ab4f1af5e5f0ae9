/** Values shared by the curve-detection and charm-placement hooks. */
module Geometry {
  /** An integer pixel position, as produced by edge detection and by contours. */
  datatype Point = Point(x: int, y: int)

  /** A point of the necklace curve with its tangent angle in radians. */
  datatype CurvePoint = CurvePoint(x: real, y: real, angle: real)

  /** `{ x: 0, y: 0, angle: 0 }`, the placeholder end point of an empty curve. */
  const Origin: CurvePoint := CurvePoint(0.0, 0.0, 0.0)

  /** The floating-point trigonometry the hooks call (`Math.cos`, `Math.sin`,
      `Math.atan2`); it is foreign code, so the model takes it as a parameter. */
  datatype Trig = Trig(cos: real -> real, sin: real -> real, atan2: (real, real) -> real)

  /** The decimal value of `Math.PI`. */
  const Pi: real := 3.141592653589793

  function MinInt(a: int, b: int): int { if a <= b then a else b }
  function MaxInt(a: int, b: int): int { if a >= b then a else b }
  function MinReal(a: real, b: real): real { if a <= b then a else b }
  function MaxReal(a: real, b: real): real { if a >= b then a else b }
}
