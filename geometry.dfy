/**
 * The geometric vocabulary shared by the slider styles: closed value ranges,
 * sizes, points, drag-gesture values, and the two value/distance conversions
 * that every style delegates to.
 */
module Geometry {

  /** The two ends of a range of slider values. */
  datatype Bounds = Bounds(lowerBound: real, upperBound: real)

  /** A closed range `lowerBound...upperBound`; the platform refuses to build one whose ends are reversed. */
  type ClosedRange = b: Bounds | b.lowerBound <= b.upperBound witness Bounds(0.0, 0.0)

  /** A width and a height, as measured by the enclosing view. */
  datatype Size = Size(width: real, height: real)

  /** A location in the slider's own coordinate space; y grows downwards. */
  datatype Point = Point(x: real, y: real)

  /** What a drag-gesture callback receives: where the touch began and where it is now. */
  datatype DragValue = DragValue(startLocation: Point, location: Point)

  /**
   * `valueFrom(distance:availableDistance:bounds:step:leadingOffset:trailingOffset:)`:
   * turns a distance along the track into a slider value.
   */
  type ValueFromFn = (real, real, ClosedRange, real, real, real) -> real

  /**
   * `distanceFrom(value:availableDistance:bounds:leadingOffset:trailingOffset:)`:
   * turns a slider value into a distance along the track.
   */
  type DistanceFromFn = (real, real, ClosedRange, real, real) -> real

  /**
   * The pair of conversions. Their bodies are not part of this model, so they
   * are arbitrary functions here: nothing is assumed about clamping, rounding
   * to the step, or one being the inverse of the other.
   */
  datatype Conversions = Conversions(valueFrom: ValueFromFn, distanceFrom: DistanceFromFn)
}
