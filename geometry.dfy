/** Geometry primitives of the toolkit (`util::Point`, `util::Rect`, `util::Dimensions`, `Size`).
    Coordinates are `real`: the `f64`/`f32` representation is not modelled. */
module Geometry {

  datatype Point = Point(x: real, y: real)

  /** A rectangle given by its left/top corner and its extent. */
  datatype Rect = Rect(left: real, top: real, width: real, height: real)
  {
    function Right(): real { left + width }
    function Bottom(): real { top + height }
  }

  datatype Dimensions = Dimensions(width: real, height: real)

  datatype Size = Size(width: real, height: real)
}
