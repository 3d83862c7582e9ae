/** Pixel coordinates and axis-aligned rectangles, with the y axis pointing
    down as in a raster image. */
module Geometry {

  datatype Point = Point(x: int, y: int)

  /** The size of a measured text bounding box in pixels (its origin offset is not kept). */
  datatype Extent = Extent(width: int, height: int)

  /** The rectangle whose top-left pixel is (x, y). */
  datatype Rect = Rect(x: int, y: int, width: int, height: int)

  function RectAt(p: Point, width: int, height: int): Rect {
    Rect(p.x, p.y, width, height)
  }

  /** Every pixel of inner is a pixel of outer. */
  predicate Inside(inner: Rect, outer: Rect) {
    && outer.x <= inner.x && inner.x + inner.width <= outer.x + outer.width
    && outer.y <= inner.y && inner.y + inner.height <= outer.y + outer.height
  }

  /** The two rectangles share no pixel. */
  predicate Disjoint(a: Rect, b: Rect) {
    || a.x + a.width <= b.x || b.x + b.width <= a.x
    || a.y + a.height <= b.y || b.y + b.height <= a.y
  }
}
