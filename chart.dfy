/** Geometry of the decision-matrix chart shared by both calculator variants:
    axis-aligned rectangles (the coloured regions drawn behind the user's dot)
    and the two ways a point can lie in one. */
module Chart {

  /** A filled rectangle with corners (x0, y0) and (x1, y1). */
  datatype Rect = Rect(x0: real, y0: real, x1: real, y1: real)

  /** The point lies in the rectangle, borders included. */
  predicate InRect(r: Rect, x: real, y: real)
  {
    r.x0 <= x <= r.x1 && r.y0 <= y <= r.y1
  }

  /** The point lies strictly inside the rectangle, off every border. */
  predicate InInterior(r: Rect, x: real, y: real)
  {
    r.x0 < x < r.x1 && r.y0 < y < r.y1
  }

  /** The point at the middle of the rectangle, where a region's label sits. */
  function Center(r: Rect): (p: (real, real))
    requires r.x0 < r.x1 && r.y0 < r.y1
    ensures InInterior(r, p.0, p.1)
  {
    ((r.x0 + r.x1) / 2.0, (r.y0 + r.y1) / 2.0)
  }

  /** The horizontal boundary between single-channel and multi-channel apps. */
  const YThreshold: real := 1.5

  /** The top of the y-axis and of every region. */
  const YMax: real := 10.0
}
