/**
 * Properties of `_build_edge_point` (byte_drawer/drawer.py), the point where a segment
 * crossing the canvas boundary meets it, computed in exact rational arithmetic.
 */
module EdgeProperties {
  import opened Failures
  import opened Geometry
  import opened Drawing

  lemma TruncBetween(v: real, lo: int, hi: int)
    requires lo as real <= v <= hi as real
    ensures lo <= Trunc(v) <= hi
  {
    TruncTowardZero(v);
  }

  /** `_build_edge_point`'s height of the crossing line at `m`: `slope * m + b`. */
  function LineHeight(inner: Point, outer: Point, m: int): real
    requires outer.x != inner.x
  {
    Slope(inner, outer) * m as real + Intercept(inner, outer)
  }

  /**
   * Leaving through the right edge: the edge point is on the right border, at the
   * height of the crossing line there, truncated toward zero.
   */
  lemma RightExit(c: Canvas, inner: Point, outer: Point)
    requires c.ContainsPoint(inner) && outer.x > c.maxX && c.minY < outer.y < c.maxY
    ensures var r := EdgePoint(c, inner, outer);
      r.Ok? && r.value.x == c.maxX && r.value.y == Trunc(LineHeight(inner, outer, c.maxX))
  {
    assert outer.x != inner.x;
  }

  /**
   * The right-edge point lies between the heights of the segment's two ends, so
   * strictly inside the right border.
   */
  lemma RightExitBetween(c: Canvas, inner: Point, outer: Point)
    requires c.ContainsPoint(inner) && outer.x > c.maxX && c.minY < outer.y < c.maxY
    ensures var r := EdgePoint(c, inner, outer);
      && r.Ok? && r.value.x == c.maxX
      && (inner.y <= r.value.y <= outer.y || outer.y <= r.value.y <= inner.y)
      && c.minY < r.value.y < c.maxY
  {
    RightExit(c, inner, outer);
    HeightBetween(inner, outer, c.maxX);
  }

  /**
   * The crossing line's height at `m` is the height measured from the inner end,
   * `inner.y + slope * (m - inner.x)`.
   */
  lemma HeightFromInner(inner: Point, outer: Point, m: int)
    requires outer.x != inner.x
    ensures LineHeight(inner, outer, m) == inner.y as real + Slope(inner, outer) * (m - inner.x) as real
  {
    InterceptForm(Slope(inner, outer), inner.x as real, inner.y as real, m as real);
  }

  /**
   * At an x strictly between the ends of a segment, the crossing line's height lies
   * between the end heights, after truncation toward zero too.
   */
  lemma HeightBetween(inner: Point, outer: Point, m: int)
    requires inner.x < m < outer.x
    ensures var y := Trunc(LineHeight(inner, outer, m));
      inner.y <= y <= outer.y || outer.y <= y <= inner.y
  {
    var v := LineHeight(inner, outer, m);
    HeightFromInner(inner, outer, m);
    PartialRise((outer.y - inner.y) as real, (m - inner.x) as real, (outer.x - inner.x) as real);
    if inner.y <= outer.y {
      TruncBetween(v, inner.y, outer.y);
    } else {
      TruncBetween(v, outer.y, inner.y);
    }
  }

  /** The line `y = s x + b` through (x0, y0), evaluated at `m`. */
  lemma InterceptForm(s: real, x0: real, y0: real, m: real)
    ensures s * m + (y0 - s * x0) == y0 + s * (m - x0)
  {
  }

  /** Part of a run rises by the same part of the rise, so by no more than the whole rise. */
  lemma PartialRise(rise: real, run: real, dx: real)
    requires 0.0 < run < dx
    ensures rise >= 0.0 ==> 0.0 <= rise / dx * run <= rise
    ensures rise < 0.0 ==> rise <= rise / dx * run <= 0.0
  {
    var q := rise / dx;
    assert q * dx == rise;
    assert q * dx - q * run == q * (dx - run);
    if rise >= 0.0 {
      assert q >= 0.0;
      assert q * run >= 0.0 && q * (dx - run) >= 0.0;
    } else {
      assert q < 0.0;
      assert q * run <= 0.0 && q * (dx - run) <= 0.0;
    }
  }

  /** Leaving through the bottom edge: the edge point's height is the bottom bound. */
  lemma BottomExit(c: Canvas, inner: Point, outer: Point)
    requires c.ContainsPoint(inner) && outer.y < c.minY && c.minX < outer.x < c.maxX && outer.x != inner.x
    ensures var r := EdgePoint(c, inner, outer); r.Ok? && r.value.y == c.minY
  {
  }

  /** Leaving through the left edge: the edge point's x coordinate is the bottom bound `minY`. */
  lemma LeftExit(c: Canvas, inner: Point, outer: Point)
    requires c.ContainsPoint(inner) && outer.x < c.minX && c.minY < outer.y < c.maxY
    ensures var r := EdgePoint(c, inner, outer); r.Ok? && r.value.x == c.minY
  {
  }

  /** On a canvas whose bounds differ, the left-edge point is off the left border. */
  lemma LeftExitOffBorder()
    ensures var c := NewCanvas(-10, 10, -20, 20, None);
      && EdgePoint(c, Point(0, 0), Point(-15, 5)) == Ok(Point(-20, 3))
      && Point(-20, 3).x != c.minX
  {
    var c := NewCanvas(-10, 10, -20, 20, None);
    assert Slope(Point(0, 0), Point(-15, 5)) == -1.0 / 3.0;
    assert Intercept(Point(0, 0), Point(-15, 5)) == 0.0;
    assert Slope(Point(0, 0), Point(-15, 5)) * c.minX as real == 10.0 / 3.0;
  }

  /**
   * Leaving through the top edge is not handled: the source's top-edge branch tests the
   * bottom-edge condition, so unless the intercept is zero (a corner) the computation
   * raises RuntimeError.
   */
  lemma TopExitFails(c: Canvas, inner: Point, outer: Point)
    requires c.ContainsPoint(inner) && outer.y > c.maxY && c.minX < outer.x < c.maxX && outer.x != inner.x
    requires Intercept(inner, outer) != 0.0
    ensures EdgePoint(c, inner, outer) == Err(RuntimeError)
  {
  }

  /**
   * Outside the right, bottom and left cases a result exists only when the intercept is
   * zero and the segment is not horizontal, and it is the corner the segment points to.
   */
  lemma CornerCases(c: Canvas, inner: Point, outer: Point)
    requires outer.x != inner.x
    requires !(outer.x > c.maxX && outer.y > c.minY && outer.y < c.maxY)
    requires !(outer.y < c.minY && outer.x > c.minX && outer.x < c.maxX)
    requires !(outer.x < c.minX && outer.y > c.minY && outer.y < c.maxY)
    ensures var r := EdgePoint(c, inner, outer);
      && (r.Ok? <==> Intercept(inner, outer) == 0.0 && outer.y != inner.y)
      && (r.Ok? ==> r.value == Point(if outer.x > inner.x then c.maxX else c.minX,
                                    if outer.y > inner.y then c.maxY else c.minY))
      && (r.Err? ==> r.error == RuntimeError)
  {
  }
}
