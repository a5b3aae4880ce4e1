/**
 * Canvas geometry (byte_drawer/canvas.py): points, colours, line segments and the
 * axis-aligned rectangle a drawer draws in, with its open-rectangle containment test
 * and its four border lines.
 */
module Geometry {
  import opened Failures

  datatype Point = Point(x: int, y: int)

  datatype Color = Color(r: int, g: int, b: int, a: int)

  datatype Line = Line(start: Point, finish: Point, color: Color)

  /** The class-level `Canvas.center_point`; every canvas shares it, whatever its bounds. */
  const CenterPoint: Point := Point(0, 0)

  /** The class-level `Canvas.default_color`: opaque black. */
  const DefaultColor: Color := Color(0, 0, 0, 255)

  /**
   * A canvas. Its borders are computed once from the bounds and the default colour at
   * construction and never change, so here they are a function of those fields.
   */
  datatype Canvas = Canvas(minX: int, maxX: int, minY: int, maxY: int, defaultColor: Color) {

    /** `contains_point`: strictly inside on both axes; points on an edge are outside. */
    predicate ContainsPoint(p: Point) {
      p.x > minX && p.x < maxX && p.y > minY && p.y < maxY
    }

    /** `center_point`: the shared centre, independent of the bounds. */
    function Center(): (p: Point)
      ensures p == Point(0, 0)
    {
      CenterPoint
    }

    /**
     * `_set_borders`: top, right, bottom, left, in the default colour. The four lines
     * form a closed loop through the corners: each ends where the next begins, and the
     * last ends where the first begins.
     */
    function Borders(): (borders: seq<Line>)
      ensures |borders| == 4
      ensures forall i :: 0 <= i < 4 ==> borders[i].color == defaultColor
      ensures forall i :: 0 <= i < 3 ==> borders[i].finish == borders[i + 1].start
      ensures borders[3].finish == borders[0].start
      ensures borders[0].start == Point(minX, maxY) && borders[1].start == Point(maxX, maxY)
      ensures borders[2].start == Point(maxX, minY) && borders[3].start == Point(minX, minY)
    {
      var maxXMaxY := Point(maxX, maxY);
      var maxXMinY := Point(maxX, minY);
      var minXMinY := Point(minX, minY);
      var minXMaxY := Point(minX, maxY);
      [ Line(minXMaxY, maxXMaxY, defaultColor),  // top
        Line(maxXMaxY, maxXMinY, defaultColor),  // right
        Line(maxXMinY, minXMinY, defaultColor),  // bottom
        Line(minXMinY, minXMaxY, defaultColor) ] // left
    }
  }

  /**
   * `Canvas.__init__`: the bounds as given, and the given colour or, when none is given,
   * the class default. (A `Color` object is always truthy, so only an absent colour
   * falls back.)
   */
  function NewCanvas(minX: int, maxX: int, minY: int, maxY: int, defaultColor: Option<Color>): (c: Canvas)
    ensures c.minX == minX && c.maxX == maxX && c.minY == minY && c.maxY == maxY
    ensures defaultColor.None? ==> c.defaultColor == Color(0, 0, 0, 255)
    ensures defaultColor.Some? ==> c.defaultColor == defaultColor.value
  {
    Canvas(minX, maxX, minY, maxY, if defaultColor.Some? then defaultColor.value else DefaultColor)
  }

  /** No point on the boundary of a canvas is contained in it, whatever the bounds. */
  lemma BoundaryNotContained(c: Canvas, p: Point)
    requires p.x == c.minX || p.x == c.maxX || p.y == c.minY || p.y == c.maxY
    ensures !c.ContainsPoint(p)
  {
  }

  /** The border lines run along the boundary: none of their end points is contained. */
  lemma BordersOutside(c: Canvas)
    ensures forall i :: 0 <= i < 4 ==>
              !c.ContainsPoint(c.Borders()[i].start) && !c.ContainsPoint(c.Borders()[i].finish)
  {
  }

  /** The containment vectors of the test suite, on the canvas (-10, 10, -10, 10). */
  lemma ContainsVectors()
    ensures var c := NewCanvas(-10, 10, -10, 10, None);
      && c.ContainsPoint(Point(4, 5))
      && !c.ContainsPoint(Point(11, 11))
      && !c.ContainsPoint(Point(-11, 0))
      && !c.ContainsPoint(Point(0, -11))
      && !c.ContainsPoint(Point(-11, -11))
  {
  }

  // ---------------------------------------------------------------------------
  // Text forms: Python's `str()` of an int, `Point.__str__` and `Color.__str__`.
  // ---------------------------------------------------------------------------

  function DigitChar(d: nat): char
    requires d < 10
  {
    "0123456789"[d]
  }

  /** Decimal digits of a natural number, no leading zeros. */
  function NatText(n: nat): (s: string)
    ensures 1 <= |s|
    decreases n
  {
    if n < 10 then [DigitChar(n)] else NatText(n / 10) + [DigitChar(n % 10)]
  }

  /** `str(n)`: a minus sign for negative numbers, then the digits. */
  function IntText(n: int): (s: string)
    ensures 1 <= |s|
  {
    if n < 0 then "-" + NatText(-n) else NatText(n)
  }

  /** The value of a string of decimal digits (the reader that `str()` is an inverse of). */
  function DecimalValue(s: string): Option<nat>
    decreases |s|
  {
    if s == [] then Some(0)
    else
      var c := s[|s| - 1];
      var front := DecimalValue(s[..|s| - 1]);
      if front.None? || !('0' <= c <= '9') then None
      else Some(front.value * 10 + (c as int - '0' as int))
  }

  /** `str()` of a natural number reads back as that number. */
  lemma {:induction false} NatTextRoundTrip(n: nat)
    ensures DecimalValue(NatText(n)) == Some(n)
    decreases n
  {
    var s := NatText(n);
    if n < 10 {
      assert s[..0] == [];
    } else {
      NatTextRoundTrip(n / 10);
      assert s[..|s| - 1] == NatText(n / 10);
    }
  }

  /** `str()` of an int starts with '-' exactly when it is negative, and reads back. */
  lemma IntTextRoundTrip(n: int)
    ensures (IntText(n)[0] == '-') <==> n < 0
    ensures n < 0 ==> DecimalValue(IntText(n)[1..]) == Some(-n)
    ensures n >= 0 ==> DecimalValue(IntText(n)) == Some(n)
  {
    NatTextRoundTrip(if n < 0 then -n else n);
    if n < 0 {
      assert IntText(n)[1..] == NatText(-n);
    } else {
      NatTextNoSign(n);
    }
  }

  lemma NatTextNoSign(n: nat)
    ensures '0' <= NatText(n)[0] <= '9'
    decreases n
  {
    if n >= 10 {
      NatTextNoSign(n / 10);
    }
  }

  /** `Point.__str__`: "(x, y)". */
  function PointText(p: Point): string {
    "(" + IntText(p.x) + ", " + IntText(p.y) + ")"
  }

  /** `Color.__str__`: "r g b a". */
  function ColorText(c: Color): string {
    IntText(c.r) + " " + IntText(c.g) + " " + IntText(c.b) + " " + IntText(c.a)
  }
}
