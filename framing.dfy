/**
 The framing arithmetic of the sprite exporter's `execute` operator
 (io_export_gms_sprite.py, lines 67-111), over exact reals.

 The operator takes the horizontal box with corners `location ± dimensions/2`,
 which it assumes to be the selected object's footprint (it treats the object's
 location as the centre of an unrotated bounding box), widens it to take in the
 3D cursor, centres the orthographic camera on the
 result, sets the camera's orthographic scale to the box's longer side and
 recomputes the render resolution of the shorter side so that the canvas keeps
 the box's aspect ratio. The cursor's offset from the box's minimum corner is
 the sprite origin.
 */
module Framing {

  /** A 3-vector of the host application: a location or a set of dimensions. */
  datatype Vec3 = Vec3(x: real, y: real, z: real)

  /** A Python 2-tuple of reals, such as the `[0:2]` slice of a vector. */
  datatype Pair = Pair(x: real, y: real)

  /** An axis-aligned rectangle in the horizontal plane, given by its corners. */
  datatype Box = Box(minX: real, minY: real, maxX: real, maxY: real) {

    function Width(): real { maxX - minX }

    function Height(): real { maxY - minY }

    predicate Contains(p: Pair) {
      minX <= p.x <= maxX && minY <= p.y <= maxY
    }

    predicate Encloses(b: Box) {
      minX <= b.minX && b.maxX <= maxX && minY <= b.minY && b.maxY <= maxY
    }
  }

  /** The render resolution, one value per canvas axis. */
  datatype Resolution = Resolution(x: real, y: real)

  datatype Option<T> = None | Some(value: T)

  /** The horizontal part `v[0:2]` of a vector. */
  function Plane(v: Vec3): Pair {
    Pair(v.x, v.y)
  }

  // ---------------------------------------------------------------------
  // Python's built-in ordering, max and min
  // ---------------------------------------------------------------------

  /** Python's `a < b` on two 2-tuples: lexicographic order. */
  predicate TupleLess(a: Pair, b: Pair) {
    a.x < b.x || (a.x == b.x && a.y < b.y)
  }

  /** Python's `max(a, b)` on 2-tuples: the first argument unless the second is
      strictly greater, so the lexicographic maximum and not a component-wise one. */
  function TupleMax(a: Pair, b: Pair): (r: Pair)
    ensures r == a || r == b
    ensures !TupleLess(r, a) && !TupleLess(r, b)
  {
    if TupleLess(a, b) then b else a
  }

  /** Python's `min(a, b)` on 2-tuples: the lexicographic minimum. */
  function TupleMin(a: Pair, b: Pair): (r: Pair)
    ensures r == a || r == b
    ensures !TupleLess(a, r) && !TupleLess(b, r)
  {
    if TupleLess(b, a) then b else a
  }

  /** Python's `max(a, b)` on two numbers. */
  function Max(a: real, b: real): (r: real)
    ensures r == a || r == b
    ensures a <= r && b <= r
  {
    if b > a then b else a
  }

  /** Python's `min(a, b)` on two numbers. */
  function Min(a: real, b: real): (r: real)
    ensures r == a || r == b
    ensures r <= a && r <= b
  {
    if b < a then b else a
  }

  // ---------------------------------------------------------------------
  // The frame: the corners `pos ± dim/2`, widened by the cursor
  // ---------------------------------------------------------------------

  /** `(pos + dim/2)[0:2]`: the corner on the positive side of both axes of the box
      the code assumes the object occupies, centred on its location. */
  function TopRight(pos: Vec3, dim: Vec3): Pair {
    Pair(pos.x + dim.x / 2.0, pos.y + dim.y / 2.0)
  }

  /** `(pos - dim/2)[0:2]`: the corner on the negative side of both axes of that
      assumed box. */
  function BottomLeft(pos: Vec3, dim: Vec3): Pair {
    Pair(pos.x - dim.x / 2.0, pos.y - dim.y / 2.0)
  }

  /** The box whose corners are `min(top_right, bottom_left)` and
      `max(top_right, bottom_left)`, taken in Python's tuple order. */
  function CornerBox(pos: Vec3, dim: Vec3): (b: Box)
    ensures Plane(pos) == Pair((b.minX + b.maxX) / 2.0, (b.minY + b.maxY) / 2.0)
  {
    var hi := TupleMax(TopRight(pos, dim), BottomLeft(pos, dim));
    var lo := TupleMin(TopRight(pos, dim), BottomLeft(pos, dim));
    Box(lo.x, lo.y, hi.x, hi.y)
  }

  /** The box spanned by two points, bound by bound. */
  function ComponentwiseBox(a: Pair, b: Pair): (r: Box)
    ensures r.Contains(a) && r.Contains(b)
    ensures r.minX == a.x || r.minX == b.x
    ensures r.maxX == a.x || r.maxX == b.x
    ensures r.minY == a.y || r.minY == b.y
    ensures r.maxY == a.y || r.maxY == b.y
  {
    Box(Min(a.x, b.x), Min(a.y, b.y), Max(a.x, b.x), Max(a.y, b.y))
  }

  /** Widens a box to take in a point, each bound with Python's number max/min. */
  function Include(b: Box, p: Pair): (r: Box)
    ensures r.Contains(p)
    ensures r.minX <= b.minX && b.maxX <= r.maxX && r.minY <= b.minY && b.maxY <= r.maxY
    ensures r.minX == b.minX || r.minX == p.x
    ensures r.maxX == b.maxX || r.maxX == p.x
    ensures r.minY == b.minY || r.minY == p.y
    ensures r.maxY == b.maxY || r.maxY == p.y
  {
    Box(Min(b.minX, p.x), Min(b.minY, p.y), Max(b.maxX, p.x), Max(b.maxY, p.y))
  }

  /** The box `[mic_x, mac_x] x [mic_y, mac_y]` that the operator frames: the
      corner box widened by the cursor. It always holds the cursor and never has a
      negative side; when the dimensions are not negative it holds both corners
      `pos ± dim/2`. */
  function FrameBox(pos: Vec3, dim: Vec3, cursor: Pair): (b: Box)
    ensures b.Contains(cursor)
    ensures 0.0 <= b.Width() && 0.0 <= b.Height()
    ensures 0.0 <= dim.x && 0.0 <= dim.y ==>
              b.Contains(TopRight(pos, dim)) && b.Contains(BottomLeft(pos, dim))
  {
    Include(CornerBox(pos, dim), cursor)
  }

  /** The camera's horizontal position `mic + (mac - mic)/2`: equally far from both
      sides of the box, hence inside any box whose sides are not negative. */
  function Center(b: Box): (c: Pair)
    ensures c.x - b.minX == b.maxX - c.x && c.y - b.minY == b.maxY - c.y
    ensures 0.0 <= b.Width() && 0.0 <= b.Height() ==> b.Contains(c)
  {
    Pair(b.minX + b.Width() / 2.0, b.minY + b.Height() / 2.0)
  }

  /** The sprite origin: the cursor's offset from the box's minimum corner. Adding
      it back to that corner gives the cursor; inside the box it lies between zero
      and the box's sides. */
  function OriginOffset(b: Box, cursor: Pair): (o: Pair)
    ensures Pair(b.minX + o.x, b.minY + o.y) == cursor
    ensures b.Contains(cursor) ==> 0.0 <= o.x <= b.Width() && 0.0 <= o.y <= b.Height()
  {
    Pair(cursor.x - b.minX, cursor.y - b.minY)
  }

  // ---------------------------------------------------------------------
  // Orthographic scale and canvas resolution
  // ---------------------------------------------------------------------

  /** The camera's orthographic scale: the box's longer side. */
  function OrthoScale(b: Box): (s: real)
    ensures b.Width() <= s && b.Height() <= s
    ensures s == b.Width() || s == b.Height()
  {
    if b.Width() >= b.Height() then b.Width() else b.Height()
  }

  /** The resolution after the canvas is refitted to a `w` by `h` box: the axis of
      the longer side keeps its value and the other is scaled by `h/w` or `w/h`.
      `None` stands for the division by zero that the operator raises. */
  function Refit(w: real, h: real, res: Resolution): (r: Option<Resolution>)
    ensures 0.0 <= w && 0.0 <= h ==> (r.None? <==> w == 0.0 && h == 0.0)
    ensures r.Some? && w >= h ==> r.value.x == res.x
    ensures r.Some? && w < h ==> r.value.y == res.y
    ensures r.Some? ==> r.value.x * h == r.value.y * w
  {
    if w >= h then
      if w == 0.0 then None else Some(res.(y := h / w * res.x))
    else
      if h == 0.0 then None else Some(res.(x := w / h * res.y))
  }

  // ---------------------------------------------------------------------
  // Reference definition of a bounding box
  // ---------------------------------------------------------------------

  /** The smallest axis-aligned box holding every point of a non-empty list: it
      holds each point and each of its four bounds is attained by some point. */
  function Bounds(pts: seq<Pair>): (b: Box)
    requires |pts| > 0
    ensures forall i :: 0 <= i < |pts| ==> b.Contains(pts[i])
    ensures exists i :: 0 <= i < |pts| && pts[i].x == b.minX
    ensures exists i :: 0 <= i < |pts| && pts[i].x == b.maxX
    ensures exists i :: 0 <= i < |pts| && pts[i].y == b.minY
    ensures exists i :: 0 <= i < |pts| && pts[i].y == b.maxY
    decreases |pts|
  {
    if |pts| == 1 then
      Box(pts[0].x, pts[0].y, pts[0].x, pts[0].y)
    else
      Include(Bounds(pts[..|pts| - 1]), pts[|pts| - 1])
  }

  /** The smallest box holding a list of points lies inside every box that holds them. */
  lemma BoundsIsSmallest(pts: seq<Pair>, c: Box)
    requires |pts| > 0
    requires forall i :: 0 <= i < |pts| ==> c.Contains(pts[i])
    ensures c.Encloses(Bounds(pts))
  {
  }

  // ---------------------------------------------------------------------
  // Properties of the frame
  // ---------------------------------------------------------------------

  /** With dimensions that are not negative, the lexicographic `max`/`min` of the
      two corners give the same box as the bound-by-bound maximum and minimum. */
  lemma LexicographicCornersAreComponentwise(pos: Vec3, dim: Vec3)
    requires 0.0 <= dim.x && 0.0 <= dim.y
    ensures CornerBox(pos, dim) == ComponentwiseBox(BottomLeft(pos, dim), TopRight(pos, dim))
    ensures CornerBox(pos, dim) == Box(pos.x - dim.x / 2.0, pos.y - dim.y / 2.0,
                                       pos.x + dim.x / 2.0, pos.y + dim.y / 2.0)
  {
  }

  /** With a negative `y` dimension the two disagree: the lexicographic order
      decides on `x` alone, the corner box comes out upside down, and a cursor at
      the object's location gives a frame that misses both corners `pos ± dim/2`. */
  lemma LexicographicCornersDisagree()
    ensures var pos, dim := Vec3(0.0, 0.0, 0.0), Vec3(2.0, -2.0, 0.0);
            && CornerBox(pos, dim) == Box(-1.0, 1.0, 1.0, -1.0)
            && CornerBox(pos, dim) != ComponentwiseBox(BottomLeft(pos, dim), TopRight(pos, dim))
            && FrameBox(pos, dim, Plane(pos)) == Box(-1.0, 0.0, 1.0, 0.0)
            && !FrameBox(pos, dim, Plane(pos)).Contains(TopRight(pos, dim))
            && !FrameBox(pos, dim, Plane(pos)).Contains(BottomLeft(pos, dim))
  {
    var pos, dim := Vec3(0.0, 0.0, 0.0), Vec3(2.0, -2.0, 0.0);
    assert TopRight(pos, dim) == Pair(1.0, -1.0);
    assert BottomLeft(pos, dim) == Pair(-1.0, 1.0);
    assert CornerBox(pos, dim) == Box(-1.0, 1.0, 1.0, -1.0);
    assert ComponentwiseBox(BottomLeft(pos, dim), TopRight(pos, dim)) == Box(-1.0, -1.0, 1.0, 1.0);
    assert FrameBox(pos, dim, Plane(pos)) == Include(Box(-1.0, 1.0, 1.0, -1.0), Pair(0.0, 0.0));
  }

  /** With dimensions that are not negative, the frame is the bounding box of the
      two corners `pos ± dim/2` and the cursor. */
  lemma FrameIsBoundingBox(pos: Vec3, dim: Vec3, cursor: Pair)
    requires 0.0 <= dim.x && 0.0 <= dim.y
    ensures FrameBox(pos, dim, cursor) == Bounds([BottomLeft(pos, dim), TopRight(pos, dim), cursor])
  {
    var pts := [BottomLeft(pos, dim), TopRight(pos, dim), cursor];
    assert pts[..2] == [BottomLeft(pos, dim), TopRight(pos, dim)];
    assert pts[..2][..1] == [BottomLeft(pos, dim)];
    LexicographicCornersAreComponentwise(pos, dim);
  }

  /** Hence the frame is the smallest box holding both corners `pos ± dim/2` and
      the cursor: every such box encloses it. */
  lemma FrameIsSmallest(pos: Vec3, dim: Vec3, cursor: Pair, c: Box)
    requires 0.0 <= dim.x && 0.0 <= dim.y
    requires c.Contains(BottomLeft(pos, dim)) && c.Contains(TopRight(pos, dim)) && c.Contains(cursor)
    ensures c.Encloses(FrameBox(pos, dim, cursor))
  {
    var pts := [BottomLeft(pos, dim), TopRight(pos, dim), cursor];
    FrameIsBoundingBox(pos, dim, cursor);
    BoundsIsSmallest(pts, c);
  }

  /** The refit divides by zero exactly when both horizontal dimensions are zero
      and the cursor sits at the object's location, whatever the signs of the
      dimensions. */
  lemma ZeroDivisionExactly(pos: Vec3, dim: Vec3, cursor: Pair, res: Resolution)
    ensures var b := FrameBox(pos, dim, cursor);
            Refit(b.Width(), b.Height(), res).None? <==>
              dim.x == 0.0 && dim.y == 0.0 && cursor == Plane(pos)
  {
  }

  /** With positive sides and resolutions, the refitted canvas has the box's
      aspect ratio. */
  lemma RefitKeepsAspectRatio(w: real, h: real, res: Resolution)
    requires 0.0 < w && 0.0 < h && 0.0 < res.x && 0.0 < res.y
    ensures Refit(w, h, res).Some?
    ensures Refit(w, h, res).value.x / Refit(w, h, res).value.y == w / h
  {
  }

  /** With positive resolutions, the refitted canvas is wider than tall exactly
      when the box is, and no resolution becomes negative. */
  lemma RefitKeepsOrientation(w: real, h: real, res: Resolution)
    requires 0.0 <= w && 0.0 <= h && (w != 0.0 || h != 0.0)
    requires 0.0 < res.x && 0.0 < res.y
    ensures Refit(w, h, res).Some?
    ensures var r := Refit(w, h, res).value;
            0.0 <= r.x && 0.0 <= r.y && (r.x >= r.y <==> w >= h)
  {
    if w >= h {
      QuotientAtMostOne(h, w);
      ScaledDown(h / w, res.x);
    } else {
      QuotientAtMostOne(w, h);
      ScaledDown(w / h, res.y);
    }
  }

  /** A quotient `n / d` with `0 <= n <= d` lies in [0, 1], below 1 when `n < d`. */
  lemma QuotientAtMostOne(n: real, d: real)
    requires 0.0 <= n <= d && 0.0 < d
    ensures 0.0 <= n / d <= 1.0
    ensures n < d ==> n / d < 1.0
  {
    assert (n / d) * d == n;
  }

  /** Scaling a positive amount by a factor in [0, 1] keeps it between zero and
      itself, strictly below itself when the factor is below 1. */
  lemma ScaledDown(q: real, a: real)
    requires 0.0 <= q <= 1.0 && 0.0 < a
    ensures 0.0 <= q * a <= a
    ensures q < 1.0 ==> q * a < a
  {
  }

  // ---------------------------------------------------------------------
  // Worked examples
  // ---------------------------------------------------------------------

  /** A 10 by 10 object at the world origin with the cursor at (5, 5): the code
      takes the location as the centre of the object's box, so the frame reaches
      from -5 to 5. */
  lemma ExampleSquareAtOrigin()
    ensures var b := FrameBox(Vec3(0.0, 0.0, 0.0), Vec3(10.0, 10.0, 2.0), Pair(5.0, 5.0));
            && b == Box(-5.0, -5.0, 5.0, 5.0)
            && Center(b) == Pair(0.0, 0.0)
            && OriginOffset(b, Pair(5.0, 5.0)) == Pair(10.0, 10.0)
            && OrthoScale(b) == 10.0
  {
    var pos, dim := Vec3(0.0, 0.0, 0.0), Vec3(10.0, 10.0, 2.0);
    assert TopRight(pos, dim) == Pair(5.0, 5.0);
    assert BottomLeft(pos, dim) == Pair(-5.0, -5.0);
    assert CornerBox(pos, dim) == Box(-5.0, -5.0, 5.0, 5.0);
    var b := FrameBox(pos, dim, Pair(5.0, 5.0));
    assert b == Include(Box(-5.0, -5.0, 5.0, 5.0), Pair(5.0, 5.0)) == Box(-5.0, -5.0, 5.0, 5.0);
    assert b.Width() == 10.0 && b.Height() == 10.0;
  }

  /** The same object centred at (5, 5): the frame is [0, 10] x [0, 10]. */
  lemma ExampleSquareOffCentre()
    ensures var b := FrameBox(Vec3(5.0, 5.0, 0.0), Vec3(10.0, 10.0, 2.0), Pair(5.0, 5.0));
            && b == Box(0.0, 0.0, 10.0, 10.0)
            && Center(b) == Pair(5.0, 5.0)
            && OriginOffset(b, Pair(5.0, 5.0)) == Pair(5.0, 5.0)
  {
    var pos, dim := Vec3(5.0, 5.0, 0.0), Vec3(10.0, 10.0, 2.0);
    assert TopRight(pos, dim) == Pair(10.0, 10.0);
    assert BottomLeft(pos, dim) == Pair(0.0, 0.0);
    assert CornerBox(pos, dim) == Box(0.0, 0.0, 10.0, 10.0);
    var b := FrameBox(pos, dim, Pair(5.0, 5.0));
    assert b == Include(Box(0.0, 0.0, 10.0, 10.0), Pair(5.0, 5.0)) == Box(0.0, 0.0, 10.0, 10.0);
    assert Center(b) == Pair(0.0 + 10.0 / 2.0, 0.0 + 10.0 / 2.0) == Pair(5.0, 5.0);
    assert OriginOffset(b, Pair(5.0, 5.0)) == Pair(5.0 - 0.0, 5.0 - 0.0);
  }

  /** A 10 by 20 object on a 64 by 64 canvas: the box is taller than wide, so the
      `y` resolution stays at 64 and the `x` resolution becomes 32. */
  lemma ExampleTallObject()
    ensures var b := FrameBox(Vec3(0.0, 0.0, 0.0), Vec3(10.0, 20.0, 2.0), Pair(0.0, 0.0));
            && OrthoScale(b) == 20.0
            && Refit(b.Width(), b.Height(), Resolution(64.0, 64.0)) == Some(Resolution(32.0, 64.0))
  {
    var pos, dim := Vec3(0.0, 0.0, 0.0), Vec3(10.0, 20.0, 2.0);
    assert TopRight(pos, dim) == Pair(5.0, 10.0);
    assert BottomLeft(pos, dim) == Pair(-5.0, -10.0);
    assert CornerBox(pos, dim) == Box(-5.0, -10.0, 5.0, 10.0);
    var b := FrameBox(pos, dim, Pair(0.0, 0.0));
    assert b == Include(Box(-5.0, -10.0, 5.0, 10.0), Pair(0.0, 0.0)) == Box(-5.0, -10.0, 5.0, 10.0);
    assert b.Width() == 10.0 && b.Height() == 20.0;
    assert 10.0 / 20.0 * 64.0 == 32.0;
  }
}
