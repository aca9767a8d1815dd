/** The quad geometry of BatchRenderer::BatchQuad: the four texture corners chosen by the UV mode,
    in integer pixel coordinates of the texture, and the four screen corners of the scaled,
    rotated quad. */
module BatchGeometry {
  import opened Graphics
  import opened UVModes

  /** A texture corner in pixels, before the division by the texture size. */
  datatype Pixel = Pixel(x: int, y: int)

  datatype Vec2 = Vec2(x: real, y: real)

  /** Corners 0..3 of the source rectangle: top-left, top-right, bottom-right, bottom-left. */
  function UprightCorners(source: Rectangle): seq<Pixel>
  {
    [Pixel(source.x, source.y), Pixel(source.x + source.width, source.y),
     Pixel(source.x + source.width, source.y + source.height), Pixel(source.x, source.y + source.height)]
  }

  /** The corners of a region stored rotated clockwise by 90 degrees: `height` spans x, `width` spans y. */
  function RotatedCorners(source: Rectangle): seq<Pixel>
  {
    [Pixel(source.x + source.height, source.y), Pixel(source.x + source.height, source.y + source.width),
     Pixel(source.x, source.y + source.width), Pixel(source.x, source.y)]
  }

  /** Horizontal flip: corners 0 and 1 change places, and so do 3 and 2. */
  function FlipH(c: seq<Pixel>): (r: seq<Pixel>)
    requires |c| == 4
    ensures |r| == 4
  {
    [c[1], c[0], c[3], c[2]]
  }

  /** Vertical flip: corners 0 and 3 change places, and so do 1 and 2. */
  function FlipV(c: seq<Pixel>): (r: seq<Pixel>)
    requires |c| == 4
    ensures |r| == 4
  {
    [c[3], c[2], c[1], c[0]]
  }

  lemma PairSwapped(a: Pixel, b: Pixel)
    ensures multiset([a, b]) == multiset([b, a])
  {
    assert [a, b] == [a] + [b] && [b, a] == [b] + [a];
  }

  /** Each flip only reorders the corners. */
  lemma FlipsPermute(c: seq<Pixel>)
    requires |c| == 4
    ensures multiset(FlipH(c)) == multiset(c) && multiset(FlipV(c)) == multiset(c)
  {
    assert c == [c[0], c[1]] + [c[2], c[3]];
    assert FlipH(c) == [c[1], c[0]] + [c[3], c[2]];
    assert FlipV(c) == [c[3], c[2]] + [c[1], c[0]];
    PairSwapped(c[0], c[1]);
    PairSwapped(c[2], c[3]);
  }

  /** The texture corners BatchQuad assigns to the quad's corners 0..3 for `uvMode`. */
  function UVCorners(source: Rectangle, uvMode: UVMode): (r: seq<Pixel>)
    ensures |r| == 4
  {
    var base := if HasFlag(uvMode, RotatedCW90) then RotatedCorners(source) else UprightCorners(source);
    var h := if HasFlag(uvMode, FlipHorizontal) then FlipH(base) else base;
    if HasFlag(uvMode, FlipVertical) then FlipV(h) else h
  }

  /** Whatever the mode, the quad gets the four corners of the (possibly rotated) region, each once. */
  lemma UVCornersArePermutation(source: Rectangle, uvMode: UVMode)
    ensures |UVCorners(source, uvMode)| == 4
    ensures multiset(UVCorners(source, uvMode)) ==
      multiset(if HasFlag(uvMode, RotatedCW90) then RotatedCorners(source) else UprightCorners(source))
  {
    var base := if HasFlag(uvMode, RotatedCW90) then RotatedCorners(source) else UprightCorners(source);
    var h := if HasFlag(uvMode, FlipHorizontal) then FlipH(base) else base;
    FlipsPermute(base);
    FlipsPermute(h);
  }

  /** Without flags the corners are top-left, top-right, bottom-right, bottom-left of the source. */
  lemma NormalCorners(source: Rectangle)
    ensures UVCorners(source, Normal) == UprightCorners(source)
  {
    NormalHasNoFlag(RotatedCW90);
    NormalHasNoFlag(FlipHorizontal);
    NormalHasNoFlag(FlipVertical);
  }

  /** Both flips together exchange opposite corners: 0 with 2 and 1 with 3. */
  lemma BothFlipsSwapOpposites(source: Rectangle, uvMode: UVMode)
    requires HasFlag(uvMode, FlipHorizontal) && HasFlag(uvMode, FlipVertical)
    ensures var base := if HasFlag(uvMode, RotatedCW90) then RotatedCorners(source) else UprightCorners(source);
      UVCorners(source, uvMode) == [base[2], base[3], base[0], base[1]]
  {
  }

  /** Each flip undoes itself, and the two flips commute. */
  lemma {:induction false} FlipsAreInvolutions(c: seq<Pixel>)
    requires |c| == 4
    ensures FlipH(FlipH(c)) == c && FlipV(FlipV(c)) == c
    ensures FlipV(FlipH(c)) == FlipH(FlipV(c))
  {
    assert c == [c[0], c[1], c[2], c[3]];
  }

  /** A corner of the quad before rotation, relative to `position`: the unit square's corner
      (ux, uy) moved by the origin and scaled to the destination size. */
  function LocalCorner(ux: real, uy: real, origin: Vec2, destW: real, destH: real): Vec2
  {
    Vec2((ux - origin.x) * destW, (uy - origin.y) * destH)
  }

  /** Rotation by the angle whose sine and cosine are given, then translation to `position`. */
  function Place(corner: Vec2, sin: real, cos: real, position: Vec2): Vec2
  {
    Vec2(corner.x * cos - corner.y * sin + position.x, corner.x * sin + corner.y * cos + position.y)
  }

  /** The screen positions of corners 0..3 (unit corners (0,0), (1,0), (1,1), (0,1)). */
  function QuadCorners(position: Vec2, sin: real, cos: real, destW: real, destH: real, origin: Vec2): (r: seq<Vec2>)
    ensures |r| == 4
  {
    [Place(LocalCorner(0.0, 0.0, origin, destW, destH), sin, cos, position),
     Place(LocalCorner(1.0, 0.0, origin, destW, destH), sin, cos, position),
     Place(LocalCorner(1.0, 1.0, origin, destW, destH), sin, cos, position),
     Place(LocalCorner(0.0, 1.0, origin, destW, destH), sin, cos, position)]
  }

  /** The corners form a parallelogram: the diagonals 0-2 and 1-3 share their midpoint, and
      opposite sides are equal vectors. */
  lemma QuadIsParallelogram(position: Vec2, sin: real, cos: real, destW: real, destH: real, origin: Vec2)
    ensures var c := QuadCorners(position, sin, cos, destW, destH, origin);
      && c[0].x + c[2].x == c[1].x + c[3].x && c[0].y + c[2].y == c[1].y + c[3].y
      && c[1].x - c[0].x == c[2].x - c[3].x && c[1].y - c[0].y == c[2].y - c[3].y
  {
    var l := [LocalCorner(0.0, 0.0, origin, destW, destH), LocalCorner(1.0, 0.0, origin, destW, destH),
              LocalCorner(1.0, 1.0, origin, destW, destH), LocalCorner(0.0, 1.0, origin, destW, destH)];
    assert l[0].x + l[2].x == l[1].x + l[3].x && l[0].y + l[2].y == l[1].y + l[3].y;
    PlaceIsAffine(l[0], l[2], l[1], l[3], sin, cos, position);
  }

  lemma PlaceIsAffine(a: Vec2, b: Vec2, c: Vec2, d: Vec2, sin: real, cos: real, position: Vec2)
    requires a.x + b.x == c.x + d.x && a.y + b.y == c.y + d.y
    ensures Place(a, sin, cos, position).x + Place(b, sin, cos, position).x
         == Place(c, sin, cos, position).x + Place(d, sin, cos, position).x
    ensures Place(a, sin, cos, position).y + Place(b, sin, cos, position).y
         == Place(c, sin, cos, position).y + Place(d, sin, cos, position).y
  {
    Distributes(a.x, b.x, cos);
    Distributes(a.y, b.y, sin);
    Distributes(c.x, d.x, cos);
    Distributes(c.y, d.y, sin);
    Distributes(a.x, b.x, sin);
    Distributes(a.y, b.y, cos);
    Distributes(c.x, d.x, sin);
    Distributes(c.y, d.y, cos);
  }

  lemma Distributes(u: real, v: real, k: real)
    ensures u * k + v * k == (u + v) * k
  {
  }

  /** Unrotated (sine 0, cosine 1), the quad is the axis-aligned box of size destW x destH whose
      point `origin` (in units of the size) sits at `position`. */
  lemma UnrotatedQuadIsBox(position: Vec2, destW: real, destH: real, origin: Vec2)
    ensures var c := QuadCorners(position, 0.0, 1.0, destW, destH, origin);
      && c[0] == Vec2(position.x - origin.x * destW, position.y - origin.y * destH)
      && c[1] == Vec2(c[0].x + destW, c[0].y)
      && c[2] == Vec2(c[0].x + destW, c[0].y + destH)
      && c[3] == Vec2(c[0].x, c[0].y + destH)
  {
  }
}
